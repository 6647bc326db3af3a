/**
 The event simulation of a pool under one constant burn, for any way of sharing the burn between the
 accounts. An event is the reset of the account that stands first; between two events the pool pays
 burn times the elapsed time.
 */
module PoolRun {
  import opened Common
  import opened PoolModel

  /** How the `n`-th interval's amount is taken from the pool. Any history-dependent rule is one. */
  type Policy = (nat, Pool, real) -> Pool

  /** `r` is `t` after giving exactly `amount`, with no balance below zero. */
  ghost predicate Draws(t: Pool, r: Pool, amount: real) {
    && SameSchedule(t, r)
    && (forall i :: 0 <= i < |t| ==> 0.0 <= r[i].balance <= t[i].balance)
    && Total(r) == Total(t) - amount
  }

  ghost predicate Legal(pol: Policy) {
    forall n: nat, t: Pool, amount: real :: InBounds(t) && 0.0 <= amount <= Total(t)
      ==> Draws(t, pol(n, t, amount), amount)
  }

  /** The policy of the simulation itself: soonest reset first. */
  ghost function Greedy(): Policy {
    (n, s, amount) => Drain(s, amount)
  }

  lemma GreedyIsLegal()
    ensures Legal(Greedy())
  {
    forall n: nat, t: Pool, amount: real | InBounds(t) && 0.0 <= amount <= Total(t)
      ensures Draws(t, Greedy()(n, t, amount), amount)
    {
      DrainBounds(t, amount);
      DrainSuffix(t, amount, 0);
      assert t[0..] == t && Drain(t, amount)[0..] == Drain(t, amount);
      TotalNonNegative(t);
    }
  }

  // ---------- termination: the resets left before the horizon ----------

  function ResetsLeft(a: SimAccount, horizon: real): nat
    requires a.window > 0.0
  {
    if a.resetAt >= horizon then 0
    else
      assert (horizon - a.resetAt) / a.window >= 0.0;
      ((horizon - a.resetAt) / a.window).Floor + 1
  }

  function Pending(s: Pool, horizon: real): nat
    requires InBounds(s)
  {
    if s == [] then 0 else ResetsLeft(s[0], horizon) + Pending(s[1..], horizon)
  }

  function Roll(a: SimAccount): SimAccount {
    a.(balance := a.full, resetAt := a.resetAt + a.window)
  }

  /** The first account refills, and takes its place for its next reset. */
  function Refill(s: Pool): (r: Pool)
    requires s != []
    ensures |r| == |s|
    ensures Total(r) == Total(s) - s[0].balance + s[0].full
  {
    Insert(Roll(s[0]), s[1..])
  }

  lemma Quotient(q: real, w: real, y: real)
    requires w > 0.0
    ensures q * w == y <==> y / w == q
  {
  }

  lemma RollUsesOneReset(a: SimAccount, horizon: real)
    requires a.window > 0.0 && a.resetAt < horizon
    ensures ResetsLeft(Roll(a), horizon) < ResetsLeft(a, horizon)
  {
    var x := (horizon - a.resetAt) / a.window;
    Quotient(x, a.window, horizon - a.resetAt);
    Quotient(x - 1.0, a.window, horizon - a.resetAt - a.window);
  }

  lemma InsertPending(x: SimAccount, s: Pool, horizon: real)
    requires InBounds(s) && 0.0 <= x.balance <= x.full && x.window > 0.0
    ensures InBounds(Insert(x, s))
    ensures Pending(Insert(x, s), horizon) == ResetsLeft(x, horizon) + Pending(s, horizon)
  {
    assert ([x] + s)[0] == x && ([x] + s)[1..] == s;
    if s != [] && x.resetAt > s[0].resetAt {
      InsertPending(x, s[1..], horizon);
      assert Insert(x, s) == [s[0]] + Insert(x, s[1..]);
    }
  }

  lemma PendingOfSchedule(s: Pool, t: Pool, horizon: real)
    requires InBounds(s) && InBounds(t) && SameSchedule(s, t)
    ensures Pending(s, horizon) == Pending(t, horizon)
  {
    if s != [] {
      assert s[0].(balance := 0.0) == t[0].(balance := 0.0);
      PendingOfSchedule(s[1..], t[1..], horizon);
    }
  }

  lemma RefillKeeps(s: Pool, horizon: real)
    requires s != [] && Sorted(s) && InBounds(s)
    ensures Sorted(Refill(s)) && InBounds(Refill(s))
    ensures Refill(s)[0].resetAt >= s[0].resetAt
    ensures Total(Refill(s)) >= Total(s)
    ensures s[0].resetAt < horizon ==> Pending(Refill(s), horizon) < Pending(s, horizon)
  {
    InsertSorted(Roll(s[0]), s[1..]);
    InsertPending(Roll(s[0]), s[1..], horizon);
    if s[0].resetAt < horizon {
      RollUsesOneReset(s[0], horizon);
    }
  }

  lemma ScheduleKeeps(s: Pool, t: Pool)
    requires SameSchedule(s, t) && Sorted(s) && InBounds(s)
    requires forall i :: 0 <= i < |s| ==> 0.0 <= t[i].balance <= s[i].balance
    ensures Sorted(t) && InBounds(t)
  {
    forall i | 0 <= i < |s|
      ensures t[i].resetAt == s[i].resetAt && t[i].window == s[i].window && t[i].full == s[i].full
    {
      assert s[i].(balance := 0.0) == t[i].(balance := 0.0);
    }
  }

  // ---------- the run ----------

  predicate Ready(s: Pool) {
    s != [] && Sorted(s) && InBounds(s)
  }

  function NextEvent(s: Pool, horizon: real): real
    requires s != []
  {
    Min(s[0].resetAt, horizon)
  }

  /** What a burn costs over a span of time. */
  function Cost(burn: real, span: real): real {
    burn * span
  }

  /** When a pool holding `total` at `cursor` runs dry. */
  function DryAt(total: real, burn: real, cursor: real): real
    requires burn > 0.0
  {
    cursor + total / burn
  }

  function Demand(s: Pool, cursor: real, horizon: real, burn: real): real
    requires s != []
  {
    Cost(burn, Max(NextEvent(s, horizon) - cursor, 0.0))
  }

  /** A refill: when, and how much it added to the pool. */
  datatype Refilled = Refilled(at: real, gained: real)

  /**
   Everything a run shows: the pool's total after every drain and every refill, the refills, the
   instant at which an interval could not be paid, the end of the last interval, what was missing
   there, and the smallest total on the way.
   */
  datatype Trace = Trace(
    totals: seq<real>,
    refills: seq<Refilled>,
    depletedAt: Option<real>,
    end: real,
    shortfall: real,
    minimum: real
  ) {
    /** The run that starts with a drain to `d` and a refill to `r`, and goes on as this one. */
    function After(d: Pool, r: Pool): Trace
      requires d != []
    {
      this.(totals := [Total(d), Total(r)] + totals,
            refills := [Refilled(d[0].resetAt, d[0].full - d[0].balance)] + refills)
    }
  }

  function Survived(totals: seq<real>, horizon: real, minimum: real): Trace {
    Trace(totals, [], None, horizon, 0.0, minimum)
  }

  lemma AfterDraw(pol: Policy, n: nat, s: Pool, amount: real, horizon: real)
    requires Legal(pol) && Ready(s) && 0.0 <= amount <= Total(s)
    ensures var d := pol(n, s, amount);
      && Draws(s, d, amount) && Ready(d) && Pending(d, horizon) == Pending(s, horizon)
      && d[0].resetAt == s[0].resetAt
      && Ready(Refill(d)) && Refill(d)[0].resetAt >= s[0].resetAt
      && Total(Refill(d)) >= Total(d) >= 0.0
      && (s[0].resetAt < horizon ==> Pending(Refill(d), horizon) < Pending(s, horizon))
  {
    var d := pol(n, s, amount);
    assert Draws(s, d, amount);
    ScheduleKeeps(s, d);
    PendingOfSchedule(s, d, horizon);
    assert s[0].(balance := 0.0) == d[0].(balance := 0.0);
    RefillKeeps(d, horizon);
    TotalNonNegative(d);
  }

  ghost function Run(pol: Policy, n: nat, s: Pool, cursor: real, horizon: real, burn: real, minimum: real): Trace
    requires Legal(pol) && Ready(s) && burn > 0.0
    decreases Pending(s, horizon)
  {
    if cursor >= horizon then Survived([], horizon, minimum)
    else
      var next := NextEvent(s, horizon);
      var amount := Demand(s, cursor, horizon, burn);
      if amount > Total(s) then
        Trace([], [], Some(DryAt(Total(s), burn, cursor)), next, amount - Total(s), 0.0)
      else
        AfterDraw(pol, n, s, amount, horizon);
        var d := pol(n, s, amount);
        var low := Min(minimum, Total(d));
        if next >= horizon then Survived([Total(d)], horizon, low)
        else
          var r := Refill(d);
          Run(pol, n + 1, r, next, horizon, burn, Min(low, Total(r))).After(d, r)
  }

  /** One interval that can be paid, and how the run goes on from it. */
  lemma Continues(pol: Policy, n: nat, s: Pool, cursor: real, horizon: real, burn: real, minimum: real)
      returns (d: Pool, r: Pool, low: real)
    requires Legal(pol) && Ready(s) && burn > 0.0 && cursor < horizon
    requires Demand(s, cursor, horizon, burn) <= Total(s)
    ensures d == pol(n, s, Demand(s, cursor, horizon, burn)) && Draws(s, d, Demand(s, cursor, horizon, burn))
    ensures d != [] && d[0].resetAt == s[0].resetAt && r == Refill(d) && Ready(d) && Ready(r)
    ensures r[0].resetAt >= s[0].resetAt && low == Min(Min(minimum, Total(d)), Total(r))
    ensures Total(r) >= Total(d) >= 0.0
    ensures s[0].resetAt < horizon ==> Pending(r, horizon) < Pending(s, horizon)
    ensures s[0].resetAt < horizon ==>
      Run(pol, n, s, cursor, horizon, burn, minimum) ==
        Run(pol, n + 1, r, s[0].resetAt, horizon, burn, low).After(d, r)
    ensures s[0].resetAt >= horizon ==>
      Run(pol, n, s, cursor, horizon, burn, minimum) ==
        Survived([Total(d)], horizon, Min(minimum, Total(d)))
  {
    AfterDraw(pol, n, s, Demand(s, cursor, horizon, burn), horizon);
    d := pol(n, s, Demand(s, cursor, horizon, burn));
    r, low := Refill(d), Min(Min(minimum, Total(d)), Total(Refill(d)));
  }

  /** Cost grows with the burn and, for a given burn, exactly with the span. */
  lemma CostOrder(a: real, b: real, x: real, y: real)
    requires 0.0 < a <= b
    ensures x <= y <==> Cost(a, x) <= Cost(a, y)
    ensures x >= 0.0 ==> 0.0 <= Cost(a, x) <= Cost(b, x)
    ensures Cost(a, x + y) == Cost(a, x) + Cost(a, y)
    ensures Cost(a, 0.0) == 0.0
  {
  }

  /** The dry instant is where the cost since the cursor equals the total. */
  lemma DryInstant(total: real, burn: real, cursor: real)
    requires burn > 0.0
    ensures Cost(burn, DryAt(total, burn, cursor) - cursor) == total
  {
  }

  /** What is missing at `t` is the cost since the dry instant. */
  lemma DryDebt(total: real, burn: real, cursor: real, t: real)
    requires burn > 0.0
    ensures Cost(burn, t - DryAt(total, burn, cursor)) == Cost(burn, t - cursor) - total
  {
    var q := total / burn;
    assert q * burn == total;
    assert burn * (t - cursor - q) == burn * (t - cursor) - burn * q;
  }

  /** The two ways in which a run is over before its next drain. */
  lemma Stops(pol: Policy, n: nat, s: Pool, cursor: real, horizon: real, burn: real, minimum: real)
    requires Legal(pol) && Ready(s) && burn > 0.0
    ensures var amount := Demand(s, cursor, horizon, burn);
      var p := Run(pol, n, s, cursor, horizon, burn, minimum);
      && (cursor >= horizon ==> p == Survived([], horizon, minimum))
      && (cursor < horizon && amount > Total(s) ==>
            p == Trace([], [], Some(DryAt(Total(s), burn, cursor)), NextEvent(s, horizon), amount - Total(s), 0.0))
  {
  }

  lemma ReadyTotal(s: Pool)
    requires Ready(s)
    ensures s != [] && Total(s) >= 0.0
  {
    TotalNonNegative(s);
  }

  lemma DemandIsCost(s: Pool, cursor: real, horizon: real, burn: real)
    requires s != []
    ensures Demand(s, cursor, horizon, burn) == Cost(burn, Max(NextEvent(s, horizon) - cursor, 0.0))
  {
  }

  /** Running dry in an interval: the dry instant lies inside it, and what is missing is the cost since. */
  lemma DryInside(total: real, burn: real, cursor: real, end: real)
    requires burn > 0.0 && total >= 0.0 && Cost(burn, Max(end - cursor, 0.0)) > total
    ensures cursor <= DryAt(total, burn, cursor) < end
    ensures Cost(burn, Max(end - cursor, 0.0)) - total == Cost(burn, end - DryAt(total, burn, cursor)) > 0.0
  {
    hide DryAt, Cost;
    var at := DryAt(total, burn, cursor);
    DryInstant(total, burn, cursor);
    DryDebt(total, burn, cursor, end);
    CostOrder(burn, burn, 0.0, at - cursor);
    CostOrder(burn, burn, at - cursor, 0.0);
    CostOrder(burn, burn, 0.0, 0.0);
    CostOrder(burn, burn, end - cursor, at - cursor);
  }

  /** Where a run can run dry: inside this interval, or not before its end; and what it then reports. */
  lemma {:induction false} DepletionInstant(pol: Policy, n: nat, s: Pool, cursor: real, horizon: real, burn: real,
                                            minimum: real)
    requires Legal(pol) && Ready(s) && burn > 0.0 && s[0].resetAt >= cursor && minimum >= 0.0
    ensures var p := Run(pol, n, s, cursor, horizon, burn, minimum);
      && 0.0 <= p.minimum <= minimum
      && (p.depletedAt.None? ==> p.shortfall == 0.0)
      && (p.depletedAt.Some? ==>
            && p.minimum == 0.0 && p.shortfall == Cost(burn, p.end - p.depletedAt.value) > 0.0
            && cursor <= p.depletedAt.value < p.end <= horizon
            && (|| (Demand(s, cursor, horizon, burn) > Total(s) && p.depletedAt.value == DryAt(Total(s), burn, cursor))
                || (Demand(s, cursor, horizon, burn) <= Total(s) && p.depletedAt.value >= NextEvent(s, horizon))))
    decreases Pending(s, horizon)
  {
    hide Run, DryAt, Cost, Demand, Pending, Total, Ready, Refill, Legal, Draws;
    ReadyTotal(s);
    DemandIsCost(s, cursor, horizon, burn);
    Stops(pol, n, s, cursor, horizon, burn, minimum);
    if cursor < horizon {
      if Demand(s, cursor, horizon, burn) <= Total(s) {
        var d, r, low := Continues(pol, n, s, cursor, horizon, burn, minimum);
        if s[0].resetAt < horizon {
          DepletionInstant(pol, n + 1, r, s[0].resetAt, horizon, burn, low);
        }
      } else {
        DryInside(Total(s), burn, cursor, NextEvent(s, horizon));
      }
    }
  }
}
