/**
 Soonest-reset-first is the best way to share a burn: it never holds less than any other rule, and
 it outlasts every other rule. The same comparison gives the monotonicity of the projection.
 */
module PoolOptimality {
  import opened Common
  import opened PoolModel
  import opened PoolRun

  /** Same accounts, and behind every position `s` holds at least as much as `t`. */
  ghost predicate Dominates(s: Pool, t: Pool) {
    SameSchedule(s, t) && forall k: nat :: k <= |s| ==> Total(s[k..]) >= Total(t[k..])
  }

  lemma DominatesAt(s: Pool, t: Pool)
    requires Dominates(s, t)
    ensures Total(s) >= Total(t)
    ensures s != [] ==> Dominates(s[1..], t[1..])
  {
    assert s[0..] == s && t[0..] == t;
    if s != [] {
      forall k: nat | k <= |s[1..]| ensures Total(s[1..][k..]) >= Total(t[1..][k..]) {
        assert s[1..][k..] == s[k + 1..] && t[1..][k..] == t[k + 1..];
      }
    }
  }

  lemma DominatesCons(a: SimAccount, b: SimAccount, s: Pool, t: Pool)
    requires a.(balance := 0.0) == b.(balance := 0.0) && Dominates(s, t)
    requires a.balance + Total(s) >= b.balance + Total(t)
    ensures Dominates([a] + s, [b] + t)
  {
    hide Total;
    TotalConcat([a], s);
    TotalConcat([b], t);
    TotalSingle(a);
    TotalSingle(b);
    var u, v := [a] + s, [b] + t;
    assert u[0..] == u && v[0..] == v;
    forall k: nat | 0 < k <= |u| ensures Total(u[k..]) >= Total(v[k..]) {
      assert u[k..] == s[k - 1..] && v[k..] == t[k - 1..];
    }
    assert forall i :: 0 <= i < |u| ==> u[i].(balance := 0.0) == v[i].(balance := 0.0);
  }

  lemma TotalSingle(a: SimAccount)
    ensures Total([a]) == a.balance
  {
  }

  /** Greedy drain keeps its lead over any legal drain of at least as much. */
  lemma DrainKeepsLead(s: Pool, t: Pool, r: Pool, a: real, b: real)
    requires InBounds(s) && InBounds(t) && Dominates(s, t)
    requires 0.0 <= a <= b <= Total(t) && Draws(t, r, b)
    ensures a <= Total(s) && Dominates(Drain(s, a), r)
  {
    hide Total, Drain;
    DominatesAt(s, t);
    var d := Drain(s, a);
    forall i | 0 <= i < |d| ensures d[i].(balance := 0.0) == r[i].(balance := 0.0) {
      assert s[i].(balance := 0.0) == t[i].(balance := 0.0);
    }
    forall k: nat | k <= |d| ensures Total(d[k..]) >= Total(r[k..]) {
      DrainSuffix(s, a, k);
      LegalSuffix(t, r, b, k);
    }
  }

  /** No rule can leave more behind position `k` than was there, or than the pool has left. */
  lemma LegalSuffix(t: Pool, r: Pool, b: real, k: nat)
    requires Draws(t, r, b) && k <= |t|
    ensures Total(r[k..]) <= Min(Total(t[k..]), Total(t) - b)
  {
    TotalMonotone(r[k..], t[k..]);
    TotalSuffix(r, k);
  }

  lemma {:induction false} InsertKeepsLead(x: SimAccount, y: SimAccount, s: Pool, t: Pool)
    requires Dominates(s, t) && x.(balance := 0.0) == y.(balance := 0.0) && x.balance >= y.balance
    ensures Dominates(Insert(x, s), Insert(y, t))
  {
    DominatesAt(s, t);
    if s == [] {
      DominatesCons(x, y, s, t);
    } else {
      assert s[0].(balance := 0.0) == t[0].(balance := 0.0);
      if x.resetAt <= s[0].resetAt {
        DominatesCons(x, y, s, t);
      } else {
        InsertKeepsLead(x, y, s[1..], t[1..]);
        DominatesCons(s[0], t[0], Insert(x, s[1..]), Insert(y, t[1..]));
      }
    }
  }

  /** Holding at least as much account by account is a lead, once both stand in reset order. */
  lemma {:induction false} SortGivesLead(s: Pool, t: Pool)
    requires SameSchedule(s, t) && forall i :: 0 <= i < |s| ==> s[i].balance >= t[i].balance
    ensures Dominates(StableSort(s), StableSort(t))
  {
    if s != [] {
      assert s[0].(balance := 0.0) == t[0].(balance := 0.0);
      SortGivesLead(s[1..], t[1..]);
      InsertKeepsLead(s[0], t[0], StableSort(s[1..]), StableSort(t[1..]));
    }
  }

  lemma RefillKeepsLead(s: Pool, t: Pool)
    requires s != [] && Dominates(s, t)
    ensures Dominates(Refill(s), Refill(t))
  {
    assert s[0].(balance := 0.0) == t[0].(balance := 0.0);
    DominatesAt(s, t);
    InsertKeepsLead(Roll(s[0]), Roll(t[0]), s[1..], t[1..]);
  }

  /**
   `p` holds no less than `q` after every event, is depleted no earlier, has no lower a minimum, and
   owes no more unless it is depleted in a later interval.
   */
  ghost predicate NoWorse(p: Trace, q: Trace) {
    && (p.depletedAt.Some? ==> q.depletedAt.Some? && p.depletedAt.value >= q.depletedAt.value)
    && p.minimum >= q.minimum
    && (p.depletedAt.None? || p.end == q.end ==> p.shortfall <= q.shortfall)
    && |p.totals| >= |q.totals|
    && forall i :: 0 <= i < |q.totals| ==> p.totals[i] >= q.totals[i]
  }

  /** The interval in which the dominated pool runs dry: the greedy run is not dry before then. */
  lemma OtherDepletes(pol: Policy, n: nat, k: nat, s: Pool, t: Pool, cursor: real, horizon: real,
                      burnS: real, burnT: real, minS: real, minT: real)
    requires Legal(pol) && Legal(Greedy()) && Ready(s) && Ready(t) && Dominates(s, t)
    requires 0.0 < burnS <= burnT && minS >= 0.0 && s[0].resetAt >= cursor && cursor < horizon
    requires Demand(t, cursor, horizon, burnT) > Total(t)
    ensures NoWorse(Run(Greedy(), k, s, cursor, horizon, burnS, minS), Run(pol, n, t, cursor, horizon, burnT, minT))
  {
    hide Run, DryAt, Cost;
    assert s[0].(balance := 0.0) == t[0].(balance := 0.0);
    DominatesAt(s, t);
    TotalNonNegative(t);
    Stops(pol, n, t, cursor, horizon, burnT, minT);
    Stops(Greedy(), k, s, cursor, horizon, burnS, minS);
    DemandLead(s, t, cursor, horizon, burnS, burnT);
    DepletionInstant(Greedy(), k, s, cursor, horizon, burnS, minS);
    var x, y := DryAt(Total(s), burnS, cursor), DryAt(Total(t), burnT, cursor);
    DryInstant(Total(s), burnS, cursor);
    DryInstant(Total(t), burnT, cursor);
    CostOrder(burnS, burnT, y - cursor, x - cursor);
    CostOrder(burnT, burnT, 0.0, y - cursor);
    CostOrder(burnT, burnT, NextEvent(s, horizon) - cursor, y - cursor);
  }

  lemma DemandLead(s: Pool, t: Pool, cursor: real, horizon: real, burnS: real, burnT: real)
    requires SameSchedule(s, t) && s != [] && 0.0 < burnS <= burnT
    ensures 0.0 <= Demand(s, cursor, horizon, burnS) <= Demand(t, cursor, horizon, burnT)
  {
    assert s[0].(balance := 0.0) == t[0].(balance := 0.0);
    var span := Max(NextEvent(s, horizon) - cursor, 0.0);
    CostOrder(burnS, burnT, span, span);
  }

  /** One paid interval on both sides: the lead is kept. */
  lemma StepLead(s: Pool, t: Pool, d: Pool, e: Pool, a: real, b: real)
    requires Ready(s) && Ready(t) && Dominates(s, t)
    requires 0.0 <= a <= b <= Total(t) && d == Drain(s, a) && Draws(t, e, b)
    ensures a <= Total(s)
    ensures Dominates(d, e) && Dominates(Refill(d), Refill(e))
  {
    DrainKeepsLead(s, t, e, a, b);
    RefillKeepsLead(d, e);
  }

  lemma NoWorseAfter(p: Trace, q: Trace, d: Pool, u: Pool, e: Pool, v: Pool)
    requires NoWorse(p, q) && d != [] && e != [] && Total(d) >= Total(e) && Total(u) >= Total(v)
    ensures NoWorse(p.After(d, u), q.After(e, v))
  {
  }

  /**
   The run that drains soonest reset first, from a pool that dominates, under no greater a burn, is
   no worse than the run of any legal policy.
   */
  lemma {:induction false} GreedyNoWorse(pol: Policy, n: nat, k: nat, s: Pool, t: Pool, cursor: real, horizon: real,
                                         burnS: real, burnT: real, minS: real, minT: real)
    requires Legal(pol) && Legal(Greedy()) && Ready(s) && Ready(t) && Dominates(s, t)
    requires 0.0 < burnS <= burnT && minS >= minT && minS >= 0.0 && s[0].resetAt >= cursor
    ensures NoWorse(Run(Greedy(), k, s, cursor, horizon, burnS, minS), Run(pol, n, t, cursor, horizon, burnT, minT))
    decreases Pending(s, horizon)
  {
    hide Run, DryAt, Cost, Demand, Refill, Drain, Pending, Total, Sorted, InBounds;
    Stops(Greedy(), k, s, cursor, horizon, burnS, minS);
    Stops(pol, n, t, cursor, horizon, burnT, minT);
    if cursor < horizon && Demand(t, cursor, horizon, burnT) > Total(t) {
      OtherDepletes(pol, n, k, s, t, cursor, horizon, burnS, burnT, minS, minT);
    } else if cursor < horizon {
      var e, v, lowT := Continues(pol, n, t, cursor, horizon, burnT, minT);
      DemandLead(s, t, cursor, horizon, burnS, burnT);
      var a, b := Demand(s, cursor, horizon, burnS), Demand(t, cursor, horizon, burnT);
      StepLead(s, t, Drain(s, a), e, a, b);
      var d, u, lowS := Continues(Greedy(), k, s, cursor, horizon, burnS, minS);
      assert s[0].(balance := 0.0) == t[0].(balance := 0.0);
      DominatesAt(d, e);
      DominatesAt(u, v);
      if s[0].resetAt < horizon {
        GreedyNoWorse(pol, n + 1, k + 1, u, v, s[0].resetAt, horizon, burnS, burnT, lowS, lowT);
        NoWorseAfter(Run(Greedy(), k + 1, u, s[0].resetAt, horizon, burnS, lowS),
                     Run(pol, n + 1, v, s[0].resetAt, horizon, burnT, lowT), d, u, e, v);
      }
    }
  }
}
