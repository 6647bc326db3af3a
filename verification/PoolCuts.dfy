/** Why the places where the simulation stops do not matter, and what they do matter for. */
module PoolCuts {
  import opened Common
  import opened PoolModel
  import opened PoolRun

  /** What a run reports. */
  datatype Report = Report(depletedAt: Option<real>, shortfall: real, minimum: real)

  /** The same drain, stopping also at every instant of `cuts` on its way. */
  ghost function RunCut(s: Pool, cursor: real, horizon: real, burn: real, minimum: real, cuts: seq<real>): Report
    requires Ready(s) && burn > 0.0
    decreases Pending(s, horizon), |cuts|
  {
    GreedyIsLegal();
    if cursor >= horizon then Report(None, 0.0, minimum)
    else if cuts != [] && cuts[0] <= cursor then
      RunCut(s, cursor, horizon, burn, minimum, cuts[1..])
    else
      var cut := cuts != [] && cuts[0] < NextEvent(s, horizon);
      var amount := if cut then Cost(burn, cuts[0] - cursor) else Demand(s, cursor, horizon, burn);
      if amount > Total(s) then Report(Some(DryAt(Total(s), burn, cursor)), amount - Total(s), 0.0)
      else
        AfterDraw(Greedy(), 0, s, amount, horizon);
        var d := Drain(s, amount);
        var low := Min(minimum, Total(d));
        if cut then RunCut(d, cuts[0], horizon, burn, low, cuts[1..])
        else if s[0].resetAt >= horizon then Report(None, 0.0, low)
        else RunCut(Refill(d), s[0].resetAt, horizon, burn, Min(low, Total(Refill(d))), cuts)
  }

  /** One stop at `c` inside an interval changes neither the depletion instant nor the minimum. */
  lemma CutOnce(n: nat, s: Pool, cursor: real, c: real, horizon: real, burn: real, minimum: real)
    requires Legal(Greedy()) && Ready(s) && burn > 0.0
    requires cursor <= c < NextEvent(s, horizon) && Cost(burn, c - cursor) <= Total(s)
    ensures var d := Drain(s, Cost(burn, c - cursor));
      && Ready(d) && d[0].resetAt == s[0].resetAt && Pending(d, horizon) == Pending(s, horizon)
      && var p, q := Run(Greedy(), n, s, cursor, horizon, burn, minimum),
                     Run(Greedy(), n, d, c, horizon, burn, Min(minimum, Total(d)));
         p.depletedAt == q.depletedAt && p.minimum == q.minimum && p.end == q.end
  {
    hide Run, DryAt, Cost, Refill, Drain, Pending, Total, Sorted, InBounds;
    var next := NextEvent(s, horizon);
    var a, b := Cost(burn, c - cursor), Cost(burn, next - c);
    CostOrder(burn, burn, c - cursor, next - c);
    CostOrder(burn, burn, 0.0, c - cursor);
    CostOrder(burn, burn, 0.0, next - c);
    AfterDraw(Greedy(), n, s, a, horizon);
    var d := Drain(s, a);
    assert Greedy()(n, s, a) == d;
    assert Demand(s, cursor, horizon, burn) == a + b && Demand(d, c, horizon, burn) == b;
    if a + b > Total(s) {
      CutDryInstant(Total(s), burn, cursor, c);
      Stops(Greedy(), n, s, cursor, horizon, burn, minimum);
      Stops(Greedy(), n, d, c, horizon, burn, Min(minimum, Total(d)));
    } else {
      DrainSplit(s, a, b);
      var d1, r1, low1 := Continues(Greedy(), n, s, cursor, horizon, burn, minimum);
      var d2, r2, low2 := Continues(Greedy(), n, d, c, horizon, burn, Min(minimum, Total(d)));
      assert d1 == d2 && low1 == low2;
    }
  }

  lemma CutDryInstant(total: real, burn: real, cursor: real, c: real)
    requires burn > 0.0
    ensures DryAt(total - Cost(burn, c - cursor), burn, c) == DryAt(total, burn, cursor)
  {
    var q := total / burn;
    assert q * burn == total;
    assert (q - (c - cursor)) * burn == total - burn * (c - cursor);
    Quotient(q - (c - cursor), burn, total - burn * (c - cursor));
  }

  /** The first stop after `at`: one of `cuts`, taken in their order, or the end of the interval. */
  function FirstStop(cuts: seq<real>, at: real, end: real): real {
    if cuts == [] then end
    else if cuts[0] > at then Min(cuts[0], end)
    else FirstStop(cuts[1..], at, end)
  }

  /** A run with cuts, one step at a time. */
  lemma CutSteps(s: Pool, cursor: real, horizon: real, burn: real, minimum: real, cuts: seq<real>)
    requires Legal(Greedy()) && Ready(s) && burn > 0.0
    ensures var r := RunCut(s, cursor, horizon, burn, minimum, cuts);
      && (cursor >= horizon ==> r == Report(None, 0.0, minimum))
      && (cursor < horizon && cuts != [] && cuts[0] <= cursor ==>
            r == RunCut(s, cursor, horizon, burn, minimum, cuts[1..]))
      && (cursor < horizon && cuts != [] && cursor < cuts[0] < NextEvent(s, horizon) ==>
            var amount := Cost(burn, cuts[0] - cursor);
            if amount > Total(s) then r == Report(Some(DryAt(Total(s), burn, cursor)), amount - Total(s), 0.0)
            else
              var d := Drain(s, amount);
              Ready(d) && r == RunCut(d, cuts[0], horizon, burn, Min(minimum, Total(d)), cuts[1..]))
      && (cursor < horizon && (cuts == [] || (cuts[0] > cursor && cuts[0] >= NextEvent(s, horizon))) ==>
            var amount := Demand(s, cursor, horizon, burn);
            if amount > Total(s) then r == Report(Some(DryAt(Total(s), burn, cursor)), amount - Total(s), 0.0)
            else
              var d := Drain(s, amount);
              if s[0].resetAt >= horizon then r == Report(None, 0.0, Min(minimum, Total(d)))
              else
                && d != [] && Ready(Refill(d))
                && r == RunCut(Refill(d), s[0].resetAt, horizon, burn,
                               Min(Min(minimum, Total(d)), Total(Refill(d))), cuts))
  {
    hide DryAt, Cost, Refill, Drain, Pending, Total, Sorted, InBounds;
    var next := NextEvent(s, horizon);
    CostOrder(burn, burn, 0.0, 0.0);
    if cuts != [] {
      CostOrder(burn, burn, 0.0, cuts[0] - cursor);
    }
    CostOrder(burn, burn, 0.0, Max(next - cursor, 0.0));
    var cut := cuts != [] && cuts[0] < next;
    var amount := if cut then Cost(burn, cuts[0] - cursor) else Demand(s, cursor, horizon, burn);
    if cursor < horizon && !(cuts != [] && cuts[0] <= cursor) && amount <= Total(s) {
      AfterDraw(Greedy(), 0, s, amount, horizon);
    }
  }

  /**
   However the intervals are cut, the projection reports the same depletion and the same minimum. The
   shortfall is what is missing at the first stop after the depletion.
   */
  lemma {:induction false} CutsDoNotMatter(n: nat, s: Pool, cursor: real, horizon: real, burn: real, minimum: real,
                                           cuts: seq<real>)
    requires Legal(Greedy()) && Ready(s) && burn > 0.0 && s[0].resetAt >= cursor && minimum >= 0.0
    ensures var p := Run(Greedy(), n, s, cursor, horizon, burn, minimum);
      RunCut(s, cursor, horizon, burn, minimum, cuts) ==
      match p.depletedAt
      case Some(at) => Report(Some(at), Cost(burn, FirstStop(cuts, at, p.end) - at), p.minimum)
      case None => Report(None, 0.0, p.minimum)
    decreases Pending(s, horizon), |cuts|
  {
    hide Run, RunCut, DryAt, Cost, Drain, Refill, Pending, Total, Sorted, InBounds;
    Stops(Greedy(), n, s, cursor, horizon, burn, minimum);
    DepletionInstant(Greedy(), n, s, cursor, horizon, burn, minimum);
    CutSteps(s, cursor, horizon, burn, minimum, cuts);
    if cursor < horizon {
      var next := NextEvent(s, horizon);
      if cuts != [] && cuts[0] <= cursor {
        CutsDoNotMatter(n, s, cursor, horizon, burn, minimum, cuts[1..]);
      } else if cuts != [] && cuts[0] < next {
        CutInside(n, s, cursor, horizon, burn, minimum, cuts);
        var amount := Cost(burn, cuts[0] - cursor);
        if amount <= Total(s) {
          var d := Drain(s, amount);
          ReadyTotal(d);
          CutsDoNotMatter(n, d, cuts[0], horizon, burn, Min(minimum, Total(d)), cuts[1..]);
        }
      } else if Demand(s, cursor, horizon, burn) <= Total(s) {
        var d, r, low := Continues(Greedy(), n, s, cursor, horizon, burn, minimum);
        if s[0].resetAt < horizon {
          CutsDoNotMatter(n + 1, r, s[0].resetAt, horizon, burn, low, cuts);
        }
      }
    }
  }

  /** The first cut falls inside the interval: the run dries up before it, or goes on from it. */
  lemma CutInside(n: nat, s: Pool, cursor: real, horizon: real, burn: real, minimum: real, cuts: seq<real>)
    requires Legal(Greedy()) && Ready(s) && burn > 0.0 && s[0].resetAt >= cursor && minimum >= 0.0
    requires cuts != [] && cursor < cuts[0] < NextEvent(s, horizon)
    ensures var p := Run(Greedy(), n, s, cursor, horizon, burn, minimum);
      var amount := Cost(burn, cuts[0] - cursor);
      if amount > Total(s) then
        && p.depletedAt == Some(DryAt(Total(s), burn, cursor)) && p.minimum == 0.0
        && amount - Total(s) == Cost(burn, FirstStop(cuts, p.depletedAt.value, p.end) - p.depletedAt.value)
      else
        var d := Drain(s, amount);
        && Ready(d) && d[0].resetAt == s[0].resetAt && Pending(d, horizon) == Pending(s, horizon)
        && var q := Run(Greedy(), n, d, cuts[0], horizon, burn, Min(minimum, Total(d)));
        && p.depletedAt == q.depletedAt && p.minimum == q.minimum && p.end == q.end
        && (q.depletedAt.Some? ==> q.depletedAt.value >= cuts[0])
  {
    hide Run, DryAt, Cost, Pending, Total, Sorted, InBounds, Drain;
    var next := NextEvent(s, horizon);
    var amount := Cost(burn, cuts[0] - cursor);
    if amount <= Total(s) {
      CutOnce(n, s, cursor, cuts[0], horizon, burn, minimum);
      var d := Drain(s, amount);
      ReadyTotal(d);
      DepletionInstant(Greedy(), n, d, cuts[0], horizon, burn, Min(minimum, Total(d)));
    } else {
      Stops(Greedy(), n, s, cursor, horizon, burn, minimum);
      CostOrder(burn, burn, cuts[0] - cursor, next - cursor);
      DryDebt(Total(s), burn, cursor, cuts[0]);
      var at := DryAt(Total(s), burn, cursor);
      CostOrder(burn, burn, cuts[0] - at, 0.0);
    }
  }

  predicate Ascending(cuts: seq<real>) {
    forall j, k :: 0 <= j < k < |cuts| ==> cuts[j] <= cuts[k]
  }

  lemma {:induction false} FirstStopIsEnd(cuts: seq<real>, at: real, end: real)
    requires Ascending(cuts) && at < end
    ensures at < FirstStop(cuts, at, end) <= end
    ensures FirstStop(cuts, at, end) == end <==> forall k :: 0 <= k < |cuts| ==> !(at < cuts[k] < end)
  {
    if cuts != [] && cuts[0] <= at {
      FirstStopIsEnd(cuts[1..], at, end);
      assert forall k :: 1 <= k < |cuts| ==> cuts[k] == cuts[1..][k - 1];
    }
  }

  /**
   The reported shortfall does depend on the cuts: cuts in ascending order leave it alone if and only if
   none falls between the depletion and the end of its interval; otherwise it comes out smaller.
   */
  lemma ShortfallIffNoCutAfterDepletion(n: nat, s: Pool, cursor: real, horizon: real, burn: real, minimum: real,
                                        cuts: seq<real>)
    requires Legal(Greedy()) && Ready(s) && burn > 0.0 && s[0].resetAt >= cursor && minimum >= 0.0 && Ascending(cuts)
    ensures var p := Run(Greedy(), n, s, cursor, horizon, burn, minimum);
      var q := RunCut(s, cursor, horizon, burn, minimum, cuts);
      && q.shortfall <= p.shortfall
      && (q.shortfall == p.shortfall <==>
            (p.depletedAt.Some? ==> forall k :: 0 <= k < |cuts| ==> !(p.depletedAt.value < cuts[k] < p.end)))
  {
    hide Run, RunCut, Cost, FirstStop;
    CutsDoNotMatter(n, s, cursor, horizon, burn, minimum, cuts);
    DepletionInstant(Greedy(), n, s, cursor, horizon, burn, minimum);
    var p := Run(Greedy(), n, s, cursor, horizon, burn, minimum);
    if p.depletedAt.Some? {
      var at := p.depletedAt.value;
      FirstStopIsEnd(cuts, at, p.end);
      var stop := FirstStop(cuts, at, p.end);
      CostOrder(burn, burn, stop - at, p.end - at);
      CostOrder(burn, burn, p.end - at, stop - at);
    }
  }
}
