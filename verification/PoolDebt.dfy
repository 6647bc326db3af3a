/** Conservation and comparison of the pool's level at every instant, debts included. */
module PoolDebt {
  import opened PoolModel
  import opened PoolRun
  import opened PoolOptimality
  import opened PoolMeaning

  /** What the refills before `t` added. */
  function Gained(refills: seq<Refilled>, t: real): real {
    if refills == [] then 0.0
    else (if refills[0].at < t then refills[0].gained else 0.0) + Gained(refills[1..], t)
  }

  /** No refill comes before `from`, and none takes anything away. */
  predicate RefilledFrom(refills: seq<Refilled>, from: real) {
    forall k :: 0 <= k < |refills| ==> refills[k].at >= from && refills[k].gained >= 0.0
  }

  lemma {:induction false} NothingGained(refills: seq<Refilled>, from: real, t: real)
    requires RefilledFrom(refills, from) && t <= from
    ensures Gained(refills, t) == 0.0
  {
    if refills != [] {
      NothingGained(refills[1..], from, t);
    }
  }

  lemma {:induction false} RefillsAreLater(n: nat, s: Pool, cursor: real, horizon: real, burn: real, minimum: real)
    requires Legal(Greedy()) && Ready(s) && burn > 0.0
    ensures RefilledFrom(Run(Greedy(), n, s, cursor, horizon, burn, minimum).refills, s[0].resetAt)
    decreases Pending(s, horizon)
  {
    hide Run, DryAt, Cost, Refill, Pending, Total, Sorted;
    Stops(Greedy(), n, s, cursor, horizon, burn, minimum);
    if cursor < horizon && Demand(s, cursor, horizon, burn) <= Total(s) {
      var d, r, low := Continues(Greedy(), n, s, cursor, horizon, burn, minimum);
      if s[0].resetAt < horizon {
        RefillsAreLater(n + 1, r, s[0].resetAt, horizon, burn, low);
      }
    }
  }

  lemma GainedAfter(p: Trace, d: Pool, r: Pool, t: real)
    requires d != []
    ensures Gained(p.After(d, r).refills, t) ==
      (if d[0].resetAt < t then d[0].full - d[0].balance else 0.0) + Gained(p.refills, t)
  {
    assert p.After(d, r).refills[1..] == p.refills;
  }

  /** Conservation: the level is what was there, and what refills added, less what was burnt. */
  lemma {:induction false} Conservation(n: nat, s: Pool, cursor: real, horizon: real, burn: real, minimum: real,
                                        t: real)
    requires Legal(Greedy()) && Ready(s) && burn > 0.0 && s[0].resetAt >= cursor
    requires cursor <= t <= horizon && cursor < horizon
    ensures var p := Run(Greedy(), n, s, cursor, horizon, burn, minimum);
      Level(s, cursor, horizon, burn, t) == Total(s) + Gained(p.refills, t) - Cost(burn, t - cursor)
    decreases Pending(s, horizon)
  {
    hide Run, DryAt, Cost, Level, Pending, Total, Sorted, InBounds, Insert;
    var p := Run(Greedy(), n, s, cursor, horizon, burn, minimum);
    LevelLater(n, s, cursor, horizon, burn, t);
    Stops(Greedy(), n, s, cursor, horizon, burn, minimum);
    RefillsAreLater(n, s, cursor, horizon, burn, minimum);
    if t <= s[0].resetAt {
      NothingGained(p.refills, s[0].resetAt, t);
    } else if Demand(s, cursor, horizon, burn) <= Total(s) {
      var d, r, low := Continues(Greedy(), n, s, cursor, horizon, burn, minimum);
      Conservation(n + 1, r, s[0].resetAt, horizon, burn, low, t);
      GainedAfter(Run(Greedy(), n + 1, r, s[0].resetAt, horizon, burn, low), d, r, t);
      CostOrder(burn, burn, s[0].resetAt - cursor, t - s[0].resetAt);
    }
  }

  /** The later of two runs that go into debt at different times owes no more, at no greater a burn. */
  lemma DebtSince(burnS: real, burnT: real, from: real, at: real, t: real)
    requires 0.0 < burnS <= burnT && from <= at <= t
    ensures Cost(burnS, t - at) <= Cost(burnT, t - from)
  {
    CostOrder(burnS, burnT, t - at, t - from);
    CostOrder(burnS, burnT, t - from, t - from);
  }

  /** The interval that only the dominating pool can pay. */
  lemma LeadOverDebt(s: Pool, t: Pool, cursor: real, horizon: real, burnS: real, burnT: real, x: real)
    requires Legal(Greedy()) && Ready(s) && Ready(t) && Dominates(s, t)
    requires 0.0 < burnS <= burnT && s[0].resetAt >= cursor && cursor <= x <= horizon && cursor < horizon
    requires Demand(t, cursor, horizon, burnT) > Total(t) && Demand(s, cursor, horizon, burnS) <= Total(s)
    requires x > s[0].resetAt
    ensures Level(s, cursor, horizon, burnS, x) >= Level(t, cursor, horizon, burnT, x)
  {
    hide Run, DryAt, Cost, Level, Pending, Total, Sorted, InBounds;
    assert s[0].(balance := 0.0) == t[0].(balance := 0.0);
    var next := s[0].resetAt;
    var p := Run(Greedy(), 0, s, cursor, horizon, burnS, 0.0);
    LevelLater(0, t, cursor, horizon, burnT, x);
    RunMeansLevel(0, s, cursor, horizon, burnS, 0.0, x);
    DepletionInstant(Greedy(), 0, s, cursor, horizon, burnS, 0.0);
    CostOrder(burnT, burnT, next - cursor, x - next);
    CostOrder(burnT, burnT, 0.0, x - next);
    if p.depletedAt.Some? && x > p.depletedAt.value {
      DebtSince(burnS, burnT, next, p.depletedAt.value, x);
    }
  }

  /** A pool that dominates, under no greater a burn, holds no less and owes no more at every instant. */
  lemma {:induction false} LevelLead(n: nat, s: Pool, t: Pool, cursor: real, horizon: real, burnS: real, burnT: real,
                                     x: real)
    requires Legal(Greedy()) && Ready(s) && Ready(t) && Dominates(s, t)
    requires 0.0 < burnS <= burnT && s[0].resetAt >= cursor && cursor <= x <= horizon && cursor < horizon
    ensures Level(s, cursor, horizon, burnS, x) >= Level(t, cursor, horizon, burnT, x)
    decreases Pending(s, horizon)
  {
    hide Run, DryAt, Cost, Level, Demand, Refill, Drain, Pending, Total, Sorted, InBounds;
    assert s[0].(balance := 0.0) == t[0].(balance := 0.0);
    LevelLater(n, s, cursor, horizon, burnS, x);
    LevelLater(n, t, cursor, horizon, burnT, x);
    DominatesAt(s, t);
    DemandLead(s, t, cursor, horizon, burnS, burnT);
    CostOrder(burnS, burnT, x - cursor, x - cursor);
    var a, b := Demand(s, cursor, horizon, burnS), Demand(t, cursor, horizon, burnT);
    if x > s[0].resetAt && b > Total(t) && a <= Total(s) {
      LeadOverDebt(s, t, cursor, horizon, burnS, burnT, x);
    } else if x > s[0].resetAt && b <= Total(t) {
      var e, v, lowT := Continues(Greedy(), n, t, cursor, horizon, burnT, 0.0);
      StepLead(s, t, Drain(s, a), e, a, b);
      var d, u, lowS := Continues(Greedy(), n, s, cursor, horizon, burnS, 0.0);
      LevelLead(n + 1, u, v, s[0].resetAt, horizon, burnS, burnT, x);
    }
  }
}
