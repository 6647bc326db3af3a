/**
 What the event simulation means in continuous time. `Level` is the reference: the pool's total at any
 instant, running into debt once it cannot pay. From then on no reset counts any more, as the simulation
 ends there: past the next event the level is the debt of a pool that is never refilled.
 */
module PoolMeaning {
  import opened Common
  import opened PoolModel
  import opened PoolRun

  ghost function Level(s: Pool, cursor: real, horizon: real, burn: real, t: real): real
    requires Ready(s) && burn > 0.0
    decreases Pending(s, horizon)
  {
    var amount := Demand(s, cursor, horizon, burn);
    if t <= s[0].resetAt || s[0].resetAt >= horizon || amount > Total(s) then
      Total(s) - Cost(burn, t - cursor)
    else
      GreedyIsLegal();
      AfterDraw(Greedy(), 0, s, amount, horizon);
      Level(Refill(Drain(s, amount)), s[0].resetAt, horizon, burn, t)
  }

  lemma LevelLater(n: nat, s: Pool, cursor: real, horizon: real, burn: real, t: real)
    requires Legal(Greedy()) && Ready(s) && burn > 0.0 && s[0].resetAt >= cursor
    requires cursor < horizon && t <= horizon
    ensures var amount := Demand(s, cursor, horizon, burn);
      && (t <= s[0].resetAt || amount > Total(s) ==>
            Level(s, cursor, horizon, burn, t) == Total(s) - Cost(burn, t - cursor))
      && (amount <= Total(s) ==>
            && amount >= 0.0
            && var r := Refill(Greedy()(n, s, amount));
               Ready(r) && (t > s[0].resetAt ==>
                 Level(s, cursor, horizon, burn, t) == Level(r, s[0].resetAt, horizon, burn, t)))
  {
    var amount := Demand(s, cursor, horizon, burn);
    if amount <= Total(s) {
      AfterDraw(Greedy(), n, s, amount, horizon);
    }
  }

  /** Running dry at the very start means there was nothing to begin with, even with tied resets. */
  lemma {:induction false} DryAtOnce(n: nat, s: Pool, cursor: real, horizon: real, burn: real, minimum: real)
    requires Legal(Greedy()) && Ready(s) && burn > 0.0 && s[0].resetAt >= cursor && minimum >= 0.0
    requires Run(Greedy(), n, s, cursor, horizon, burn, minimum).depletedAt == Some(cursor)
    ensures Total(s) == 0.0
    decreases Pending(s, horizon)
  {
    hide Run, DryAt, Cost, Total, Refill, Drain, Pending, Sorted;
    Stops(Greedy(), n, s, cursor, horizon, burn, minimum);
    CostOrder(burn, burn, 0.0, 0.0);
    DepletionInstant(Greedy(), n, s, cursor, horizon, burn, minimum);
    TotalNonNegative(s);
    if Demand(s, cursor, horizon, burn) <= Total(s) {
      var d, r, low := Continues(Greedy(), n, s, cursor, horizon, burn, minimum);
      DryAtOnce(n + 1, r, s[0].resetAt, horizon, burn, low);
    } else {
      DryInstant(Total(s), burn, cursor);
      CostOrder(burn, burn, 0.0, 0.0);
    }
  }

  /**
   The reported depletion instant is exactly where the level turns negative, and from there on the level
   is the debt run up since; without one it never falls below the reported minimum.
   */
  lemma {:induction false} RunMeansLevel(n: nat, s: Pool, cursor: real, horizon: real, burn: real, minimum: real,
                                         t: real)
    requires Legal(Greedy()) && Ready(s) && burn > 0.0 && s[0].resetAt >= cursor && minimum >= 0.0
    requires cursor <= t <= horizon && cursor < horizon
    ensures var p := Run(Greedy(), n, s, cursor, horizon, burn, minimum);
      var level := Level(s, cursor, horizon, burn, t);
      && (p.depletedAt.Some? ==> (t <= p.depletedAt.value <==> level >= 0.0))
      && (p.depletedAt.Some? && t >= p.depletedAt.value ==> level == -Cost(burn, t - p.depletedAt.value))
      && (p.depletedAt.None? ==> level >= p.minimum)
    decreases Pending(s, horizon)
  {
    hide Run, DryAt, Cost, Level, Refill, Drain, Pending, Total, Sorted, InBounds;
    var next := NextEvent(s, horizon);
    var amount := Demand(s, cursor, horizon, burn);
    var p := Run(Greedy(), n, s, cursor, horizon, burn, minimum);
    DepletionInstant(Greedy(), n, s, cursor, horizon, burn, minimum);
    LevelLater(n, s, cursor, horizon, burn, t);
    Stops(Greedy(), n, s, cursor, horizon, burn, minimum);
    if amount > Total(s) {
      var dry := DryAt(Total(s), burn, cursor);
      DryInstant(Total(s), burn, cursor);
      DryDebt(Total(s), burn, cursor, t);
      CostOrder(burn, burn, t - cursor, dry - cursor);
      CostOrder(burn, burn, dry - cursor, t - cursor);
    } else {
      var d, r, low := Continues(Greedy(), n, s, cursor, horizon, burn, minimum);
      if t <= next {
        CostOrder(burn, burn, t - cursor, next - cursor);
        CostOrder(burn, burn, 0.0, 0.0);
        if s[0].resetAt < horizon {
          DepletionInstant(Greedy(), n + 1, r, s[0].resetAt, horizon, burn, low);
          if p.depletedAt.Some? && t == p.depletedAt.value {
            DryAtOnce(n + 1, r, s[0].resetAt, horizon, burn, low);
          }
        }
      } else {
        RunMeansLevel(n + 1, r, s[0].resetAt, horizon, burn, low, t);
      }
    }
  }

  /** Without depletion the reported minimum is reached, unless it is the one the run came with. */
  lemma {:induction false} MinimumReached(n: nat, s: Pool, cursor: real, horizon: real, burn: real, minimum: real)
      returns (t: real)
    requires Legal(Greedy()) && Ready(s) && burn > 0.0 && s[0].resetAt >= cursor && minimum >= 0.0
    requires cursor < horizon
    ensures cursor <= t <= horizon
    ensures var p := Run(Greedy(), n, s, cursor, horizon, burn, minimum);
      p.depletedAt.None? ==> p.minimum == minimum || p.minimum == Level(s, cursor, horizon, burn, t)
    decreases Pending(s, horizon)
  {
    hide Run, DryAt, Cost, Level, Refill, Drain, Pending, Total, Sorted, InBounds;
    var next := NextEvent(s, horizon);
    t := next;
    LevelLater(n, s, cursor, horizon, burn, t);
    Stops(Greedy(), n, s, cursor, horizon, burn, minimum);
    if Demand(s, cursor, horizon, burn) <= Total(s) {
      var d, r, low := Continues(Greedy(), n, s, cursor, horizon, burn, minimum);
      if next < horizon {
        var p := Run(Greedy(), n + 1, r, next, horizon, burn, low);
        if p.depletedAt.None? && p.minimum != low {
          t := MinimumReached(n + 1, r, next, horizon, burn, low);
          // a level taken right at the refill would be no lower than the one just before it
          DepletionInstant(Greedy(), n + 1, r, next, horizon, burn, low);
          LevelLater(n + 1, r, next, horizon, burn, next);
          CostOrder(burn, burn, 0.0, 0.0);
          LevelLater(n, s, cursor, horizon, burn, t);
        }
      }
    }
  }
}
