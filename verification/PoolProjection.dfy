/** The projection of a whole pool: the imperative simulation, and what its report is good for. */
module PoolProjection {
  import opened Common
  import opened PoolModel
  import opened PoolDrain
  import opened PoolRun
  import opened PoolOptimality
  import opened PoolMeaning
  import opened PoolShortfall
  import opened PoolDebt

  const MS_PER_HOUR := 3600000.0

  datatype Projection = Projection(shortfall: real, depletionHours: Option<real>, minimum: real)

  /** What the caller hands over: balances within capacity, real windows, resets still to come. */
  predicate Given(accounts: Pool, now: real) {
    InBounds(accounts) && forall i :: 0 <= i < |accounts| ==> accounts[i].resetAt > now
  }

  function MaxWindow(accounts: Pool): (w: real)
    ensures forall i :: 0 <= i < |accounts| ==> accounts[i].window <= w
    ensures w >= 0.0
  {
    if accounts == [] then 0.0 else Max(accounts[0].window, MaxWindow(accounts[1..]))
  }

  function Horizon(accounts: Pool, now: real): real {
    now + MaxWindow(accounts) * 2.0
  }

  /** The horizon lies exactly two of the longest windows ahead. */
  lemma TwoWindowsAhead(accounts: Pool, now: real)
    requires InBounds(accounts) && accounts != []
    ensures exists i :: 0 <= i < |accounts| && Horizon(accounts, now) == now + accounts[i].window + accounts[i].window
    ensures forall i :: 0 <= i < |accounts| ==> Horizon(accounts, now) >= now + accounts[i].window + accounts[i].window
  {
    var i := Longest(accounts);
    assert Horizon(accounts, now) == now + accounts[i].window + accounts[i].window;
  }

  lemma Longest(accounts: Pool) returns (i: nat)
    requires InBounds(accounts) && accounts != []
    ensures i < |accounts| && accounts[i].window == MaxWindow(accounts)
  {
    if |accounts| == 1 || accounts[0].window >= MaxWindow(accounts[1..]) {
      i := 0;
    } else {
      var j := Longest(accounts[1..]);
      i := j + 1;
    }
  }

  function Rate(forecast: Option<real>): real {
    match forecast
    case Some(b) => Max(b, 0.0)
    case None => 0.0
  }

  lemma SortedReady(accounts: Pool, now: real)
    requires Given(accounts, now) && accounts != []
    ensures Ready(StableSort(accounts)) && StableSort(accounts)[0].resetAt > now
    ensures Legal(Greedy()) && Horizon(accounts, now) > now && Total(accounts) >= 0.0
  {
    var s := StableSort(accounts);
    SortSorted(accounts);
    InBoundsFromMultiset(accounts, s);
    assert s[0] in multiset(s);
    GreedyIsLegal();
    TotalNonNegative(accounts);
    assert accounts[0].window > 0.0;
  }

  /** The simulation of a non-empty pool under a positive burn. */
  ghost function Simulate(pol: Policy, accounts: Pool, now: real, rate: real): Trace
    requires Legal(pol) && Given(accounts, now) && accounts != [] && rate > 0.0
  {
    SortedReady(accounts, now);
    Run(pol, 0, StableSort(accounts), now, Horizon(accounts, now), rate / MS_PER_HOUR, Total(accounts))
  }

  ghost function Project(accounts: Pool, now: real, forecast: Option<real>): Projection
    requires Given(accounts, now)
  {
    if Rate(forecast) <= 0.0 || accounts == [] then Projection(0.0, None, Total(accounts))
    else
      GreedyIsLegal();
      var p := Simulate(Greedy(), accounts, now, Rate(forecast));
      var hours := match p.depletedAt
        case Some(t) => Some((t - now) / MS_PER_HOUR)
        case None => None;
      Projection(p.shortfall, hours, p.minimum)
  }

  // ---------- the imperative simulation ----------

  method SortByReset(sim: array<SimAccount>)
    modifies sim
    ensures sim[..] == StableSort(old(sim[..]))
  {
    var sorted := StableSort(sim[..]);
    forall i | 0 <= i < sim.Length {
      sim[i] := sorted[i];
    }
  }

  /** What is still to come of a run does not depend on where in it we stand. */
  ghost predicate SameReport(p: Trace, q: Trace) {
    p.depletedAt == q.depletedAt && p.shortfall == q.shortfall && p.minimum == q.minimum
  }

  lemma DrainedAs(s: Pool, r: Pool, amount: real)
    requires Ready(s) && SoonestFirst(s, r, amount)
    ensures r == Drain(s, amount)
  {
    DrainIsSoonestFirst(s, amount);
    SoonestFirstUnique(s, r, Drain(s, amount), amount);
  }

  lemma RolledHead(d: Pool)
    requires Ready(d)
    ensures StableSort(d[0 := Roll(d[0])]) == Refill(d)
  {
    assert d[0 := Roll(d[0])][1..] == d[1..];
    SortOfSorted(d[1..]);
  }

  /** One paid interval of the imperative loop, read as one step of the run. */
  lemma PaidInterval(n: nat, s: Pool, drained: Pool, cursor: real, horizon: real, burn: real, minimum: real)
    requires Legal(Greedy()) && Ready(s) && burn > 0.0 && cursor < horizon
    requires Demand(s, cursor, horizon, burn) <= Total(s)
    requires SoonestFirst(s, drained, Demand(s, cursor, horizon, burn))
    ensures |drained| == |s| && drained[0].resetAt == s[0].resetAt
    ensures var p := Run(Greedy(), n, s, cursor, horizon, burn, minimum);
      var low := Min(minimum, Total(drained));
      var rolled := drained[0 := Roll(drained[0])];
      && (s[0].resetAt >= horizon ==> SameReport(p, Survived([], horizon, low)))
      && (s[0].resetAt < horizon ==>
            && Ready(StableSort(rolled)) && StableSort(rolled)[0].resetAt >= s[0].resetAt
            && Pending(StableSort(rolled), horizon) < Pending(s, horizon)
            && SameReport(p, Run(Greedy(), n + 1, StableSort(rolled), s[0].resetAt, horizon, burn,
                                 Min(low, Total(rolled)))))
  {
    hide Run, Drain, Pending, Insert, StableSort, Total, Demand, Refill, Sorted, InBounds, SoonestFirst;
    var d, r, low := Continues(Greedy(), n, s, cursor, horizon, burn, minimum);
    DrainedAs(s, drained, Demand(s, cursor, horizon, burn));
    RolledHead(d);
    TotalRolled(d);
  }

  method RefillFirst(sim: array<SimAccount>)
    requires sim.Length > 0
    modifies sim
    ensures sim[..] == old(sim[..])[0 := Roll(old(sim[0]))]
  {
    sim[0] := sim[0].(balance := sim[0].full);
    sim[0] := sim[0].(resetAt := sim[0].resetAt + sim[0].window);
  }

  method ProjectWeeklyPool(accounts: Pool, now: real, forecast: Option<real>) returns (projection: Projection)
    requires Given(accounts, now)
    ensures projection == Project(accounts, now, forecast)
  {
    hide Run, Pending, StableSort, Total, Demand, DryAt, Sorted, InBounds, SoonestFirst, MaxWindow, Legal, Roll;
    var totalRemaining := Total(accounts);
    if forecast.None? || forecast.value <= 0.0 {
      return Projection(0.0, None, totalRemaining);
    }
    var burn := forecast.value / MS_PER_HOUR;
    var sim := new SimAccount[|accounts|](i requires 0 <= i < |accounts| => accounts[i]);
    assert sim[..] == accounts;
    var horizon := Horizon(accounts, now);
    var cursor := now;
    var minimum := totalRemaining;
    ghost var n: nat := 0;
    ghost var whole := Survived([], horizon, minimum);
    if accounts == [] {
      EmptyHorizon(accounts, now);
    } else {
      SortedReady(accounts, now);
      whole := Simulate(Greedy(), accounts, now, forecast.value);
    }
    while cursor < horizon
      invariant sim.Length == |accounts|
      invariant cursor < horizon <==> accounts != []
      invariant accounts != [] ==>
        && Legal(Greedy()) && Ready(StableSort(sim[..])) && StableSort(sim[..])[0].resetAt >= cursor
        && SameReport(whole, Run(Greedy(), n, StableSort(sim[..]), cursor, horizon, burn, minimum))
      invariant accounts == [] ==> minimum == totalRemaining
      decreases if accounts == [] then 0 else Pending(StableSort(sim[..]), horizon)
    {
      SortByReset(sim);
      ghost var s := sim[..];
      var nextEvent := Min(sim[0].resetAt, horizon);
      var intervalBurn := burn * Max(nextEvent - cursor, 0.0);
      var bal := Total(sim[..]);
      DemandIs(s, cursor, horizon, burn);
      Stops(Greedy(), n, s, cursor, horizon, burn, minimum);
      if intervalBurn > bal {
        DryAtIs(bal, burn, cursor);
        return Projection(intervalBurn - bal, Some((cursor - now + bal / burn) / MS_PER_HOUR), 0.0);
      }
      NoNegative(s);
      ConsumeBalance(sim, intervalBurn);
      PaidInterval(n, s, sim[..], cursor, horizon, burn, minimum);
      minimum := Min(minimum, Total(sim[..]));
      cursor := nextEvent;
      if cursor >= horizon {
        break;
      }
      RefillFirst(sim);
      minimum := Min(minimum, Total(sim[..]));
      n := n + 1;
    }
    return Projection(0.0, None, minimum);
  }

  lemma NoNegative(s: Pool)
    requires InBounds(s)
    ensures forall i :: 0 <= i < |s| ==> s[i].balance >= 0.0
  {
  }

  lemma EmptyHorizon(accounts: Pool, now: real)
    requires accounts == []
    ensures Horizon(accounts, now) == now
  {
  }

  lemma DemandIs(s: Pool, cursor: real, horizon: real, burn: real)
    requires s != []
    ensures Demand(s, cursor, horizon, burn) == burn * Max(Min(s[0].resetAt, horizon) - cursor, 0.0)
  {
  }

  lemma DryAtIs(total: real, burn: real, cursor: real)
    requires burn > 0.0
    ensures DryAt(total, burn, cursor) == cursor + total / burn
  {
  }

  lemma TotalRolled(d: Pool)
    requires d != []
    ensures Total(d[0 := Roll(d[0])]) == Total(Refill(d))
  {
    TotalUpdate(d, 0, Roll(d[0]));
  }

  // ---------- what the report is good for ----------

  /**
   Optimality: no legal way of sharing the burn, however it looks ahead or back, holds more at any
   event, has a larger minimum, or survives longer than the simulation.
   */
  lemma GreedyIsOptimal(pol: Policy, accounts: Pool, now: real, rate: real)
    requires Legal(pol) && Given(accounts, now) && accounts != [] && rate > 0.0
    ensures Legal(Greedy())
    ensures NoWorse(Simulate(Greedy(), accounts, now, rate), Simulate(pol, accounts, now, rate))
  {
    SortedReady(accounts, now);
    SortGivesLead(accounts, accounts);
    var s, burn := StableSort(accounts), rate / MS_PER_HOUR;
    GreedyNoWorse(pol, 0, 0, s, s, now, Horizon(accounts, now), burn, burn, Total(accounts), Total(accounts));
  }

  function At(now: real, hours: real): real {
    now + hours * MS_PER_HOUR
  }

  /**
   `p` reports no smaller minimum than `q` and no earlier depletion; and no larger shortfall, unless an
   account resets between the two depletions.
   */
  ghost predicate NoWorseReport(accounts: Pool, now: real, p: Projection, q: Projection) {
    && p.minimum >= q.minimum
    && (p.depletionHours.Some? ==> q.depletionHours.Some? && p.depletionHours.value >= q.depletionHours.value)
    && ((p.depletionHours.Some? ==>
           NoResetBetween(accounts, At(now, q.depletionHours.value), At(now, p.depletionHours.value)))
         ==> p.shortfall <= q.shortfall)
  }

  lemma ProjectionBounds(accounts: Pool, now: real, forecast: Option<real>)
    requires Given(accounts, now)
    ensures var p := Project(accounts, now, forecast);
      && 0.0 <= p.minimum <= Total(accounts)
      && (forecast.None? || forecast.value <= 0.0 || accounts == [] ==> p.minimum == Total(accounts))
      && (p.depletionHours.Some? ==> p.depletionHours.value >= 0.0 && p.minimum == 0.0)
      && p.shortfall >= 0.0 && (p.depletionHours.Some? <==> p.shortfall > 0.0)
  {
    TotalNonNegative(accounts);
    if Rate(forecast) > 0.0 && accounts != [] {
      SortedReady(accounts, now);
      var s, burn := StableSort(accounts), Rate(forecast) / MS_PER_HOUR;
      DepletionInstant(Greedy(), 0, s, now, Horizon(accounts, now), burn, Total(accounts));
    }
  }

  /** The run behind a report, and the next event after its depletion. */
  lemma Underneath(accounts: Pool, now: real, rate: real)
    requires Given(accounts, now) && accounts != [] && rate > 0.0
    ensures Legal(Greedy())
    ensures var p, f := Simulate(Greedy(), accounts, now, rate), Project(accounts, now, Some(rate));
      && p.shortfall == f.shortfall && p.minimum == f.minimum
      && match f.depletionHours
         case None => p.depletedAt.None? && f.shortfall == 0.0
         case Some(hours) =>
           && p.depletedAt == Some(At(now, hours))
           && IsNextEvent(accounts, Horizon(accounts, now), At(now, hours), p.end)
           && f.shortfall == Cost(rate / MS_PER_HOUR, p.end - (At(now, hours))) > 0.0
  {
    hide Run, Total, StableSort, Sorted, MaxWindow, InBounds, Cost, IsBoundary;
    SortedReady(accounts, now);
    var s, horizon, burn := StableSort(accounts), Horizon(accounts, now), rate / MS_PER_HOUR;
    DepletionInstant(Greedy(), 0, s, now, horizon, burn, Total(accounts));
    EndsWithNextEvent(Greedy(), 0, s, now, horizon, burn, Total(accounts));
    forall t ensures IsBoundary(s, t) <==> IsBoundary(accounts, t) {
      SameBoundaries(s, accounts, t);
      SameBoundaries(accounts, s, t);
    }
  }

  /**
   Monotonicity: with a faster burn, or less in any account, the minimum is no larger and depletion comes
   no later; and no less is missing, as long as no reset separates the two depletions.
   */
  lemma ProjectionMonotone(rich: Pool, poor: Pool, now: real, slow: Option<real>, fast: Option<real>)
    requires Given(rich, now) && Given(poor, now) && SameSchedule(rich, poor)
    requires forall i :: 0 <= i < |rich| ==> rich[i].balance >= poor[i].balance
    requires Rate(slow) <= Rate(fast)
    ensures NoWorseReport(rich, now, Project(rich, now, slow), Project(poor, now, fast))
  {
    hide Run, Total, StableSort, Sorted, MaxWindow, InBounds, Dominates, IsBoundary;
    TotalMonotone(poor, rich);
    ProjectionBounds(poor, now, fast);
    if rich != [] && Rate(slow) > 0.0 {
      SortedReady(rich, now);
      SortedReady(poor, now);
      SameMaxWindow(rich, poor);
      SortGivesLead(rich, poor);
      GreedyNoWorse(Greedy(), 0, 0, StableSort(rich), StableSort(poor), now, Horizon(rich, now),
                    Rate(slow) / MS_PER_HOUR, Rate(fast) / MS_PER_HOUR, Total(rich), Total(poor));
      Underneath(rich, now, Rate(slow));
      Underneath(poor, now, Rate(fast));
      var p, q := Project(rich, now, slow), Project(poor, now, fast);
      if && p.depletionHours.Some?
         && NoResetBetween(rich, At(now, q.depletionHours.value), At(now, p.depletionHours.value)) {
        forall t ensures IsBoundary(rich, t) <==> IsBoundary(poor, t) {
          SameBoundaries(rich, poor, t);
          DrawnBoundaries(rich, poor, t);
        }
        SameNextEvent(rich, Horizon(rich, now), At(now, q.depletionHours.value), At(now, p.depletionHours.value),
                      Simulate(Greedy(), poor, now, Rate(fast)).end, Simulate(Greedy(), rich, now, Rate(slow)).end);
      }
    }
  }

  lemma SameMaxWindow(s: Pool, t: Pool)
    requires SameSchedule(s, t)
    ensures MaxWindow(s) == MaxWindow(t)
  {
    if s != [] {
      assert s[0].(balance := 0.0) == t[0].(balance := 0.0);
      SameMaxWindow(s[1..], t[1..]);
    }
  }

  /** The pool's total at an instant of the horizon, in continuous time. */
  ghost function LevelAt(accounts: Pool, now: real, rate: real, t: real): real
    requires Given(accounts, now) && accounts != [] && rate > 0.0
  {
    SortedReady(accounts, now);
    Level(StableSort(accounts), now, Horizon(accounts, now), rate / MS_PER_HOUR, t)
  }

  /**
   The report against the continuous pool: depletion is reported exactly when the level goes into
   debt somewhere in the horizon, at the last instant before it does; the shortfall is the debt run up
   by the next event, a reset or the horizon. Otherwise nothing is missing, the minimum is the least
   level, and some instant has it.
   */
  lemma ReportMeansLevel(accounts: Pool, now: real, rate: real)
    requires Given(accounts, now) && accounts != [] && rate > 0.0
    ensures var p := Project(accounts, now, Some(rate));
      var horizon := Horizon(accounts, now);
      match p.depletionHours
      case Some(hours) =>
        && now <= At(now, hours) < horizon
        && (forall t :: now <= t <= horizon ==> (t <= At(now, hours) <==> LevelAt(accounts, now, rate, t) >= 0.0))
        && (forall t :: At(now, hours) <= t <= horizon ==>
              LevelAt(accounts, now, rate, t) == -Cost(rate / MS_PER_HOUR, t - At(now, hours)))
        && p.minimum == 0.0
        && exists end ::
             && IsNextEvent(accounts, horizon, At(now, hours), end)
             && p.shortfall == -LevelAt(accounts, now, rate, end)
      case None =>
        && (forall t :: now <= t <= horizon ==> LevelAt(accounts, now, rate, t) >= p.minimum)
        && (exists t :: now <= t <= horizon && LevelAt(accounts, now, rate, t) == p.minimum)
        && p.shortfall == 0.0
  {
    hide Run, Level, Total, StableSort, Sorted, MaxWindow, InBounds, Cost, IsNextEvent;
    SortedReady(accounts, now);
    var s, horizon, burn, total := StableSort(accounts), Horizon(accounts, now), rate / MS_PER_HOUR, Total(accounts);
    Underneath(accounts, now, rate);
    forall t | now <= t <= horizon
      ensures var p := Run(Greedy(), 0, s, now, horizon, burn, total);
        var level := LevelAt(accounts, now, rate, t);
        && (p.depletedAt.Some? ==> (t <= p.depletedAt.value <==> level >= 0.0))
        && (p.depletedAt.Some? && t >= p.depletedAt.value ==> level == -Cost(burn, t - p.depletedAt.value))
        && (p.depletedAt.None? ==> level >= p.minimum)
    {
      RunMeansLevel(0, s, now, horizon, burn, total, t);
    }
    DepletionInstant(Greedy(), 0, s, now, horizon, burn, total);
    var t := MinimumReached(0, s, now, horizon, burn, total);
    LevelLater(0, s, now, horizon, burn, now);
    CostOrder(burn, burn, 0.0, 0.0);
    assert LevelAt(accounts, now, rate, now) == total;
    assert LevelAt(accounts, now, rate, t) == Level(s, now, horizon, burn, t);
  }

  /** Conservation, over the whole horizon: what was there, and what the resets added, less what was burnt. */
  lemma LevelIsConserved(accounts: Pool, now: real, rate: real, t: real)
    requires Given(accounts, now) && accounts != [] && rate > 0.0
    requires now <= t <= Horizon(accounts, now)
    ensures Legal(Greedy())
    ensures LevelAt(accounts, now, rate, t) ==
      Total(accounts) + Gained(Simulate(Greedy(), accounts, now, rate).refills, t) - Cost(rate / MS_PER_HOUR, t - now)
  {
    SortedReady(accounts, now);
    Conservation(0, StableSort(accounts), now, Horizon(accounts, now), rate / MS_PER_HOUR, Total(accounts), t);
  }

  /** At every instant, debts included, a slower burn of no less leaves no less. */
  lemma LevelMonotone(rich: Pool, poor: Pool, now: real, slow: real, fast: real, t: real)
    requires Given(rich, now) && Given(poor, now) && SameSchedule(rich, poor) && rich != [] && 0.0 < slow <= fast
    requires forall i :: 0 <= i < |rich| ==> rich[i].balance >= poor[i].balance
    requires now <= t <= Horizon(rich, now)
    ensures LevelAt(rich, now, slow, t) >= LevelAt(poor, now, fast, t)
  {
    hide Level, Total, StableSort, Sorted, MaxWindow, InBounds, Dominates;
    SortedReady(rich, now);
    SortedReady(poor, now);
    SameMaxWindow(rich, poor);
    SortGivesLead(rich, poor);
    LevelLead(0, StableSort(rich), StableSort(poor), now, Horizon(rich, now),
              slow / MS_PER_HOUR, fast / MS_PER_HOUR, t);
  }
}
