/** Which account each strategy prefers, in terms of what the accounts' snapshots say. */
module Preference {
  import opened Common
  import opened Eligibility
  import opened Selection
  import opened SelectionOrder

  // ---------- what a snapshot says ----------

  /** Requests under way, by count or by weight, and open sockets. */
  function Load(s: Snapshot): real {
    ((if s.inFlight >= s.inFlightPressure then s.inFlight else s.inFlightPressure) + s.openWs) as real
  }

  /** Usage in percent, after holds that have ended and with the load on top. */
  function FiveHourNow(s: Snapshot, ctx: Ctx): real {
    Min(FiveHourUsage(s) + Load(s) * ctx.penalty, 100.0)
  }

  function WeeklyNow(s: Snapshot, ctx: Ctx): real {
    Min(WeeklyUsage(s) + Load(s) * ctx.penalty, 100.0)
  }

  function Selected(s: Snapshot): int {
    if s.lastSelectedAt.Some? then s.lastSelectedAt.value else 0
  }

  /** The weekly credits that are left. */
  function Credits(s: Snapshot, ctx: Ctx): real {
    Max(s.capacity * (1.0 - WeeklyNow(s, ctx) / 100.0), 0.0)
  }

  /** Two errors that still count, the last of them less than a minute ago. */
  predicate Faltering(s: Snapshot, now: int) {
    && s.errorCount == 2 && s.status != "rate_limited" && s.cooldownUntil.None?
    && s.lastErrorAt.Some? && now < s.lastErrorAt.value + 60
  }

  predicate Draining(s: Snapshot, ctx: Ctx) {
    FiveHourNow(s, ctx) >= 85.0 || WeeklyNow(s, ctx) >= 90.0 || Faltering(s, ctx.now)
  }

  /** Healthy, probing, draining, anything else. */
  function HealthClass(s: Snapshot, ctx: Ctx): real {
    match s.healthTier
    case 0 => if Draining(s, ctx) then 2.0 else 0.0
    case 2 => 1.0
    case 1 => 2.0
    case _ => 3.0
  }

  function PolicyClass(s: Snapshot): real {
    match s.policy
    case "burn_first" => 0.0
    case "normal" => 1.0
    case "preserve" => 2.0
    case _ => 3.0
  }

  function OverloadClass(s: Snapshot, ctx: Ctx): real {
    if s.overloadBackoffUntil.Some? && s.overloadBackoffUntil.value > ctx.now then 1.0 else 0.0
  }

  /** Alphabetical order of ids. */
  predicate IdBefore(a: string, b: string) {
    b != "" && (a == "" || a[0] < b[0] || (a[0] == b[0] && IdBefore(a[1..], b[1..])))
  }

  // ---------- the candidate is what the snapshot says ----------

  lemma CandidateSays(s: Snapshot, ctx: Ctx)
    ensures var c := CandidateOf(s, ctx.penalty);
      && c.snap == s
      && c.used == FiveHourNow(s, ctx) && c.secondaryUsed == WeeklyNow(s, ctx)
      && LastSelected(c) == Selected(s) as real
      && Remaining(c) == Credits(s, ctx)
      && (ShouldDrain(c, ctx.now) <==> Draining(s, ctx))
      && TierRank(ctx.now)(c) == HealthClass(s, ctx)
      && PolicyRank(c) == PolicyClass(s)
      && OverloadRank(ctx.now)(c) == OverloadClass(s, ctx)
  {
    assert Pressure(s, ctx.penalty) == Load(s) * ctx.penalty;
    hide Pressure, Load;
  }

  lemma {:induction false} IdOrder(a: string, b: string)
    ensures L.Less(L.Name(a), L.Name(b)) <==> IdBefore(a, b)
  {
    if a != "" && b != "" {
      assert L.Name(a)[1..] == L.Name(a[1..]) && L.Name(b)[1..] == L.Name(b[1..]);
      IdOrder(a[1..], b[1..]);
    }
  }

  /** An account can be used exactly if it may serve the request and no gate holds. */
  lemma UsableIff(s: Snapshot, ctx: Ctx)
    ensures Usable(s, ctx) <==>
      && (ctx.requireAuthorized ==> s.authorized)
      && !OutOfService(s) && !StillHeld(s, ctx.now) && !AtCeiling(s)
      && (s.cooldownUntil.Some? ==> ctx.now >= s.cooldownUntil.value)
      && !BackingOff(s, ctx.now)
  {
    EligibleIff(s, ctx.now, ctx.penalty);
    hide VerdictOf;
  }

  /** With nothing to pick, the account to wait for may serve the request and is the soonest that may. */
  lemma RecoveryIsSoonest(snaps: seq<Snapshot>, ctx: Ctx, s: Snapshot)
    requires s in snaps && (ctx.requireAuthorized ==> s.authorized)
    requires VerdictOf(s, ctx.now, ctx.penalty).InBackoff?
    ensures SoonestRecover(snaps, ctx).Some?
    ensures SoonestRecover(snaps, ctx).value.recoverAt <= VerdictOf(s, ctx.now, ctx.penalty).recoverAt
    ensures exists t ::
      t in snaps && t.id == SoonestRecover(snaps, ctx).value.id && (ctx.requireAuthorized ==> t.authorized)
  {
    hide VerdictOf, SoonestRecover;
    SoonestIsLeast(snaps, ctx);
    assert Considered(s, ctx);
  }

  // ---------- who is in the final pool ----------

  /** `t` is in a better class than `s`. */
  predicate ClassBefore(strategy: Strategy, t: Snapshot, s: Snapshot, ctx: Ctx) {
    if strategy.CacheAffinityTier? then PolicyClass(t) < PolicyClass(s)
    else if OverloadClass(t, ctx) != OverloadClass(s, ctx) then OverloadClass(t, ctx) < OverloadClass(s, ctx)
    else if HealthClass(t, ctx) != HealthClass(s, ctx) then HealthClass(t, ctx) < HealthClass(s, ctx)
    else PolicyClass(t) < PolicyClass(s)
  }

  function NoKey(c: Candidate): L.Key {
    []
  }

  function ClassKey(strategy: Strategy, ctx: Ctx): Ranking {
    if strategy.CacheAffinityTier? then Behind(PolicyRank, NoKey)
    else Behind(OverloadRank(ctx.now), Behind(TierRank(ctx.now), Behind(PolicyRank, NoKey)))
  }

  lemma Anyone(pool: seq<Candidate>, c: Candidate)
    ensures IsLeast(pool, NoKey, c) <==> c in pool
  {
  }

  lemma PoolIsLeastClass(strategy: Strategy, snaps: seq<Snapshot>, ctx: Ctx, c: Candidate)
    ensures c in FinalPool(strategy, snaps, ctx) <==>
      IsLeast(EligiblePool(snaps, ctx), ClassKey(strategy, ctx), c)
  {
    hide IsLeast, IsBestClass, DropOverloaded, HealthTierPool, PolicyWaterfall, EligiblePool, Behind;
    var pool := EligiblePool(snaps, ctx);
    var last := Behind(PolicyRank, NoKey);
    Anyone(FinalPool(strategy, snaps, ctx), c);
    if strategy.CacheAffinityTier? {
      PolicyIsBestClass(pool);
      FilterIsRank(pool, PolicyWaterfall(pool), PolicyRank, NoKey, c);
    } else {
      var a := DropOverloaded(pool, ctx.now);
      var b := HealthTierPool(a, ctx.now);
      DropIsBestClass(pool, ctx.now);
      TierIsBestClass(a, ctx.now);
      PolicyIsBestClass(b);
      FilterIsRank(b, PolicyWaterfall(b), PolicyRank, NoKey, c);
      FilterIsRank(a, b, TierRank(ctx.now), last, c);
      FilterIsRank(pool, a, OverloadRank(ctx.now), Behind(TierRank(ctx.now), last), c);
    }
  }

  lemma ClassOrder(strategy: Strategy, t: Snapshot, s: Snapshot, ctx: Ctx)
    ensures var key := ClassKey(strategy, ctx);
      L.Less(key(CandidateOf(t, ctx.penalty)), key(CandidateOf(s, ctx.penalty))) <==> ClassBefore(strategy, t, s, ctx)
  {
    var c, d := CandidateOf(t, ctx.penalty), CandidateOf(s, ctx.penalty);
    CandidateSays(t, ctx);
    CandidateSays(s, ctx);
    hide CandidateOf, TierRank, OverloadRank, PolicyRank, L.Less, HealthClass, PolicyClass, OverloadClass;
    var last := Behind(PolicyRank, NoKey);
    var middle := Behind(TierRank(ctx.now), last);
    L.Prefixed(PolicyRank(c), PolicyRank(d), [], []);
    L.Irreflexive([]);
    L.Prefixed(TierRank(ctx.now)(c), TierRank(ctx.now)(d), last(c), last(d));
    L.Prefixed(OverloadRank(ctx.now)(c), OverloadRank(ctx.now)(d), middle(c), middle(d));
  }

  /** An account is in the final pool exactly if it is usable and no usable account is in a better class. */
  lemma FinalPoolIff(strategy: Strategy, snaps: seq<Snapshot>, ctx: Ctx, s: Snapshot)
    requires s in snaps
    ensures CandidateOf(s, ctx.penalty) in FinalPool(strategy, snaps, ctx) <==>
      Usable(s, ctx) && forall t :: t in snaps && Usable(t, ctx) ==> !ClassBefore(strategy, t, s, ctx)
  {
    var c, pool := CandidateOf(s, ctx.penalty), EligiblePool(snaps, ctx);
    CandidateKeeps(s, ctx.penalty);
    PoolIsLeastClass(strategy, snaps, ctx, c);
    hide FinalPool, EligiblePool, ClassBefore, CandidateOf, Usable, ClassKey, L.Less;
    var key := ClassKey(strategy, ctx);
    assert c in pool <==> Usable(s, ctx);
    forall t ensures L.Less(key(CandidateOf(t, ctx.penalty)), key(c)) <==> ClassBefore(strategy, t, s, ctx) {
      ClassOrder(strategy, t, s, ctx);
    }
    if forall t :: t in snaps && Usable(t, ctx) ==> !ClassBefore(strategy, t, s, ctx) {
      forall d | d in pool ensures !L.Less(key(d), key(c)) {
        assert d == CandidateOf(d.snap, ctx.penalty);
      }
    }
    if forall d :: d in pool ==> !L.Less(key(d), key(c)) {
      forall t | t in snaps && Usable(t, ctx) ensures !ClassBefore(strategy, t, s, ctx) {
        assert CandidateOf(t, ctx.penalty) in pool;
      }
    }
  }

  // ---------- the deterministic strategies ----------

  predicate Deterministic(strategy: Strategy) {
    !strategy.CapacityWeighted? && !strategy.CacheAffinityTier?
  }

  /** `x` before `y` by some measure, ids breaking ties. */
  predicate ByMeasure(x: real, y: real, s: Snapshot, t: Snapshot) {
    x < y || (x == y && IdBefore(s.id, t.id))
  }

  /** The picked account against any other one of the final pool, under the strategy's ranking. */
  lemma PickedBeats(strategy: Strategy, snaps: seq<Snapshot>, ctx: Ctx, s: Snapshot, t: Snapshot)
    requires Ranked(strategy, ctx) && DistinctIds(snaps) && s in snaps && t in snaps && s != t
    requires Pick(strategy, snaps, ctx) == Some(s.id)
    requires CandidateOf(t, ctx.penalty) in FinalPool(strategy, snaps, ctx)
    ensures var key := FinalKey(strategy, ctx);
      L.Less(key(CandidateOf(s, ctx.penalty)), key(CandidateOf(t, ctx.penalty)))
    ensures CandidateOf(s, ctx.penalty) in FinalPool(strategy, snaps, ctx)
  {
    var c, d, key := CandidateOf(s, ctx.penalty), CandidateOf(t, ctx.penalty), FinalKey(strategy, ctx);
    CandidateKeeps(s, ctx.penalty);
    CandidateKeeps(t, ctx.penalty);
    FinalPoolSound(strategy, snaps, ctx);
    ChoiceIsLeastOfPool(strategy, snaps, ctx);
    var chosen := Choose(strategy, snaps, ctx).value;
    hide FinalPool, FinalKey, Choose, CandidateOf, Usable;
    SameId(snaps, chosen.snap, s);
    assert chosen == c;
    FinalKeyTellsApart(strategy, ctx);
    if key(c) == key(d) {
      SameId(snaps, s, t);
    }
    L.Total(key(c), key(d));
  }

  /**
   The pick of a deterministic strategy against any other account of the final pool: it has the least
   weekly usage, was selected least recently, is warmest, or is smallest; ids break ties.
   */
  lemma DeterministicPick(strategy: Strategy, snaps: seq<Snapshot>, ctx: Ctx, s: Snapshot, t: Snapshot)
    requires Deterministic(strategy) && DistinctIds(snaps) && s in snaps && t in snaps && s != t
    requires Pick(strategy, snaps, ctx) == Some(s.id)
    requires CandidateOf(t, ctx.penalty) in FinalPool(strategy, snaps, ctx)
    ensures strategy.UsageWeighted? ==> ByMeasure(WeeklyNow(s, ctx), WeeklyNow(t, ctx), s, t)
    ensures strategy.RoundRobin? ==> ByMeasure(Selected(s) as real, Selected(t) as real, s, t)
    ensures strategy.FillFirst? ==>
      ByMeasure(-Max(FiveHourNow(s, ctx), WeeklyNow(s, ctx)), -Max(FiveHourNow(t, ctx), WeeklyNow(t, ctx)), s, t)
    ensures strategy.SequentialDrain? ==> ByMeasure(s.capacity, t.capacity, s, t)
  {
    PickedBeats(strategy, snaps, ctx, s, t);
    CandidateSays(s, ctx);
    CandidateSays(t, ctx);
    var c, d := CandidateOf(s, ctx.penalty), CandidateOf(t, ctx.penalty);
    hide CandidateOf, Pick, FinalPool, L.Less, L.Name, IdBefore;
    IdOrder(s.id, t.id);
    L.Prefixed(WeeklyUsed(c), WeeklyUsed(d), Id(c), Id(d));
    L.Prefixed(LastSelected(c), LastSelected(d), Id(c), Id(d));
    L.Prefixed(Coldness(c), Coldness(d), Id(c), Id(d));
    L.Prefixed(Capacity(c), Capacity(d), Id(c), Id(d));
  }

  // ---------- the weighted strategies ----------

  /** The weight of an account: its credits, or what its tier of work makes of them. */
  function WeightOf(strategy: Strategy, s: Snapshot, ctx: Ctx): real {
    var credits := Credits(s, ctx);
    if !strategy.CacheAffinityTier? then credits
    else
      match ctx.tier
      case Some(High) =>
        (if WeeklyNow(s, ctx) < 70.0 then credits else credits / 20.0) / (if Draining(s, ctx) then 20.0 else 1.0)
      case Some(Low) => Max(s.capacity - credits, 0.0) + 100.0
      case _ => if Draining(s, ctx) then credits / 10.0 else credits
  }

  lemma WeightSays(strategy: Strategy, s: Snapshot, ctx: Ctx)
    ensures Weight(strategy, ctx)(CandidateOf(s, ctx.penalty)) == WeightOf(strategy, s, ctx) >= 0.0
  {
    CandidateSays(s, ctx);
    hide Remaining, Credits, CandidateOf, ShouldDrain, Draining, WeeklyNow;
    assert Credits(s, ctx) >= 0.0 by { CreditsLeft(s, ctx); }
  }

  lemma CreditsLeft(s: Snapshot, ctx: Ctx)
    ensures Credits(s, ctx) >= 0.0
  {
  }

  /** The weight that counts: what the operator makes of the account's own. */
  function Pull(strategy: Strategy, s: Snapshot, ctx: Ctx): real {
    WeightOf(strategy, s, ctx) * s.weightMultiplier
  }

  /** `v` is the weight by which `c` is drawn or costs. */
  predicate Weighs(weight: Candidate -> real, c: Candidate, v: real) {
    weight(c) * c.snap.weightMultiplier == v
  }

  /** Within the session, `s` costs less than `t`: its noise is less in proportion to its weight. */
  predicate Cheaper(strategy: Strategy, s: Snapshot, t: Snapshot, ctx: Ctx, session: string) {
    var v, w := Pull(strategy, s, ctx), Pull(strategy, t, ctx);
    if v == 0.0 then w == 0.0 && IdBefore(s.id, t.id)
    else w == 0.0 || ByMeasure(ctx.noise(session, s.id) / v, ctx.noise(session, t.id) / w, s, t)
  }

  /** Among accounts without weight: more credits, less used this week, then these five hours, less recently. */
  predicate Rather(s: Snapshot, t: Snapshot, ctx: Ctx) {
    if Credits(s, ctx) != Credits(t, ctx) then Credits(s, ctx) > Credits(t, ctx)
    else if WeeklyNow(s, ctx) != WeeklyNow(t, ctx) then WeeklyNow(s, ctx) < WeeklyNow(t, ctx)
    else if FiveHourNow(s, ctx) != FiveHourNow(t, ctx) then FiveHourNow(s, ctx) < FiveHourNow(t, ctx)
    else if Selected(s) != Selected(t) then Selected(s) < Selected(t)
    else IdBefore(s.id, t.id)
  }

  lemma TieBreakOrder(s: Snapshot, t: Snapshot, ctx: Ctx)
    ensures L.Less(TieBreak(CandidateOf(s, ctx.penalty)), TieBreak(CandidateOf(t, ctx.penalty))) <==> Rather(s, t, ctx)
  {
    var c, d := CandidateOf(s, ctx.penalty), CandidateOf(t, ctx.penalty);
    CandidateSays(s, ctx);
    CandidateSays(t, ctx);
    IdOrder(s.id, t.id);
    hide CandidateOf, L.Less, L.Name, IdBefore, Remaining, Credits, LastSelected, Selected, FiveHourNow, WeeklyNow;
    var c1, d1 := [LastSelected(c)] + Id(c), [LastSelected(d)] + Id(d);
    var c2, d2 := [c.used] + c1, [d.used] + d1;
    var c3, d3 := [c.secondaryUsed] + c2, [d.secondaryUsed] + d2;
    assert TieBreak(c) == [-Remaining(c)] + c3 && TieBreak(d) == [-Remaining(d)] + d3;
    L.Prefixed(LastSelected(c), LastSelected(d), Id(c), Id(d));
    L.Prefixed(c.used, d.used, c1, d1);
    L.Prefixed(c.secondaryUsed, d.secondaryUsed, c2, d2);
    L.Prefixed(-Remaining(c), -Remaining(d), c3, d3);
  }

  lemma CostIs(ctx: Ctx, session: string, weight: Candidate -> real, c: Candidate, v: real)
    requires Weighs(weight, c, v)
    ensures Cost(ctx, session, weight, c) == if v == 0.0 then [1.0, 0.0] else [0.0, ctx.noise(session, c.snap.id) / v]
  {
  }

  lemma CostOrder(strategy: Strategy, s: Snapshot, t: Snapshot, ctx: Ctx, session: string)
    ensures var c, d, weight := CandidateOf(s, ctx.penalty), CandidateOf(t, ctx.penalty), Weight(strategy, ctx);
      L.Less(Cost(ctx, session, weight, c) + Id(c), Cost(ctx, session, weight, d) + Id(d))
      <==> Cheaper(strategy, s, t, ctx, session)
  {
    var c, d, weight := CandidateOf(s, ctx.penalty), CandidateOf(t, ctx.penalty), Weight(strategy, ctx);
    WeightTimes(strategy, s, ctx);
    WeightTimes(strategy, t, ctx);
    IdOrder(s.id, t.id);
    hide CandidateOf, Weight, Pull, Weighs, Cost, L.Less, L.Name, IdBefore;
    CostIs(ctx, session, weight, c, Pull(strategy, s, ctx));
    CostIs(ctx, session, weight, d, Pull(strategy, t, ctx));
    var x, y := Cost(ctx, session, weight, c), Cost(ctx, session, weight, d);
    assert x + Id(c) == [x[0]] + ([x[1]] + Id(c)) && y + Id(d) == [y[0]] + ([y[1]] + Id(d));
    L.Prefixed(x[0], y[0], [x[1]] + Id(c), [y[1]] + Id(d));
    L.Prefixed(x[1], y[1], Id(c), Id(d));
  }

  /**
   Within a session, the pick of a weighted strategy against any other account of the final pool: it has
   weight and the other has none, it costs less, or neither has weight and it is the one to take rather.
   */
  lemma SessionPick(strategy: Strategy, snaps: seq<Snapshot>, ctx: Ctx, session: string, s: Snapshot, t: Snapshot)
    requires !Deterministic(strategy) && ctx.session == Some(session)
    requires DistinctIds(snaps) && s in snaps && t in snaps && s != t
    requires Pick(strategy, snaps, ctx) == Some(s.id)
    requires CandidateOf(t, ctx.penalty) in FinalPool(strategy, snaps, ctx)
    ensures
      if WeightOf(strategy, t, ctx) > 0.0 then
        WeightOf(strategy, s, ctx) > 0.0 && Cheaper(strategy, s, t, ctx, session)
      else
        WeightOf(strategy, s, ctx) > 0.0 || Rather(s, t, ctx)
  {
    PickedBeats(strategy, snaps, ctx, s, t);
    WeightSays(strategy, s, ctx);
    WeightSays(strategy, t, ctx);
    CostOrder(strategy, s, t, ctx, session);
    TieBreakOrder(s, t, ctx);
    hide CandidateOf, Pick, FinalPool, L.Less, Weight, WeightOf, Cost, TieBreak, Cheaper, Rather;
    var c, d, weight := CandidateOf(s, ctx.penalty), CandidateOf(t, ctx.penalty), Weight(strategy, ctx);
    var key := WeightKey(weight, session, ctx);
    L.Prefixed(WeightRank(weight)(c), WeightRank(weight)(d), key(c), key(d));
  }

  /** Without a session the draw is made by weight and multiplier, in the order of the final pool. */
  lemma DrawsByWeight(strategy: Strategy, snaps: seq<Snapshot>, ctx: Ctx, weights: seq<real>)
    requires !Ranked(strategy, ctx)
    requires var pool := FinalPool(strategy, snaps, ctx);
      && |weights| == |pool|
      && (forall k :: 0 <= k < |pool| ==>
            weights[k] == Pull(strategy, pool[k].snap, ctx))
      && (exists k :: 0 <= k < |pool| && weights[k] > 0.0)
      && ctx.sampler(weights) < |pool|
    ensures Choose(strategy, snaps, ctx) == Some(FinalPool(strategy, snaps, ctx)[ctx.sampler(weights)])
  {
    var pool, weight := FinalPool(strategy, snaps, ctx), Weight(strategy, ctx);
    FinalPoolSound(strategy, snaps, ctx);
    hide EligiblePool, PolicyWaterfall, StandardPool;
    ChooseSamples(strategy, snaps, ctx);
    hide FinalPool, Pull, Weighs, Weight, CandidateOf, Usable, Choose, Sample;
    forall k | 0 <= k < |pool| ensures Weighs(weight, pool[k], weights[k]) {
      assert pool[k] in pool;
      WeightTimes(strategy, pool[k].snap, ctx);
    }
    SampleDraws(pool, weight, ctx, weights);
  }

  lemma WeightTimes(strategy: Strategy, s: Snapshot, ctx: Ctx)
    ensures var c := CandidateOf(s, ctx.penalty);
      && c.snap == s
      && Weighs(Weight(strategy, ctx), c, Pull(strategy, s, ctx))
  {
    CandidateKeeps(s, ctx.penalty);
    WeightSays(strategy, s, ctx);
    hide CandidateOf, Weight, WeightOf;
  }

  lemma ChooseSamples(strategy: Strategy, snaps: seq<Snapshot>, ctx: Ctx)
    requires !Ranked(strategy, ctx)
    ensures Choose(strategy, snaps, ctx) == Sample(FinalPool(strategy, snaps, ctx), Weight(strategy, ctx), ctx)
  {
    hide StandardPool, PolicyWaterfall, EligiblePool, Sample, TierWeights;
  }

  lemma SampleDraws(pool: seq<Candidate>, weight: Candidate -> real, ctx: Ctx, weights: seq<real>)
    requires |weights| == |pool|
    requires forall k :: 0 <= k < |pool| ==> Weighs(weight, pool[k], weights[k])
    requires (exists k :: 0 <= k < |pool| && weights[k] > 0.0) && ctx.sampler(weights) < |pool|
    ensures Sample(pool, weight, ctx) == Some(pool[ctx.sampler(weights)])
  {
    forall k | 0 <= k < |pool| ensures Products(pool, weight)[k] == weights[k] {
      assert Weighs(weight, pool[k], weights[k]);
    }
    assert Products(pool, weight) == weights;
  }
}
