/**
 The choice as one ranking: for the deterministic strategies, and for the weighted ones within a
 session, the whole pipeline of filters picks the least account of a single total order.
 */
module SelectionOrder {
  import opened Common
  import opened Eligibility
  import opened Selection

  type Ranking = Candidate -> L.Key

  ghost predicate IsLeast(pool: seq<Candidate>, key: Ranking, c: Candidate) {
    c in pool && forall d :: d in pool ==> !L.Less(key(d), key(c))
  }

  /** `kept` are those of `pool` whose rank no other undercuts. */
  ghost predicate IsBestClass(pool: seq<Candidate>, kept: seq<Candidate>, rank: Candidate -> real) {
    forall c :: c in kept <==> c in pool && forall d :: d in pool ==> rank(c) <= rank(d)
  }

  function Behind(rank: Candidate -> real, key: Ranking): Ranking {
    (c: Candidate) => [rank(c)] + key(c)
  }

  /** Filtering to the best class and ranking what is left is ranking by class first. */
  lemma FilterIsRank(pool: seq<Candidate>, kept: seq<Candidate>, rank: Candidate -> real, key: Ranking, c: Candidate)
    requires IsBestClass(pool, kept, rank)
    ensures IsLeast(kept, key, c) <==> IsLeast(pool, Behind(rank, key), c)
  {
    forall d, e ensures L.Less(Behind(rank, key)(d), Behind(rank, key)(e))
      <==> rank(d) < rank(e) || (rank(d) == rank(e) && L.Less(key(d), key(e)))
    {
      L.Prefixed(rank(d), rank(e), key(d), key(e));
    }
  }

  lemma {:induction false} LeastByIsLeast(pool: seq<Candidate>, key: Ranking)
    requires pool != []
    ensures IsLeast(pool, key, LeastBy(pool, key))
    decreases |pool|
  {
    L.Irreflexive(key(pool[0]));
    if |pool| > 1 {
      LeastByIsLeast(pool[1..], key);
      var rest, c := LeastBy(pool[1..], key), LeastBy(pool, key);
      forall d | d in pool ensures !L.Less(key(d), key(c)) {
        if d in pool[1..] && L.Less(key(d), key(c)) {
          L.Total(key(rest), key(pool[0]));
          NotThrough(key(d), key(pool[0]), key(rest));
        } else if d == pool[0] && L.Less(key(d), key(c)) {
          NotThrough(key(d), key(rest), key(d));
          L.Irreflexive(key(d));
        }
      }
    }
  }

  lemma NotThrough(a: L.Key, b: L.Key, c: L.Key)
    ensures L.Less(a, b) && L.Less(b, c) ==> L.Less(a, c)
    ensures L.Less(a, b) && b == c ==> L.Less(a, c)
  {
    if L.Less(a, b) && L.Less(b, c) {
      L.Transitive(a, b, c);
    }
  }

  // ---------- the classes that the filters distinguish ----------

  function OverloadRank(now: int): Candidate -> real {
    (c: Candidate) => if Overloaded(c.snap, now) then 1.0 else 0.0
  }

  function TierRank(now: int): Candidate -> real {
    (c: Candidate) =>
      if EffectiveTier(c, now) == 0 then 0.0
      else if EffectiveTier(c, now) == 2 then 1.0
      else if EffectiveTier(c, now) == 1 then 2.0
      else 3.0
  }

  function PolicyRank(c: Candidate): real {
    if c.snap.policy == "burn_first" then 0.0
    else if c.snap.policy == "normal" then 1.0
    else if c.snap.policy == "preserve" then 2.0
    else 3.0
  }

  lemma DropIsBestClass(pool: seq<Candidate>, now: int)
    ensures IsBestClass(pool, DropOverloaded(pool, now), OverloadRank(now))
  {
    var kept := Keep(pool, (c: Candidate) => !Overloaded(c.snap, now));
    if kept != [] {
      assert kept[0] in kept;
    }
  }

  lemma TierIsBestClass(pool: seq<Candidate>, now: int)
    ensures IsBestClass(pool, HealthTierPool(pool, now), TierRank(now))
  {
    hide EffectiveTier;
    var healthy := Keep(pool, (c: Candidate) => EffectiveTier(c, now) == 0);
    var probing := Keep(pool, (c: Candidate) => EffectiveTier(c, now) == 2);
    var draining := Keep(pool, (c: Candidate) => EffectiveTier(c, now) == 1);
    assert healthy != [] ==> healthy[0] in healthy;
    assert probing != [] ==> probing[0] in probing;
    assert draining != [] ==> draining[0] in draining;
  }

  lemma PolicyIsBestClass(pool: seq<Candidate>)
    ensures IsBestClass(pool, PolicyWaterfall(pool), PolicyRank)
  {
    var burn := Keep(pool, (c: Candidate) => c.snap.policy == "burn_first");
    var normal := Keep(pool, (c: Candidate) => c.snap.policy == "normal");
    var preserve := Keep(pool, (c: Candidate) => c.snap.policy == "preserve");
    assert burn != [] ==> burn[0] in burn;
    assert normal != [] ==> normal[0] in normal;
    assert preserve != [] ==> preserve[0] in preserve;
  }

  // ---------- the final ranking of each strategy ----------

  /** The choice is a ranking: within a session, or by one of the deterministic strategies. */
  predicate Ranked(strategy: Strategy, ctx: Ctx) {
    (strategy.CapacityWeighted? || strategy.CacheAffinityTier?) ==> ctx.session.Some?
  }

  function Weight(strategy: Strategy, ctx: Ctx): Candidate -> real {
    if strategy.CacheAffinityTier? then TierWeights(ctx) else Remaining
  }

  function WeightKey(weight: Candidate -> real, session: string, ctx: Ctx): Ranking {
    (c: Candidate) => if weight(c) > 0.0 then Cost(ctx, session, weight, c) + Id(c) else TieBreak(c)
  }

  function WeightRank(weight: Candidate -> real): Candidate -> real {
    (c: Candidate) => if weight(c) > 0.0 then 0.0 else 1.0
  }

  function FinalKey(strategy: Strategy, ctx: Ctx): Ranking
    requires Ranked(strategy, ctx)
  {
    match strategy
    case UsageWeighted => ThenId(WeeklyUsed)
    case RoundRobin => ThenId(LastSelected)
    case FillFirst => ThenId(Coldness)
    case SequentialDrain => ThenId(Capacity)
    case _ => Behind(WeightRank(Weight(strategy, ctx)), WeightKey(Weight(strategy, ctx), ctx.session.value, ctx))
  }

  /** The ranking of eligible accounts that a strategy's whole pipeline amounts to. */
  function FullKey(strategy: Strategy, ctx: Ctx): Ranking
    requires Ranked(strategy, ctx)
  {
    var last := Behind(PolicyRank, FinalKey(strategy, ctx));
    if strategy.CacheAffinityTier? then last
    else Behind(OverloadRank(ctx.now), Behind(TierRank(ctx.now), last))
  }

  lemma PipelineIsRanking(strategy: Strategy, snaps: seq<Snapshot>, ctx: Ctx, c: Candidate)
    requires Ranked(strategy, ctx)
    ensures IsLeast(FinalPool(strategy, snaps, ctx), FinalKey(strategy, ctx), c)
      <==> IsLeast(EligiblePool(snaps, ctx), FullKey(strategy, ctx), c)
  {
    hide IsLeast, IsBestClass, DropOverloaded, HealthTierPool, PolicyWaterfall, EligiblePool, FinalKey, Behind;
    var pool := EligiblePool(snaps, ctx);
    var last := Behind(PolicyRank, FinalKey(strategy, ctx));
    if strategy.CacheAffinityTier? {
      PolicyIsBestClass(pool);
      FilterIsRank(pool, PolicyWaterfall(pool), PolicyRank, FinalKey(strategy, ctx), c);
    } else {
      var a := DropOverloaded(pool, ctx.now);
      var b := HealthTierPool(a, ctx.now);
      DropIsBestClass(pool, ctx.now);
      TierIsBestClass(a, ctx.now);
      PolicyIsBestClass(b);
      FilterIsRank(b, PolicyWaterfall(b), PolicyRank, FinalKey(strategy, ctx), c);
      FilterIsRank(a, b, TierRank(ctx.now), last, c);
      FilterIsRank(pool, a, OverloadRank(ctx.now), Behind(TierRank(ctx.now), last), c);
    }
  }

  ghost predicate SameOn(pool: seq<Candidate>, k1: Ranking, k2: Ranking) {
    forall c :: c in pool ==> k1(c) == k2(c)
  }

  lemma LeastOfSame(pool: seq<Candidate>, k1: Ranking, k2: Ranking, c: Candidate)
    requires SameOn(pool, k1, k2)
    ensures IsLeast(pool, k1, c) <==> IsLeast(pool, k2, c)
  {
  }

  /** Within a session the weighted choice is by class of weight, then by cost or tie-break. */
  lemma WeightedIsLeast(pool: seq<Candidate>, weight: Candidate -> real, session: string, ctx: Ctx)
    requires pool != [] && ctx.session == Some(session) && forall c :: c in pool ==> weight(c) >= 0.0
    ensures var c := AffinityOrWeighted(pool, weight, ctx);
      c.Some? && IsLeast(pool, Behind(WeightRank(weight), WeightKey(weight, session, ctx)), c.value)
  {
    var positive := Keep(pool, (c: Candidate) => weight(c) > 0.0);
    var c := AffinityOrWeighted(pool, weight, ctx).value;
    var key := WeightKey(weight, session, ctx);
    hide IsLeast, Cost, TieBreak, Id;
    if positive != [] {
      var byCost := (c: Candidate) => Cost(ctx, session, weight, c) + Id(c);
      assert positive[0] in positive;
      LeastByIsLeast(positive, byCost);
      LeastOfSame(positive, byCost, key, c);
      FilterIsRank(pool, positive, WeightRank(weight), key, c);
    } else {
      NoWeight(pool, weight);
      ZeroProducts(pool, weight);
      LeastByIsLeast(pool, TieBreak);
      LeastOfSame(pool, TieBreak, key, c);
      FilterIsRank(pool, pool, WeightRank(weight), key, c);
    }
  }

  lemma NoWeight(pool: seq<Candidate>, weight: Candidate -> real)
    requires forall c :: c in pool ==> weight(c) >= 0.0
    requires Keep(pool, (c: Candidate) => weight(c) > 0.0) == []
    ensures forall c :: c in pool ==> weight(c) == 0.0
  {
    var kept := Keep(pool, (c: Candidate) => weight(c) > 0.0);
    forall c | c in pool ensures weight(c) == 0.0 {
      assert c !in kept;
    }
  }

  lemma ZeroProducts(pool: seq<Candidate>, weight: Candidate -> real)
    requires forall c :: c in pool ==> weight(c) == 0.0
    ensures forall i :: 0 <= i < |pool| ==> Products(pool, weight)[i] <= 0.0
  {
    forall i | 0 <= i < |pool| ensures Products(pool, weight)[i] <= 0.0 {
      assert pool[i] in pool;
      ZeroTimes(weight(pool[i]), pool[i].snap.weightMultiplier);
    }
  }

  lemma ZeroTimes(x: real, y: real)
    requires x == 0.0
    ensures x * y == 0.0
  {
  }

  lemma ChoiceIsLeastOfPool(strategy: Strategy, snaps: seq<Snapshot>, ctx: Ctx)
    requires Ranked(strategy, ctx) && FinalPool(strategy, snaps, ctx) != []
    ensures Choose(strategy, snaps, ctx).Some?
    ensures IsLeast(FinalPool(strategy, snaps, ctx), FinalKey(strategy, ctx), Choose(strategy, snaps, ctx).value)
  {
    hide IsLeast, StandardPool, PolicyWaterfall, EligiblePool, AffinityOrWeighted, Behind;
    var pool := FinalPool(strategy, snaps, ctx);
    match strategy {
      case CapacityWeighted => WeightedIsLeast(pool, Remaining, ctx.session.value, ctx);
      case CacheAffinityTier => WeightedIsLeast(pool, TierWeights(ctx), ctx.session.value, ctx);
      case UsageWeighted => LeastByIsLeast(pool, ThenId(WeeklyUsed));
      case RoundRobin => LeastByIsLeast(pool, ThenId(LastSelected));
      case FillFirst => LeastByIsLeast(pool, ThenId(Coldness));
      case SequentialDrain => LeastByIsLeast(pool, ThenId(Capacity));
    }
  }

  // ---------- keys tell accounts apart ----------

  lemma IdLast(p: L.Key, q: L.Key, c: Candidate, d: Candidate)
    requires |p| == |q| && p + Id(c) == q + Id(d)
    ensures c.snap.id == d.snap.id
  {
    assert (p + Id(c))[|p|..] == Id(c) && (q + Id(d))[|q|..] == Id(d);
    L.NameInjective(c.snap.id, d.snap.id);
  }

  /** Accounts with the same key have the same id: the ranking is a total order on accounts. */
  ghost predicate TellsApart(key: Ranking) {
    forall c, d :: key(c) == key(d) ==> c.snap.id == d.snap.id
  }

  lemma BehindTellsApart(rank: Candidate -> real, key: Ranking)
    requires TellsApart(key)
    ensures TellsApart(Behind(rank, key))
  {
    forall c, d | Behind(rank, key)(c) == Behind(rank, key)(d) ensures c.snap.id == d.snap.id {
      assert ([rank(c)] + key(c))[1..] == key(c) && ([rank(d)] + key(d))[1..] == key(d);
    }
  }

  lemma ThenIdTellsApart(key: Candidate -> real)
    ensures TellsApart(ThenId(key))
  {
    forall c, d | ThenId(key)(c) == ThenId(key)(d) ensures c.snap.id == d.snap.id {
      IdLast([key(c)], [key(d)], c, d);
    }
  }

  lemma WeightTellsApart(weight: Candidate -> real, session: string, ctx: Ctx)
    ensures TellsApart(Behind(WeightRank(weight), WeightKey(weight, session, ctx)))
  {
    var key := Behind(WeightRank(weight), WeightKey(weight, session, ctx));
    forall c, d | key(c) == key(d) ensures c.snap.id == d.snap.id {
      assert key(c)[0] == key(d)[0];
      assert key(c)[1..] == WeightKey(weight, session, ctx)(c) && key(d)[1..] == WeightKey(weight, session, ctx)(d);
      if weight(c) > 0.0 {
        IdLast(Cost(ctx, session, weight, c), Cost(ctx, session, weight, d), c, d);
      } else {
        assert TieBreak(c) == TieBreak(d);
        IdLast([-Remaining(c), c.secondaryUsed, c.used, LastSelected(c)],
               [-Remaining(d), d.secondaryUsed, d.used, LastSelected(d)], c, d);
      }
    }
  }

  lemma FinalKeyTellsApart(strategy: Strategy, ctx: Ctx)
    requires Ranked(strategy, ctx)
    ensures TellsApart(FinalKey(strategy, ctx))
  {
    hide TellsApart, Behind, WeightKey;
    match strategy {
      case UsageWeighted => ThenIdTellsApart(WeeklyUsed);
      case RoundRobin => ThenIdTellsApart(LastSelected);
      case FillFirst => ThenIdTellsApart(Coldness);
      case SequentialDrain => ThenIdTellsApart(Capacity);
      case _ => WeightTellsApart(Weight(strategy, ctx), ctx.session.value, ctx);
    }
  }

  lemma FullKeyTellsApart(strategy: Strategy, ctx: Ctx)
    requires Ranked(strategy, ctx)
    ensures TellsApart(FullKey(strategy, ctx))
  {
    hide TellsApart, Behind, WeightKey, FinalKey;
    FinalKeyTellsApart(strategy, ctx);
    var last := Behind(PolicyRank, FinalKey(strategy, ctx));
    BehindTellsApart(PolicyRank, FinalKey(strategy, ctx));
    BehindTellsApart(TierRank(ctx.now), last);
    BehindTellsApart(OverloadRank(ctx.now), Behind(TierRank(ctx.now), last));
  }

  // ---------- laws of choice ----------

  predicate DistinctIds(snaps: seq<Snapshot>) {
    forall i, j :: 0 <= i < j < |snaps| ==> snaps[i].id != snaps[j].id
  }

  /**
   The pick of a strategy is the account of the considered, eligible ones that no other one ranks
   before; with distinct ids there is exactly one such account.
   */
  lemma PickIsLeast(strategy: Strategy, snaps: seq<Snapshot>, ctx: Ctx, s: Snapshot)
    requires Ranked(strategy, ctx) && DistinctIds(snaps) && s in snaps && Usable(s, ctx)
    ensures Pick(strategy, snaps, ctx) == Some(s.id) <==>
      IsLeast(EligiblePool(snaps, ctx), FullKey(strategy, ctx), CandidateOf(s, ctx.penalty))
  {
    var key, pool := FullKey(strategy, ctx), EligiblePool(snaps, ctx);
    var c := CandidateOf(s, ctx.penalty);
    hide Choose, FinalPool, FullKey, FinalKey, EligiblePool, CandidateOf, VerdictOf;
    assert c in pool && c.snap == s by { CandidateKeeps(s, ctx.penalty); }
    FinalPoolSound(strategy, snaps, ctx);
    assert SomeUsable(snaps, ctx);
    ChoiceIsLeastOfPool(strategy, snaps, ctx);
    var chosen := Choose(strategy, snaps, ctx).value;
    PipelineIsRanking(strategy, snaps, ctx, chosen);
    FullKeyTellsApart(strategy, ctx);
    if IsLeast(pool, key, c) {
      L.Total(key(c), key(chosen));
    }
    if chosen.snap.id == s.id {
      SameId(snaps, chosen.snap, s);
      assert chosen == c;
    }
  }

  lemma CandidateKeeps(s: Snapshot, penalty: real)
    ensures CandidateOf(s, penalty).snap == s
  {
  }

  lemma SameId(snaps: seq<Snapshot>, s: Snapshot, t: Snapshot)
    requires DistinctIds(snaps) && s in snaps && t in snaps && s.id == t.id
    ensures s == t
  {
  }

  /** Two contexts that differ at most in the random draw. */
  ghost predicate SameButDraw(a: Ctx, b: Ctx) {
    a == b.(sampler := a.sampler)
  }

  /**
   Choosing is consistent: whatever wins among many wins among fewer, in any order, under any draw.
   */
  lemma ChoiceIsConsistent(strategy: Strategy, many: seq<Snapshot>, few: seq<Snapshot>, a: Ctx, b: Ctx, s: Snapshot)
    requires Ranked(strategy, a) && SameButDraw(a, b) && DistinctIds(many) && DistinctIds(few)
    requires (forall t :: t in few ==> t in many) && s in few
    requires Pick(strategy, many, a) == Some(s.id)
    ensures Pick(strategy, few, b) == Some(s.id)
  {
    hide Pick, FullKey, CandidateOf, VerdictOf;
    PickIffSomeUsable(strategy, many, a);
    var u :| u in many && Usable(u, a) && u.id == s.id;
    SameId(many, u, s);
    assert Usable(s, b);
    PickIsLeast(strategy, many, a, s);
    PickIsLeast(strategy, few, b, s);
    SameKeys(strategy, a, b);
    LeastOfFewer(EligiblePool(many, a), EligiblePool(few, b), FullKey(strategy, a), FullKey(strategy, b),
                 CandidateOf(s, a.penalty));
  }

  lemma LeastOfFewer(pool: seq<Candidate>, sub: seq<Candidate>, k1: Ranking, k2: Ranking, c: Candidate)
    requires IsLeast(pool, k1, c) && c in sub && (forall d :: d in sub ==> d in pool)
    requires forall d :: k1(d) == k2(d)
    ensures IsLeast(sub, k2, c)
  {
  }

  lemma SameKeys(strategy: Strategy, a: Ctx, b: Ctx)
    requires Ranked(strategy, a) && SameButDraw(a, b)
    ensures forall c :: FullKey(strategy, a)(c) == FullKey(strategy, b)(c)
  {
    hide EffectiveTier, TierWeight, Overloaded, TieBreak, Id;
    forall c ensures FullKey(strategy, a)(c) == FullKey(strategy, b)(c) {
      var wa, wb := Weight(strategy, a), Weight(strategy, b);
      assert wa(c) == wb(c);
      if strategy.CapacityWeighted? || strategy.CacheAffinityTier? {
        var session := a.session.value;
        assert Cost(a, session, wa, c) == Cost(b, session, wb, c);
        assert WeightKey(wa, session, a)(c) == WeightKey(wb, session, b)(c);
      }
      assert FinalKey(strategy, a)(c) == FinalKey(strategy, b)(c);
    }
  }

  /** Removing an account that is not picked changes nothing. */
  lemma RemovingLosers(strategy: Strategy, snaps: seq<Snapshot>, k: nat, ctx: Ctx)
    requires Ranked(strategy, ctx) && DistinctIds(snaps) && k < |snaps|
    requires Pick(strategy, snaps, ctx) != Some(snaps[k].id)
    ensures Pick(strategy, snaps[..k] + snaps[k + 1..], ctx) == Pick(strategy, snaps, ctx)
  {
    hide Pick, VerdictOf;
    var few := snaps[..k] + snaps[k + 1..];
    PickIffSomeUsable(strategy, snaps, ctx);
    PickIffSomeUsable(strategy, few, ctx);
    if Pick(strategy, snaps, ctx).Some? {
      var s :| s in snaps && Usable(s, ctx) && s.id == Pick(strategy, snaps, ctx).value;
      assert s in few by {
        var i :| 0 <= i < |snaps| && snaps[i] == s;
        assert if i < k then few[i] == s else few[i - 1] == s;
      }
      ChoiceIsConsistent(strategy, snaps, few, ctx, ctx, s);
    }
  }

  /** Adding an account leaves the pick or makes it that account. */
  lemma AddingOne(strategy: Strategy, snaps: seq<Snapshot>, q: Snapshot, ctx: Ctx)
    requires Ranked(strategy, ctx) && DistinctIds(snaps + [q])
    ensures Pick(strategy, snaps + [q], ctx) in {Pick(strategy, snaps, ctx), Some(q.id)}
  {
    hide Pick;
    var n := |snaps|;
    if Pick(strategy, snaps + [q], ctx) != Some(q.id) {
      RemovingLosers(strategy, snaps + [q], n, ctx);
      assert (snaps + [q])[..n] + (snaps + [q])[n + 1..] == snaps;
    }
  }

  /** Neither the order of the accounts nor the random draw matters. */
  lemma OrderDoesNotMatter(strategy: Strategy, xs: seq<Snapshot>, ys: seq<Snapshot>, a: Ctx, b: Ctx)
    requires Ranked(strategy, a) && SameButDraw(a, b) && DistinctIds(xs) && DistinctIds(ys)
    requires forall s :: s in xs <==> s in ys
    ensures Pick(strategy, xs, a) == Pick(strategy, ys, b)
  {
    hide Pick, VerdictOf;
    PickIffSomeUsable(strategy, xs, a);
    PickIffSomeUsable(strategy, ys, b);
    assert forall s :: Usable(s, a) <==> Usable(s, b);
    if Pick(strategy, xs, a).Some? {
      var s :| s in xs && Usable(s, a) && s.id == Pick(strategy, xs, a).value;
      ChoiceIsConsistent(strategy, xs, ys, a, b, s);
    }
  }

  // ---------- without a ranking ----------

  /** An active, authorized, unused account. */
  function Idle(id: string): Snapshot {
    Snapshot(id, "active", 0.0, 0.0, None, None, None, 100.0, None, false, "normal", 0, 0, None, None, None, true,
             0, 0, 0, 1.0, None)
  }

  const TWINS := [Idle("a"), Idle("b")]

  lemma KeepAll(pool: seq<Candidate>, p: Candidate -> bool)
    requires forall c :: c in pool ==> p(c)
    ensures Keep(pool, p) == pool
  {
  }

  lemma KeepNone(pool: seq<Candidate>, p: Candidate -> bool)
    requires forall c :: c in pool ==> !p(c)
    ensures Keep(pool, p) == []
  {
  }

  /** The candidates that two idle accounts are. */
  function Twins(ctx: Ctx): seq<Candidate> {
    [CandidateOf(Idle("a"), ctx.penalty), CandidateOf(Idle("b"), ctx.penalty)]
  }

  lemma IdleIsFresh(id: string, ctx: Ctx)
    ensures var c := CandidateOf(Idle(id), ctx.penalty);
      && Usable(Idle(id), ctx) && c.snap == Idle(id) && EffectiveTier(c, ctx.now) == 0
      && Remaining(c) == 100.0 && TierWeights(ctx)(c) == 100.0
  {
    assert Pressure(Idle(id), ctx.penalty) == 0.0;
  }

  lemma TwinsReachTheDraw(strategy: Strategy, ctx: Ctx)
    ensures FinalPool(strategy, TWINS, ctx) == Twins(ctx)
  {
    hide CandidateOf, EffectiveTier, Usable;
    IdleIsFresh("a", ctx);
    IdleIsFresh("b", ctx);
    var pool := Twins(ctx);
    assert TWINS[1..] == [Idle("b")] && TWINS[1..][1..] == [];
    assert EligiblePool(TWINS[1..], ctx) == [pool[1]];
    assert EligiblePool(TWINS, ctx) == pool;
    KeepAll(pool, (c: Candidate) => !Overloaded(c.snap, ctx.now));
    KeepAll(pool, (c: Candidate) => EffectiveTier(c, ctx.now) == 0);
    KeepNone(pool, (c: Candidate) => c.snap.policy == "burn_first");
    KeepAll(pool, (c: Candidate) => c.snap.policy == "normal");
  }

  /** Of two idle accounts, a strategy that draws picks the one that is drawn. */
  lemma DrawPicks(strategy: Strategy, ctx: Ctx, drawn: nat)
    requires !Ranked(strategy, ctx) && drawn < 2
    ensures Pick(strategy, TWINS, ctx.(sampler := _ => drawn)) == Some(TWINS[drawn].id)
  {
    var drawing := ctx.(sampler := _ => drawn);
    TwinsReachTheDraw(strategy, drawing);
    hide FinalPool, StandardPool, PolicyWaterfall, EligiblePool;
    IdleIsFresh("a", drawing);
    IdleIsFresh("b", drawing);
    hide CandidateOf, Remaining;
    var weight := if strategy.CacheAffinityTier? then TierWeights(drawing) else Remaining;
    PoolOf(strategy, TWINS, drawing);
    assert Products(Twins(drawing), weight)[0] == 100.0;
    assert Sample(Twins(drawing), weight, drawing) == Some(Twins(drawing)[drawn]);
  }

  lemma PoolOf(strategy: Strategy, snaps: seq<Snapshot>, ctx: Ctx)
    ensures FinalPool(strategy, snaps, ctx) ==
      if strategy.CacheAffinityTier? then PolicyWaterfall(EligiblePool(snaps, ctx)) else StandardPool(snaps, ctx)
  {
  }

  /**
   The random draw is irrelevant, for every pool, exactly within a session or for one of the deterministic
   strategies.
   */
  lemma DrawIrrelevantIffRanked(strategy: Strategy, a: Ctx)
    ensures Ranked(strategy, a) <==>
      forall snaps, b :: DistinctIds(snaps) && SameButDraw(a, b) ==>
        Pick(strategy, snaps, a) == Pick(strategy, snaps, b)
  {
    if Ranked(strategy, a) {
      forall snaps, b | DistinctIds(snaps) && SameButDraw(a, b)
        ensures Pick(strategy, snaps, a) == Pick(strategy, snaps, b)
      {
        OrderDoesNotMatter(strategy, snaps, snaps, a, b);
      }
    } else {
      hide Pick;
      var b0, b1 := a.(sampler := _ => 0), a.(sampler := _ => 1);
      DrawPicks(strategy, a, 0);
      DrawPicks(strategy, a, 1);
      assert SameButDraw(a, b0) && SameButDraw(a, b1) && DistinctIds(TWINS);
      var picked := Pick(strategy, TWINS, a);
      assert picked != Pick(strategy, TWINS, b0) || picked != Pick(strategy, TWINS, b1);
    }
  }

  // ---------- more weight never loses ----------

  /** `a` ranks no later than `b`. */
  predicate AtMost(a: L.Key, b: L.Key) {
    a == b || L.Less(a, b)
  }

  /** A cost with more weight behind it is no later, component by component. */
  lemma CheaperCost(ctx: Ctx, session: string, weight: Candidate -> real, c: Candidate, d: Candidate)
    requires weight(c) == weight(d) > 0.0 && 0.0 <= c.snap.weightMultiplier <= d.snap.weightMultiplier
    requires c.snap.id == d.snap.id && ctx.noise(session, c.snap.id) >= 0.0
    ensures var x, y := Cost(ctx, session, weight, d), Cost(ctx, session, weight, c);
      |x| == 2 && |y| == 2 && (x[0] < y[0] || (x[0] == y[0] && x[1] <= y[1]))
  {
    var w, a, b := weight(c), c.snap.weightMultiplier, d.snap.weightMultiplier;
    Scaled(w, 0.0, a);
    Scaled(w, a, b);
    if w * a > 0.0 {
      QuotientShrinks(ctx.noise(session, c.snap.id), w * a, w * b);
    }
  }

  lemma PairAtMost(x: L.Key, y: L.Key, id: L.Key)
    requires |x| == 2 && |y| == 2 && (x[0] < y[0] || (x[0] == y[0] && x[1] <= y[1]))
    ensures AtMost(x + id, y + id)
  {
    assert x + id == [x[0]] + ([x[1]] + id) && y + id == [y[0]] + ([y[1]] + id);
    L.Prefixed(x[0], y[0], [x[1]] + id, [y[1]] + id);
    L.Prefixed(x[1], y[1], id, id);
  }

  lemma WeightKeyAtMost(ctx: Ctx, session: string, weight: Candidate -> real, c: Candidate, d: Candidate)
    requires weight(c) == weight(d) && 0.0 <= c.snap.weightMultiplier <= d.snap.weightMultiplier
    requires c.snap.id == d.snap.id && ctx.noise(session, c.snap.id) >= 0.0
    requires TieBreak(c) == TieBreak(d)
    ensures AtMost(WeightKey(weight, session, ctx)(d), WeightKey(weight, session, ctx)(c))
  {
    if weight(c) > 0.0 {
      CheaperCost(ctx, session, weight, c, d);
      hide Cost, AtMost;
      PairAtMost(Cost(ctx, session, weight, d), Cost(ctx, session, weight, c), Id(c));
    }
  }

  lemma AtMostBehind(rank: Candidate -> real, key: Ranking, c: Candidate, d: Candidate)
    requires rank(c) == rank(d) && AtMost(key(d), key(c))
    ensures AtMost(Behind(rank, key)(d), Behind(rank, key)(c))
  {
    L.Prefixed(rank(d), rank(c), key(d), key(c));
  }

  /** Nothing but the cost depends on the weight multiplier. */
  lemma OnlyCostDiffers(strategy: Strategy, ctx: Ctx, c: Candidate, d: Candidate)
    requires d == c.(snap := c.snap.(weightMultiplier := d.snap.weightMultiplier))
    ensures Weight(strategy, ctx)(c) == Weight(strategy, ctx)(d) && TieBreak(c) == TieBreak(d)
    ensures PolicyRank(c) == PolicyRank(d) && TierRank(ctx.now)(c) == TierRank(ctx.now)(d)
    ensures OverloadRank(ctx.now)(c) == OverloadRank(ctx.now)(d)
    ensures WeightRank(Weight(strategy, ctx))(c) == WeightRank(Weight(strategy, ctx))(d)
  {
    assert Remaining(c) == Remaining(d) && ShouldDrain(c, ctx.now) == ShouldDrain(d, ctx.now);
    SameTierWeight(c, d, ctx);
    hide Remaining, ShouldDrain, TierWeight;
  }

  lemma SameTierWeight(c: Candidate, d: Candidate, ctx: Ctx)
    requires Remaining(c) == Remaining(d) && ShouldDrain(c, ctx.now) == ShouldDrain(d, ctx.now)
    requires c.snap.capacity == d.snap.capacity && c.secondaryUsed == d.secondaryUsed
    ensures TierWeights(ctx)(c) == TierWeights(ctx)(d)
  {
    hide Remaining, ShouldDrain;
  }

  lemma HeavierIsAtMost(strategy: Strategy, ctx: Ctx, c: Candidate, d: Candidate)
    requires (strategy.CapacityWeighted? || strategy.CacheAffinityTier?) && ctx.session.Some?
    requires d == c.(snap := c.snap.(weightMultiplier := d.snap.weightMultiplier))
    requires 0.0 <= c.snap.weightMultiplier <= d.snap.weightMultiplier
    requires ctx.noise(ctx.session.value, c.snap.id) >= 0.0
    ensures AtMost(FullKey(strategy, ctx)(d), FullKey(strategy, ctx)(c))
  {
    hide AtMost, TieBreak, Behind, WeightKey, WeightRank, Weight, TierRank, OverloadRank, PolicyRank;
    var weight, session := Weight(strategy, ctx), ctx.session.value;
    OnlyCostDiffers(strategy, ctx, c, d);
    WeightKeyAtMost(ctx, session, weight, c, d);
    var key := WeightKey(weight, session, ctx);
    var last := Behind(PolicyRank, Behind(WeightRank(weight), key));
    AtMostBehind(WeightRank(weight), key, c, d);
    AtMostBehind(PolicyRank, Behind(WeightRank(weight), key), c, d);
    AtMostBehind(TierRank(ctx.now), last, c, d);
    AtMostBehind(OverloadRank(ctx.now), Behind(TierRank(ctx.now), last), c, d);
  }

  lemma HeavierCandidate(s: Snapshot, m: real, ctx: Ctx)
    ensures var t := s.(weightMultiplier := m);
      && (Usable(s, ctx) <==> Usable(t, ctx))
      && CandidateOf(t, ctx.penalty) == CandidateOf(s, ctx.penalty).(snap := t)
      && CandidateOf(s, ctx.penalty).snap == s
  {
  }

  lemma LeastAfterRaise(pool: seq<Candidate>, after: seq<Candidate>, key: Ranking, c: Candidate, d: Candidate)
    requires IsLeast(pool, key, c) && AtMost(key(d), key(c)) && d in after
    requires forall e :: e in after ==> e == d || e in pool
    ensures IsLeast(after, key, d)
  {
    hide L.Less;
    forall e | e in after ensures !L.Less(key(e), key(d)) {
      L.Irreflexive(key(d));
      NotThrough(key(e), key(d), key(c));
    }
  }

  /** Within a session, raising the weight multiplier of the picked account never loses it the pick. */
  lemma MoreWeightNeverLoses(strategy: Strategy, snaps: seq<Snapshot>, k: nat, m: real, ctx: Ctx)
    requires (strategy.CapacityWeighted? || strategy.CacheAffinityTier?) && ctx.session.Some?
    requires DistinctIds(snaps) && k < |snaps| && Pick(strategy, snaps, ctx) == Some(snaps[k].id)
    requires 0.0 <= snaps[k].weightMultiplier <= m && ctx.noise(ctx.session.value, snaps[k].id) >= 0.0
    ensures Pick(strategy, snaps[k := snaps[k].(weightMultiplier := m)], ctx) == Some(snaps[k].id)
  {
    hide Pick, FullKey, Usable, CandidateOf, IsLeast, AtMost;
    var s := snaps[k];
    var t := s.(weightMultiplier := m);
    var after := snaps[k := t];
    PickIffSomeUsable(strategy, snaps, ctx);
    var u :| u in snaps && Usable(u, ctx) && u.id == s.id;
    SameId(snaps, u, s);
    HeavierCandidate(s, m, ctx);
    assert DistinctIds(after) && after[k] == t && t in after;
    var c, d := CandidateOf(s, ctx.penalty), CandidateOf(t, ctx.penalty);
    PickIsLeast(strategy, snaps, ctx, s);
    PickIsLeast(strategy, after, ctx, t);
    HeavierIsAtMost(strategy, ctx, c, d);
    forall e | e in EligiblePool(after, ctx) ensures e == d || e in EligiblePool(snaps, ctx) {
      if e.snap != t {
        var i :| 0 <= i < |after| && after[i] == e.snap;
        assert snaps[i] == e.snap;
      }
    }
    LeastAfterRaise(EligiblePool(snaps, ctx), EligiblePool(after, ctx), FullKey(strategy, ctx), c, d);
  }
}
