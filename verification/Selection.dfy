/** The account selector: preference filters, then a draw or a deterministic choice. */
module Selection {
  import opened Common
  import opened Eligibility
  import L = Lexicographic

  datatype Strategy = CapacityWeighted | UsageWeighted | RoundRobin | FillFirst | SequentialDrain | CacheAffinityTier

  datatype Tier = High | Medium | Low

  /**
   `noise` stands for the session hash turned into an exponential draw; `sampler` for the random
   draw by weights.
   */
  datatype Ctx = Ctx(
    now: int,
    requireAuthorized: bool,
    session: Option<string>,
    tier: Option<Tier>,
    penalty: real,
    noise: (string, string) -> real,
    sampler: seq<real> -> nat
  )

  // ---------- filters ----------

  function Keep(pool: seq<Candidate>, p: Candidate -> bool): (r: seq<Candidate>)
    ensures forall c :: c in r <==> c in pool && p(c)
  {
    if pool == [] then []
    else if p(pool[0]) then [pool[0]] + Keep(pool[1..], p)
    else Keep(pool[1..], p)
  }

  predicate Considered(s: Snapshot, ctx: Ctx) {
    !ctx.requireAuthorized || s.authorized
  }

  predicate Usable(s: Snapshot, ctx: Ctx) {
    Considered(s, ctx) && VerdictOf(s, ctx.now, ctx.penalty).Eligible?
  }

  function EligiblePool(snaps: seq<Snapshot>, ctx: Ctx): (r: seq<Candidate>)
    ensures forall c :: c in r ==> c.snap in snaps && Usable(c.snap, ctx) && c == CandidateOf(c.snap, ctx.penalty)
    ensures forall s :: s in snaps && Usable(s, ctx) ==> CandidateOf(s, ctx.penalty) in r
  {
    if snaps == [] then []
    else
      var rest := EligiblePool(snaps[1..], ctx);
      if Usable(snaps[0], ctx) then [CandidateOf(snaps[0], ctx.penalty)] + rest else rest
  }

  predicate Overloaded(s: Snapshot, now: int) {
    s.overloadBackoffUntil.Some? && now < s.overloadBackoffUntil.value
  }

  function DropOverloaded(pool: seq<Candidate>, now: int): seq<Candidate> {
    var kept := Keep(pool, (c: Candidate) => !Overloaded(c.snap, now));
    if kept == [] then pool else kept
  }

  predicate ShouldDrain(c: Candidate, now: int) {
    || c.used >= 85.0 || c.secondaryUsed >= 90.0
    || (c.errorCount >= 2 && c.lastErrorAt.Some? && now - c.lastErrorAt.value < 60)
  }

  function EffectiveTier(c: Candidate, now: int): nat {
    if ShouldDrain(c, now) && c.snap.healthTier < 1 then 1 else c.snap.healthTier
  }

  function HealthTierPool(pool: seq<Candidate>, now: int): seq<Candidate> {
    var healthy := Keep(pool, (c: Candidate) => EffectiveTier(c, now) == 0);
    var probing := Keep(pool, (c: Candidate) => EffectiveTier(c, now) == 2);
    var draining := Keep(pool, (c: Candidate) => EffectiveTier(c, now) == 1);
    if healthy != [] then healthy else if probing != [] then probing else if draining != [] then draining else pool
  }

  function PolicyWaterfall(pool: seq<Candidate>): seq<Candidate> {
    var burn := Keep(pool, (c: Candidate) => c.snap.policy == "burn_first");
    var normal := Keep(pool, (c: Candidate) => c.snap.policy == "normal");
    var preserve := Keep(pool, (c: Candidate) => c.snap.policy == "preserve");
    if burn != [] then burn else if normal != [] then normal else if preserve != [] then preserve else pool
  }

  function StandardPool(snaps: seq<Snapshot>, ctx: Ctx): seq<Candidate> {
    PolicyWaterfall(HealthTierPool(DropOverloaded(EligiblePool(snaps, ctx), ctx.now), ctx.now))
  }

  // ---------- the final choice ----------

  /** The first candidate with the least key. */
  function LeastBy(pool: seq<Candidate>, key: Candidate -> L.Key): (r: Candidate)
    requires pool != []
    ensures r in pool
    decreases |pool|
  {
    if |pool| == 1 then pool[0]
    else
      var rest := LeastBy(pool[1..], key);
      if L.Less(key(rest), key(pool[0])) then rest else pool[0]
  }

  function Id(c: Candidate): L.Key {
    L.Name(c.snap.id)
  }

  function Remaining(c: Candidate): real {
    Max(c.snap.capacity * (1.0 - Min(c.secondaryUsed, 100.0) / 100.0), 0.0)
  }

  function LastSelected(c: Candidate): real {
    c.snap.lastSelectedAt.GetOr(0) as real
  }

  /** Most remaining credits, then least used, then least recently selected, then by id. */
  function TieBreak(c: Candidate): L.Key {
    [-Remaining(c), c.secondaryUsed, c.used, LastSelected(c)] + Id(c)
  }

  function Products(pool: seq<Candidate>, weight: Candidate -> real): (r: seq<real>)
    ensures |r| == |pool|
    ensures forall i :: 0 <= i < |r| ==> r[i] == weight(pool[i]) * pool[i].snap.weightMultiplier
  {
    seq(|pool|, i requires 0 <= i < |pool| => weight(pool[i]) * pool[i].snap.weightMultiplier)
  }

  function Sample(pool: seq<Candidate>, weight: Candidate -> real, ctx: Ctx): Option<Candidate> {
    var products := Products(pool, weight);
    if pool == [] then None
    else if forall i :: 0 <= i < |products| ==> products[i] <= 0.0 then Some(LeastBy(pool, TieBreak))
    else
      var i := ctx.sampler(products);
      if i < |pool| then Some(pool[i]) else Some(LeastBy(pool, TieBreak))
  }

  /**
   What the session's rendezvous with an account costs: the heavier the account, the less. Without
   any weight the cost is infinite, and ranks behind every finite one.
   */
  function Cost(ctx: Ctx, session: string, weight: Candidate -> real, c: Candidate): L.Key {
    var w := weight(c) * c.snap.weightMultiplier;
    if w == 0.0 then [1.0, 0.0] else [0.0, ctx.noise(session, c.snap.id) / w]
  }

  function AffinityOrWeighted(pool: seq<Candidate>, weight: Candidate -> real, ctx: Ctx): Option<Candidate> {
    match ctx.session
    case None => Sample(pool, weight, ctx)
    case Some(session) =>
      var positive := Keep(pool, (c: Candidate) => weight(c) > 0.0);
      if pool == [] then None
      else if positive != [] then Some(LeastBy(positive, (c: Candidate) => Cost(ctx, session, weight, c) + Id(c)))
      else Sample(pool, weight, ctx)
  }

  function ThenId(key: Candidate -> real): Candidate -> L.Key {
    (c: Candidate) => [key(c)] + Id(c)
  }

  function DeterministicBy(pool: seq<Candidate>, key: Candidate -> real): Option<Candidate> {
    if pool == [] then None else Some(LeastBy(pool, ThenId(key)))
  }

  function TierWeight(c: Candidate, tier: Tier, now: int): (w: real)
    ensures w >= 0.0
  {
    var remaining := Remaining(c);
    var consumed := Max(c.snap.capacity - remaining, 0.0);
    Max(match tier
        case High =>
          var base := if c.secondaryUsed < 70.0 then remaining else remaining * 0.05;
          if ShouldDrain(c, now) then base * 0.05 else base
        case Medium => if ShouldDrain(c, now) then remaining * 0.1 else remaining
        case Low => consumed + 100.0,
        0.0)
  }

  function TierWeights(ctx: Ctx): Candidate -> real {
    (c: Candidate) => TierWeight(c, ctx.tier.GetOr(Medium), ctx.now)
  }

  function WeeklyUsed(c: Candidate): real {
    c.secondaryUsed
  }

  /** The warmest account first: the least of the negated usage. */
  function Coldness(c: Candidate): real {
    -Max(c.used, c.secondaryUsed)
  }

  function Capacity(c: Candidate): real {
    c.snap.capacity
  }

  /** The choice of a strategy; the caller gets the account's id. */
  function Choose(strategy: Strategy, snaps: seq<Snapshot>, ctx: Ctx): Option<Candidate> {
    match strategy
    case CapacityWeighted => AffinityOrWeighted(StandardPool(snaps, ctx), Remaining, ctx)
    case UsageWeighted => DeterministicBy(StandardPool(snaps, ctx), WeeklyUsed)
    case RoundRobin => DeterministicBy(StandardPool(snaps, ctx), LastSelected)
    case FillFirst => DeterministicBy(StandardPool(snaps, ctx), Coldness)
    case SequentialDrain => DeterministicBy(StandardPool(snaps, ctx), Capacity)
    case CacheAffinityTier => AffinityOrWeighted(PolicyWaterfall(EligiblePool(snaps, ctx)), TierWeights(ctx), ctx)
  }

  function Pick(strategy: Strategy, snaps: seq<Snapshot>, ctx: Ctx): Option<string> {
    match Choose(strategy, snaps, ctx)
    case Some(c) => Some(c.snap.id)
    case None => None
  }

  /** Of two equally large accounts, otherwise alike, the less used one. */
  predicate Fresher(c: Candidate, d: Candidate) {
    && c.snap.capacity == d.snap.capacity >= 0.0
    && c.errorCount == d.errorCount && c.lastErrorAt == d.lastErrorAt
    && c.used <= d.used && 0.0 <= c.secondaryUsed <= d.secondaryUsed
  }

  lemma FresherHasMore(c: Candidate, d: Candidate, now: int)
    requires Fresher(c, d)
    ensures c.snap.capacity >= Remaining(c) >= Remaining(d) >= 0.0
    ensures ShouldDrain(c, now) ==> ShouldDrain(d, now)
  {
    var x, y := 1.0 - Min(c.secondaryUsed, 100.0) / 100.0, 1.0 - Min(d.secondaryUsed, 100.0) / 100.0;
    Scaled(c.snap.capacity, y, x);
    Scaled(c.snap.capacity, x, 1.0);
    assert Remaining(c) == Max(c.snap.capacity * x, 0.0) && Remaining(d) == Max(c.snap.capacity * y, 0.0);
    assert c.snap.capacity * 1.0 == c.snap.capacity;
  }

  /** Expensive turns weigh the fresher account no less, cheap ones no more. */
  lemma TiersSteerApart(c: Candidate, d: Candidate, now: int)
    requires Fresher(c, d)
    ensures TierWeight(c, High, now) >= TierWeight(d, High, now)
    ensures TierWeight(c, Medium, now) >= TierWeight(d, Medium, now)
    ensures TierWeight(c, Low, now) <= TierWeight(d, Low, now)
  {
    FresherHasMore(c, d, now);
    hide Remaining, ShouldDrain;
  }

  // ---------- recovery ----------

  datatype Recovery = Recovery(recoverAt: int, id: string, kind: Kind)

  function SoonestRecover(snaps: seq<Snapshot>, ctx: Ctx): Option<Recovery> {
    if snaps == [] then None
    else
      var n := |snaps| - 1;
      var s, best := snaps[n], SoonestRecover(snaps[..n], ctx);
      var v := VerdictOf(s, ctx.now, ctx.penalty);
      if Considered(s, ctx) && v.InBackoff? && (best.None? || v.recoverAt < best.value.recoverAt) then
        Some(Recovery(v.recoverAt, s.id, v.kind))
      else best
  }

  /** How many of the considered accounts satisfy `p`. */
  function Census(snaps: seq<Snapshot>, ctx: Ctx, p: Verdict -> bool): nat {
    if snaps == [] then 0
    else
      var n := |snaps| - 1;
      Census(snaps[..n], ctx, p) +
      if Considered(snaps[n], ctx) && p(VerdictOf(snaps[n], ctx.now, ctx.penalty)) then 1 else 0
  }

  predicate InErrorBackoff(v: Verdict) {
    v.InBackoff? && v.kind.ErrorBackoff?
  }

  method BackoffCensus(snaps: seq<Snapshot>, ctx: Ctx) returns (errorBackoffs: nat, hasHardBlocked: bool)
    ensures errorBackoffs == Census(snaps, ctx, InErrorBackoff)
    ensures hasHardBlocked <==>
      exists s :: s in snaps && Considered(s, ctx) && VerdictOf(s, ctx.now, ctx.penalty).HardBlocked?
  {
    errorBackoffs, hasHardBlocked := 0, false;
    for i := 0 to |snaps|
      invariant errorBackoffs == Census(snaps[..i], ctx, InErrorBackoff)
      invariant hasHardBlocked <==>
        exists j :: 0 <= j < i && Considered(snaps[j], ctx) && VerdictOf(snaps[j], ctx.now, ctx.penalty).HardBlocked?
    {
      assert snaps[..i + 1][..i] == snaps[..i];
      if Considered(snaps[i], ctx) {
        var v := JudgeEligibility(snaps[i], ctx.now, ctx.penalty);
        match v {
          case InBackoff(_, ErrorBackoff) => errorBackoffs := errorBackoffs + 1;
          case HardBlocked => hasHardBlocked := true;
          case _ =>
        }
      }
    }
    assert snaps[..|snaps|] == snaps;
  }

  /** Some account is considered and eligible. */
  ghost predicate SomeUsable(snaps: seq<Snapshot>, ctx: Ctx) {
    exists s :: s in snaps && Usable(s, ctx)
  }

  lemma SameEmptiness(pool: seq<Candidate>, now: int)
    ensures DropOverloaded(pool, now) == [] <==> pool == []
    ensures HealthTierPool(pool, now) == [] <==> pool == []
    ensures PolicyWaterfall(pool) == [] <==> pool == []
    ensures forall c :: c in DropOverloaded(pool, now) ==> c in pool
    ensures forall c :: c in HealthTierPool(pool, now) ==> c in pool
    ensures forall c :: c in PolicyWaterfall(pool) ==> c in pool
  {
    assert pool != [] ==> pool[0] in pool;
  }

  /** The pool from which a strategy makes its final choice. */
  function FinalPool(strategy: Strategy, snaps: seq<Snapshot>, ctx: Ctx): seq<Candidate> {
    if strategy.CacheAffinityTier? then PolicyWaterfall(EligiblePool(snaps, ctx)) else StandardPool(snaps, ctx)
  }

  lemma FinalPoolSound(strategy: Strategy, snaps: seq<Snapshot>, ctx: Ctx)
    ensures FinalPool(strategy, snaps, ctx) == [] <==> !SomeUsable(snaps, ctx)
    ensures forall c :: c in FinalPool(strategy, snaps, ctx) ==>
      c.snap in snaps && Usable(c.snap, ctx) && c == CandidateOf(c.snap, ctx.penalty)
  {
    var pool := EligiblePool(snaps, ctx);
    assert pool != [] ==> pool[0] in pool;
    SameEmptiness(pool, ctx.now);
    var dropped := DropOverloaded(pool, ctx.now);
    SameEmptiness(dropped, ctx.now);
    SameEmptiness(HealthTierPool(dropped, ctx.now), ctx.now);
  }

  lemma ChosenFromPool(strategy: Strategy, snaps: seq<Snapshot>, ctx: Ctx)
    ensures Choose(strategy, snaps, ctx).None? <==> FinalPool(strategy, snaps, ctx) == []
    ensures Choose(strategy, snaps, ctx).Some? ==> Choose(strategy, snaps, ctx).value in FinalPool(strategy, snaps, ctx)
  {
    hide StandardPool, PolicyWaterfall, EligiblePool, Remaining, TierWeight, Cost, TieBreak;
  }

  /**
   Every strategy picks something exactly when a considered account is eligible, and then picks such
   an account.
   */
  lemma PickIffSomeUsable(strategy: Strategy, snaps: seq<Snapshot>, ctx: Ctx)
    ensures Pick(strategy, snaps, ctx).Some? <==> SomeUsable(snaps, ctx)
    ensures Pick(strategy, snaps, ctx).Some? ==>
      exists s :: s in snaps && Usable(s, ctx) && s.id == Pick(strategy, snaps, ctx).value
  {
    hide Choose, FinalPool, VerdictOf;
    ChosenFromPool(strategy, snaps, ctx);
    FinalPoolSound(strategy, snaps, ctx);
  }

  /** The reported recovery is the soonest of a considered account in backoff. */
  lemma {:induction false} SoonestIsLeast(snaps: seq<Snapshot>, ctx: Ctx)
    ensures var r := SoonestRecover(snaps, ctx);
      && (r.None? <==> forall s :: s in snaps && Considered(s, ctx) ==> !VerdictOf(s, ctx.now, ctx.penalty).InBackoff?)
      && (r.Some? ==>
            && (forall s :: s in snaps && Considered(s, ctx) && VerdictOf(s, ctx.now, ctx.penalty).InBackoff?
                  ==> r.value.recoverAt <= VerdictOf(s, ctx.now, ctx.penalty).recoverAt)
            && exists s :: s in snaps && Considered(s, ctx) && s.id == r.value.id
                 && VerdictOf(s, ctx.now, ctx.penalty) == InBackoff(r.value.recoverAt, r.value.kind))
  {
    hide VerdictOf;
    if snaps != [] {
      var n := |snaps| - 1;
      SoonestIsLeast(snaps[..n], ctx);
      assert snaps == snaps[..n] + [snaps[n]];
      assert forall s :: s in snaps <==> s in snaps[..n] || s == snaps[n];
    }
  }

  /** When nothing can be picked, there is nothing to wait for exactly when every account is blocked. */
  lemma NothingToWaitFor(strategy: Strategy, snaps: seq<Snapshot>, ctx: Ctx)
    requires Pick(strategy, snaps, ctx).None?
    ensures SoonestRecover(snaps, ctx).None? <==>
      forall s :: s in snaps && Considered(s, ctx) ==> VerdictOf(s, ctx.now, ctx.penalty).HardBlocked?
  {
    hide Pick, SoonestRecover, VerdictOf;
    PickIffSomeUsable(strategy, snaps, ctx);
    SoonestIsLeast(snaps, ctx);
    forall s | s in snaps && Considered(s, ctx) ensures !VerdictOf(s, ctx.now, ctx.penalty).Eligible? {
      assert !Usable(s, ctx);
    }
  }

  /** A pool-first strategy picks an overloaded account only if every eligible account is overloaded. */
  lemma OverloadedOnlyIfAllAre(strategy: Strategy, snaps: seq<Snapshot>, ctx: Ctx)
    requires !strategy.CacheAffinityTier? && Choose(strategy, snaps, ctx).Some?
    requires Overloaded(Choose(strategy, snaps, ctx).value.snap, ctx.now)
    ensures forall s :: s in snaps && Usable(s, ctx) ==> Overloaded(s, ctx.now)
  {
    var c := Choose(strategy, snaps, ctx).value;
    hide Choose, VerdictOf;
    ChosenFromPool(strategy, snaps, ctx);
    var pool := EligiblePool(snaps, ctx);
    var dropped := DropOverloaded(pool, ctx.now);
    SameEmptiness(HealthTierPool(dropped, ctx.now), ctx.now);
    SameEmptiness(dropped, ctx.now);
    var kept := Keep(pool, (c: Candidate) => !Overloaded(c.snap, ctx.now));
    assert c in dropped && c !in kept;
    assert kept == [];
    forall s | s in snaps && Usable(s, ctx) ensures Overloaded(s, ctx.now) {
      assert CandidateOf(s, ctx.penalty) in pool && CandidateOf(s, ctx.penalty) !in kept;
    }
  }
}
