/** From the dashboard's account rows to the pool that the projection simulates. */
module PaceInputs {
  import opened Common
  import opened PoolModel
  import opened PoolProjection

  const MIN_FRESHNESS_SECS := 300
  const FRESHNESS_MISSED_REFRESH_CYCLES := 3

  /** One account row. `latestRecordedAt` is the time of its newest usage sample, if it has any. */
  datatype PaceAccount = PaceAccount(
    statusEligible: bool,
    full: real,
    usedPercent: real,
    resetAt: Option<int>,
    windowMinutes: Option<int>,
    latestRecordedAt: Option<int>
  )

  datatype Standing = NotPaced | Inactive | Stale | Paced

  function FreshnessSeconds(refreshInterval: int): int {
    var cycles := refreshInterval * FRESHNESS_MISSED_REFRESH_CYCLES;
    if cycles >= MIN_FRESHNESS_SECS then cycles else MIN_FRESHNESS_SECS
  }

  /** Which of the four outcomes an account row has; the checks come in this order. */
  function StandingOf(a: PaceAccount, cutoff: int): Standing {
    if a.resetAt.None? || a.windowMinutes.None? || a.full <= 0.0 || a.windowMinutes.value <= 0 then NotPaced
    else if !a.statusEligible then Inactive
    else if a.latestRecordedAt.None? || a.latestRecordedAt.value < cutoff then Stale
    else Paced
  }

  /** Rolls a reset forward past `now` by whole windows. */
  function AdvanceResetAt(resetAt: real, window: real, now: real): real
    requires window > 0.0
  {
    if resetAt > now then resetAt
    else
      var missed := ((now - resetAt) / window).Floor + 1;
      resetAt + missed as real * window
  }

  /** A reset that has passed moves by whole windows, to the first boundary after `now`. */
  lemma AdvancesToNextBoundary(resetAt: real, window: real, now: real)
    requires window > 0.0
    ensures var r := AdvanceResetAt(resetAt, window, now);
      && r > now
      && (resetAt > now ==> r == resetAt)
      && (resetAt <= now ==> r - window <= now)
      && exists k: nat :: r == Boundary(resetAt, window, k)
  {
    var r := AdvanceResetAt(resetAt, window, now);
    if resetAt <= now {
      var q := (now - resetAt) / window;
      var k: nat := q.Floor + 1;
      assert q * window == now - resetAt;
      Between(k as real - 1.0, q, k as real, window);
      assert r == Boundary(resetAt, window, k);
    } else {
      assert r == Boundary(resetAt, window, 0);
    }
  }

  lemma Between(x: real, q: real, y: real, w: real)
    requires x <= q < y && w > 0.0
    ensures x * w <= q * w < y * w
    ensures x * w == y * w - (y - x) * w
  {
  }

  /** An account that is paced enters the simulation with these figures. */
  function SimOf(a: PaceAccount, now: int): SimAccount
    requires a.resetAt.Some? && a.windowMinutes.Some? && a.windowMinutes.value > 0
  {
    var window := a.windowMinutes.value as real * 60000.0;
    var remaining := Clamp(a.full * (1.0 - Clamp(a.usedPercent, 0.0, 100.0) / 100.0), 0.0, a.full);
    SimAccount(a.full, remaining,
               AdvanceResetAt(a.resetAt.value as real * 1000.0, window, now as real * 1000.0), window)
  }

  /** The simulation starts from the unused share of the capacity, whatever the used percent reads. */
  lemma StartsWithUnusedShare(a: PaceAccount, now: int)
    requires a.resetAt.Some? && a.windowMinutes.Some? && a.windowMinutes.value > 0 && a.full > 0.0
    ensures var x := SimOf(a, now);
      && x.full == a.full && x.window == a.windowMinutes.value as real * 60000.0
      && (a.usedPercent <= 0.0 ==> x.balance == a.full)
      && (0.0 <= a.usedPercent <= 100.0 ==> 100.0 * x.balance == a.full * (100.0 - a.usedPercent))
      && (a.usedPercent >= 100.0 ==> x.balance == 0.0)
  {
    var share := 1.0 - Clamp(a.usedPercent, 0.0, 100.0) / 100.0;
    Scaled(a.full, 0.0, share);
    Scaled(a.full, share, 1.0);
    assert 100.0 * (a.full * share) == a.full * (100.0 * share);
  }

  /** Capacity, a reset and a window: without any of them a row is not counted at all. */
  predicate Timed(a: PaceAccount) {
    a.full > 0.0 && a.resetAt.Some? && a.windowMinutes.Some? && a.windowMinutes.value > 0
  }

  /** The newest sample is at most three refresh cycles old, or five minutes if that is longer. */
  predicate RecentlySampled(a: PaceAccount, now: int, refreshInterval: int) {
    && a.latestRecordedAt.Some?
    && (now - a.latestRecordedAt.value <= 300 || now - a.latestRecordedAt.value <= 3 * refreshInterval)
  }

  /** Of the rows that are timed, those out of service are inactive, and the others stale unless recently sampled. */
  lemma StandingIff(a: PaceAccount, now: int, refreshInterval: int)
    ensures var standing := StandingOf(a, now - FreshnessSeconds(refreshInterval));
      && (standing == NotPaced <==> !Timed(a))
      && (standing == Inactive <==> Timed(a) && !a.statusEligible)
      && (standing == Stale <==> Timed(a) && a.statusEligible && !RecentlySampled(a, now, refreshInterval))
      && (standing == Paced <==> Timed(a) && a.statusEligible && RecentlySampled(a, now, refreshInterval))
  {
  }

  lemma SimOfFits(a: PaceAccount, now: int, cutoff: int)
    requires StandingOf(a, cutoff) == Paced
    ensures Given([SimOf(a, now)], now as real * 1000.0)
  {
    var window := a.windowMinutes.value as real * 60000.0;
    AdvancesToNextBoundary(a.resetAt.value as real * 1000.0, window, now as real * 1000.0);
  }

  lemma NobodyGiven(now: int)
    ensures Given([], now as real * 1000.0)
  {
  }

  lemma GivenAppend(s: Pool, x: SimAccount, now: real)
    requires Given(s, now) && Given([x], now)
    ensures Given(s + [x], now)
  {
    assert [x][0] == x;
  }

  function Count(accounts: seq<PaceAccount>, cutoff: int, standing: Standing): nat {
    if accounts == [] then 0
    else
      var n := |accounts| - 1;
      Count(accounts[..n], cutoff, standing) + if StandingOf(accounts[n], cutoff) == standing then 1 else 0
  }

  /** The pool of the paced rows, in their order. */
  function PacedPool(accounts: seq<PaceAccount>, cutoff: int, now: int): Pool {
    if accounts == [] then []
    else
      var n := |accounts| - 1;
      PacedPool(accounts[..n], cutoff, now) +
      if StandingOf(accounts[n], cutoff) == Paced then [SimOf(accounts[n], now)] else []
  }

  /** Sorts the rows into paced, inactive and stale ones, and prepares the pool to simulate. */
  method SimInputs(accounts: seq<PaceAccount>, now: int, refreshInterval: int)
      returns (sim: Pool, stale: nat, inactive: nat)
    ensures var cutoff := now - FreshnessSeconds(refreshInterval);
      && sim == PacedPool(accounts, cutoff, now)
      && stale == Count(accounts, cutoff, Stale)
      && inactive == Count(accounts, cutoff, Inactive)
      && |sim| + stale + inactive + Count(accounts, cutoff, NotPaced) == |accounts|
    ensures Given(sim, now as real * 1000.0)
  {
    hide SimOf, Clamp, Given;
    NobodyGiven(now);
    var cutoff := now - FreshnessSeconds(refreshInterval);
    sim, stale, inactive := [], 0, 0;
    for i := 0 to |accounts|
      invariant sim == PacedPool(accounts[..i], cutoff, now)
      invariant stale == Count(accounts[..i], cutoff, Stale)
      invariant inactive == Count(accounts[..i], cutoff, Inactive)
      invariant |sim| + stale + inactive + Count(accounts[..i], cutoff, NotPaced) == i
      invariant Given(sim, now as real * 1000.0)
    {
      var a := accounts[i];
      assert accounts[..i + 1][..i] == accounts[..i] && accounts[..i + 1][i] == a;
      if a.resetAt.None? || a.windowMinutes.None? {
        continue;
      }
      if a.full <= 0.0 || a.windowMinutes.value <= 0 {
        continue;
      }
      if !a.statusEligible {
        inactive := inactive + 1;
        continue;
      }
      if a.latestRecordedAt.None? || a.latestRecordedAt.value < cutoff {
        stale := stale + 1;
        continue;
      }
      SimOfFits(a, now, cutoff);
      GivenAppend(sim, SimOf(a, now), now as real * 1000.0);
      sim := sim + [SimOf(a, now)];
    }
    assert accounts[..|accounts|] == accounts;
  }
}
