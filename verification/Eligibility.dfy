/** Which accounts may serve a request, which come back and when, and which never do. */
module Eligibility {
  import opened Common

  /** Times are unix seconds. `capacity` is the account's own override or its plan's capacity. */
  datatype Snapshot = Snapshot(
    id: string,
    status: string,
    used: real,
    secondaryUsed: real,
    fiveHourReset: Option<int>,
    weeklyReset: Option<int>,
    resetAt: Option<int>,
    capacity: real,
    usageCap: Option<real>,
    usageCapOverride: bool,
    policy: string,
    healthTier: nat,
    errorCount: nat,
    cooldownUntil: Option<int>,
    lastErrorAt: Option<int>,
    lastSelectedAt: Option<int>,
    authorized: bool,
    inFlight: nat,
    inFlightPressure: nat,
    openWs: nat,
    weightMultiplier: real,
    overloadBackoffUntil: Option<int>
  )

  /** An eligible account with its state after recovery. */
  datatype Candidate = Candidate(
    snap: Snapshot,
    used: real,
    secondaryUsed: real,
    errorCount: nat,
    lastErrorAt: Option<int>
  )

  datatype Kind = ErrorBackoff | Cooldown

  datatype Verdict = Eligible(candidate: Candidate) | InBackoff(recoverAt: int, kind: Kind) | HardBlocked

  function Pow2(n: nat): (r: nat)
    ensures r >= 1
  {
    if n == 0 then 1 else 2 * Pow2(n - 1)
  }

  /** Half a minute at the third error, doubling with every further one, five minutes at most. */
  function ErrorBackoffSecs(errorCount: nat): (secs: int)
    ensures 30 <= secs <= 300
  {
    var exp := if errorCount < 3 then 0 else if errorCount - 3 > 20 then 20 else errorCount - 3;
    var raw := 30 * Pow2(exp);
    if raw < 300 then raw else 300
  }

  // ---------- the verdict, gate by gate ----------

  predicate Terminal(s: Snapshot) {
    s.status == "reauth_required" || s.status == "deactivated" || s.status == "paused"
  }

  /** Held until the reset that the upstream declared. */
  predicate Held(s: Snapshot) {
    s.status == "rate_limited" || s.status == "quota_exceeded"
  }

  /** Usage once a hold is over: the declared exhaustion is forgotten. */
  function UsedAfter(s: Snapshot): real {
    if Held(s) then 0.0 else s.used
  }

  function SecondaryAfter(s: Snapshot): real {
    if s.status == "quota_exceeded" then 0.0 else s.secondaryUsed
  }

  /** Over the operator's ceiling in some window, even after recovery. */
  predicate Capped(s: Snapshot) {
    && !s.usageCapOverride && s.usageCap.Some?
    && (UsedAfter(s) >= s.usageCap.value || SecondaryAfter(s) >= s.usageCap.value)
  }

  /** The reset that a capped account reports. */
  function CapReset(s: Snapshot): Option<int>
    requires Capped(s)
  {
    if UsedAfter(s) >= s.usageCap.value && s.fiveHourReset.Some? then s.fiveHourReset else s.weeklyReset
  }

  /** Errors that still count once holds and cooldowns are over. */
  function ErrorsAfter(s: Snapshot): nat {
    if s.status == "rate_limited" || s.cooldownUntil.Some? then 0 else s.errorCount
  }

  /** When the error backoff ends, if there is one. */
  function ErrorUntil(s: Snapshot): Option<int> {
    if ErrorsAfter(s) >= 3 && s.lastErrorAt.Some? then Some(s.lastErrorAt.value + ErrorBackoffSecs(s.errorCount))
    else None
  }

  function Pressure(s: Snapshot, penalty: real): real {
    ((if s.inFlightPressure >= s.inFlight then s.inFlightPressure else s.inFlight) + s.openWs) as real * penalty
  }

  function CandidateOf(s: Snapshot, penalty: real): Candidate {
    Candidate(s, Min(UsedAfter(s) + Pressure(s, penalty), 100.0), Min(SecondaryAfter(s) + Pressure(s, penalty), 100.0),
              if ErrorsAfter(s) >= 3 then 0 else ErrorsAfter(s),
              if s.cooldownUntil.Some? || ErrorsAfter(s) >= 3 then None else s.lastErrorAt)
  }

  function VerdictOf(s: Snapshot, now: int, penalty: real): Verdict {
    if Terminal(s) || (Held(s) && s.resetAt.None?) then HardBlocked
    else if Held(s) && now < s.resetAt.value then InBackoff(s.resetAt.value, Cooldown)
    else if Capped(s) then
      (match CapReset(s)
       case Some(t) => InBackoff(t, Cooldown)
       case None => HardBlocked)
    else if s.cooldownUntil.Some? && now < s.cooldownUntil.value then InBackoff(s.cooldownUntil.value, Cooldown)
    else if ErrorUntil(s).Some? && now < ErrorUntil(s).value then InBackoff(ErrorUntil(s).value, ErrorBackoff)
    else Eligible(CandidateOf(s, penalty))
  }

  /** The gates in sequence; recovery rewrites the effective state and falls through to the next gate. */
  method JudgeEligibility(s: Snapshot, now: int, penalty: real) returns (v: Verdict)
    ensures v == VerdictOf(s, now, penalty)
  {
    if s.status in ["reauth_required", "deactivated", "paused"] {
      return HardBlocked;
    }
    var effUsed := s.used;
    var effSecondary := s.secondaryUsed;
    var effErrors := s.errorCount;
    var effLastError := s.lastErrorAt;
    if s.status == "rate_limited" {
      match s.resetAt {
        case Some(reset) =>
          if now >= reset {
            effUsed := 0.0;
            effErrors := 0;
          } else {
            return InBackoff(reset, Cooldown);
          }
        case None => return HardBlocked;
      }
    }
    if s.status == "quota_exceeded" {
      match s.resetAt {
        case Some(reset) =>
          if now >= reset {
            effUsed := 0.0;
            effSecondary := 0.0;
          } else {
            return InBackoff(reset, Cooldown);
          }
        case None => return HardBlocked;
      }
    }
    if !s.usageCapOverride && s.usageCap.Some? {
      var cap := s.usageCap.value;
      var fiveHourCapped := effUsed >= cap;
      var weeklyCapped := effSecondary >= cap;
      if fiveHourCapped || weeklyCapped {
        var recoverAt := if fiveHourCapped && s.fiveHourReset.Some? then s.fiveHourReset else s.weeklyReset;
        match recoverAt {
          case Some(reset) => return InBackoff(reset, Cooldown);
          case None => return HardBlocked;
        }
      }
    }
    if s.cooldownUntil.Some? {
      var cd := s.cooldownUntil.value;
      if now >= cd {
        effErrors := 0;
        effLastError := None;
      } else {
        return InBackoff(cd, Cooldown);
      }
    }
    if effErrors >= 3 {
      if effLastError.Some? {
        var recoverAt := effLastError.value + ErrorBackoffSecs(effErrors);
        if now < recoverAt {
          return InBackoff(recoverAt, ErrorBackoff);
        }
      }
      effErrors := 0;
      effLastError := None;
    }
    var requests := if s.inFlightPressure >= s.inFlight then s.inFlightPressure else s.inFlight;
    var pressure := (requests + s.openWs) as real * penalty;
    return Eligible(Candidate(s, Min(effUsed + pressure, 100.0), Min(effSecondary + pressure, 100.0),
                              effErrors, effLastError));
  }

  // ---------- the verdict, read off the snapshot ----------

  /** The seconds of backoff: from the third error on, doubled with each, five minutes at most. */
  function BackoffOf(errorCount: nat): int {
    match errorCount
    case 4 => 60
    case 5 => 120
    case 6 => 240
    case n => if n <= 3 then 30 else 300
  }

  lemma BackoffDoubles(errorCount: nat)
    ensures ErrorBackoffSecs(errorCount) == BackoffOf(errorCount)
  {
    assert Pow2(0) == 1 && Pow2(1) == 2 && Pow2(2) == 4 && Pow2(3) == 8;
    if errorCount >= 7 {
      Pow2Grows(if errorCount - 3 > 20 then 20 else errorCount - 3);
    }
  }

  lemma {:induction false} Pow2Grows(n: nat)
    requires n >= 4
    ensures Pow2(n) >= 16
  {
    if n == 4 {
      assert Pow2(0) == 1 && Pow2(1) == 2 && Pow2(2) == 4 && Pow2(3) == 8;
    } else {
      Pow2Grows(n - 1);
    }
  }

  predicate OutOfService(s: Snapshot) {
    s.status == "reauth_required" || s.status == "deactivated" || s.status == "paused"
  }

  /** A hold declared by the upstream that has not ended. */
  predicate StillHeld(s: Snapshot, now: int) {
    (s.status == "rate_limited" || s.status == "quota_exceeded") && (s.resetAt.None? || now < s.resetAt.value)
  }

  /** The usage of the five hours, which the end of either hold clears. */
  function FiveHourUsage(s: Snapshot): real {
    if s.status == "rate_limited" || s.status == "quota_exceeded" then 0.0 else s.used
  }

  /** The usage of the week, which the end of an exceeded quota clears. */
  function WeeklyUsage(s: Snapshot): real {
    if s.status == "quota_exceeded" then 0.0 else s.secondaryUsed
  }

  /** The operator's ceiling has been reached in some window. */
  predicate AtCeiling(s: Snapshot) {
    && !s.usageCapOverride && s.usageCap.Some?
    && (FiveHourUsage(s) >= s.usageCap.value || WeeklyUsage(s) >= s.usageCap.value)
  }

  /** Errors count from the third on, unless the end of a rate limit or of a cooldown has cleared them. */
  predicate BackingOff(s: Snapshot, now: int) {
    && s.errorCount >= 3 && s.status != "rate_limited" && s.cooldownUntil.None? && s.lastErrorAt.Some?
    && now < s.lastErrorAt.value + BackoffOf(s.errorCount)
  }

  /** An account is eligible exactly if no gate holds. */
  lemma EligibleIff(s: Snapshot, now: int, penalty: real)
    ensures VerdictOf(s, now, penalty).Eligible? <==>
      && !OutOfService(s) && !StillHeld(s, now) && !AtCeiling(s)
      && (s.cooldownUntil.Some? ==> now >= s.cooldownUntil.value)
      && !BackingOff(s, now)
  {
    BackoffDoubles(s.errorCount);
    hide ErrorBackoffSecs;
  }

  /** It is blocked for good exactly if the first gate that holds has no end that is known. */
  lemma BlockedIff(s: Snapshot, now: int, penalty: real)
    ensures VerdictOf(s, now, penalty).HardBlocked? <==>
      || OutOfService(s)
      || (StillHeld(s, now) && s.resetAt.None?)
      || (!StillHeld(s, now) && AtCeiling(s) && s.weeklyReset.None?
          && (s.fiveHourReset.None? || FiveHourUsage(s) < s.usageCap.value))
  {
  }

  /** Otherwise the time to wait for is the end of the first gate that holds. */
  lemma WaitsForFirstGate(s: Snapshot, now: int, penalty: real)
    requires VerdictOf(s, now, penalty).InBackoff?
    ensures var v := VerdictOf(s, now, penalty);
      if StillHeld(s, now) then v == InBackoff(s.resetAt.value, Cooldown)
      else if AtCeiling(s) then
        v.kind.Cooldown? &&
        if FiveHourUsage(s) >= s.usageCap.value && s.fiveHourReset.Some? then v.recoverAt == s.fiveHourReset.value
        else Some(v.recoverAt) == s.weeklyReset
      else if s.cooldownUntil.Some? then v == InBackoff(s.cooldownUntil.value, Cooldown)
      else BackingOff(s, now) && v == InBackoff(s.lastErrorAt.value + BackoffOf(s.errorCount), ErrorBackoff)
  {
    BackoffDoubles(s.errorCount);
    hide ErrorBackoffSecs;
  }

  // ---------- recovery over time ----------

  /** With time, eligible accounts stay eligible and blocked ones stay blocked. */
  lemma VerdictsPersist(s: Snapshot, now: int, later: int, penalty: real)
    requires now <= later
    ensures VerdictOf(s, now, penalty).Eligible? ==> VerdictOf(s, later, penalty) == VerdictOf(s, now, penalty)
    ensures VerdictOf(s, now, penalty).HardBlocked? ==> VerdictOf(s, later, penalty).HardBlocked?
  {
  }

  /**
   Below the ceiling, a reported recovery time lies ahead, and waiting for it, at most twice, makes
   the account eligible.
   */
  lemma AtMostTwoWaits(s: Snapshot, now: int, penalty: real)
    requires !Capped(s) && VerdictOf(s, now, penalty).InBackoff?
    ensures var t := VerdictOf(s, now, penalty).recoverAt;
      && t > now
      && var v := VerdictOf(s, t, penalty);
         || v.Eligible?
         || (v.InBackoff? && v.recoverAt > t && VerdictOf(s, v.recoverAt, penalty).Eligible?)
  {
  }

  /** Two waits do happen: a rate limit that ends inside a longer cooldown. */
  lemma TwoWaitsHappen(s: Snapshot, penalty: real)
    requires s.status == "rate_limited" && s.resetAt == Some(10) && s.cooldownUntil == Some(20) && !Capped(s)
    ensures VerdictOf(s, 0, penalty) == InBackoff(10, Cooldown)
    ensures VerdictOf(s, 10, penalty) == InBackoff(20, Cooldown)
    ensures VerdictOf(s, 20, penalty).Eligible?
  {
  }

  /** The condition under which an account can ever be used again. */
  predicate Recoverable(s: Snapshot) {
    !Terminal(s) && (Held(s) ==> s.resetAt.Some?) && !Capped(s)
  }

  /** A time by which nothing but the ceiling or a terminal status can stand in the way. */
  function AllClear(s: Snapshot, now: int): (t: int)
    ensures t >= now
    ensures s.resetAt.Some? ==> t >= s.resetAt.value
    ensures s.cooldownUntil.Some? ==> t >= s.cooldownUntil.value
    ensures ErrorUntil(s).Some? ==> t >= ErrorUntil(s).value
  {
    var a := if s.resetAt.Some? && s.resetAt.value > now then s.resetAt.value else now;
    var b := if s.cooldownUntil.Some? && s.cooldownUntil.value > a then s.cooldownUntil.value else a;
    if ErrorUntil(s).Some? && ErrorUntil(s).value > b then ErrorUntil(s).value else b
  }

  /**
   An account becomes eligible at some time from now on if and only if it is recoverable. In
   particular an account over its ceiling never does, whatever recovery time it reports.
   */
  lemma EventuallyEligibleIffRecoverable(s: Snapshot, now: int, penalty: real)
    ensures (exists t :: t >= now && VerdictOf(s, t, penalty).Eligible?) <==> Recoverable(s)
  {
    var t := AllClear(s, now);
    assert t >= now && (Recoverable(s) ==> VerdictOf(s, t, penalty).Eligible?);
  }

  /**
   Once any hold is over, the verdict on a capped account is the same at all times, also after the time
   it reports: waiting for that time changes nothing.
   */
  lemma CeilingReportsStaleTime(s: Snapshot, t: int, penalty: real)
    requires Capped(s) && !Terminal(s) && (Held(s) ==> s.resetAt.Some? && t >= s.resetAt.value)
    ensures VerdictOf(s, t, penalty) ==
      if CapReset(s).Some? then InBackoff(CapReset(s).value, Cooldown) else HardBlocked
  {
  }

  /** For instance: over the weekly ceiling, with a weekly reset that has passed. */
  lemma StaleTimeReported(s: Snapshot, penalty: real)
    requires s.status == "active" && s.usageCap == Some(80.0) && !s.usageCapOverride && s.used < 80.0 <= s.secondaryUsed
    requires s.weeklyReset == Some(10)
    ensures VerdictOf(s, 20, penalty) == InBackoff(10, Cooldown)
  {
  }

  /**
   Exactly when a reported recovery time lies ahead: always below the ceiling or during a hold; otherwise
   if the reset that the ceiling reports has not passed.
   */
  lemma RecoveryLiesAheadIff(s: Snapshot, now: int, penalty: real)
    requires VerdictOf(s, now, penalty).InBackoff?
    ensures VerdictOf(s, now, penalty).recoverAt > now <==>
      || !Capped(s)
      || (Held(s) && now < s.resetAt.value)
      || (CapReset(s).Some? && CapReset(s).value > now)
  {
  }

  // ---------- soft signals ----------

  /** Two snapshots that differ at most in how busy the account is. */
  predicate SameButLoad(s: Snapshot, t: Snapshot) {
    s == t.(inFlight := s.inFlight, inFlightPressure := s.inFlightPressure, openWs := s.openWs)
  }

  /** Being busy never decides availability or recovery. */
  lemma LoadNeverDecides(s: Snapshot, t: Snapshot, now: int, p: real, q: real)
    requires SameButLoad(s, t)
    ensures var v, w := VerdictOf(s, now, p), VerdictOf(t, now, q);
      (v.Eligible? <==> w.Eligible?) && (!v.Eligible? ==> v == w)
  {
  }
}
