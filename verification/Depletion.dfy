/** The depletion forecast of one account from its usage samples. */
module Depletion {
  import opened Common

  const ALPHA := 0.4
  const RISK_WARNING := 0.6
  const RISK_DANGER := 0.8
  const RISK_CRITICAL := 0.95

  datatype Sample = Sample(used: real, resetAt: Option<int>, windowMinutes: Option<int>, recordedAt: int)

  datatype Ewma = Ewma(rate: Option<real>, lastUsed: real, lastTime: real, lastReset: Option<int>)

  predicate WindowChanged(a: Option<int>, b: Option<int>) {
    a.Some? && b.Some? && a.value != b.value
  }

  function Seed(s: Sample): Ewma {
    Ewma(None, s.used, s.recordedAt as real, s.resetAt)
  }

  /** The usage fell, or the window changed: what was measured so far no longer counts. */
  predicate Resets(st: Ewma, s: Sample) {
    s.recordedAt as real != st.lastTime && (st.lastUsed > s.used || WindowChanged(s.resetAt, st.lastReset))
  }

  function RawRate(st: Ewma, s: Sample): real
    requires s.recordedAt as real != st.lastTime
  {
    Max((s.used - st.lastUsed) / (s.recordedAt as real - st.lastTime), 0.0)
  }

  function Update(state: Option<Ewma>, s: Sample): Ewma {
    match state
    case None => Seed(s)
    case Some(st) =>
      if s.recordedAt as real == st.lastTime then st
      else if Resets(st, s) then Seed(s)
      else
        var raw := RawRate(st, s);
        var rate := match st.rate
          case None => raw
          case Some(prev) => ALPHA * raw + (1.0 - ALPHA) * prev;
        Ewma(Some(rate), s.used, s.recordedAt as real, s.resetAt)
  }

  function FoldFrom(state: Option<Ewma>, samples: seq<Sample>): Option<Ewma> {
    if samples == [] then state
    else
      var n := |samples| - 1;
      Some(Update(FoldFrom(state, samples[..n]), samples[n]))
  }

  function Fold(samples: seq<Sample>): Option<Ewma> {
    FoldFrom(None, samples)
  }

  lemma {:induction false} FoldConcat(state: Option<Ewma>, a: seq<Sample>, b: seq<Sample>)
    ensures FoldFrom(state, a + b) == FoldFrom(FoldFrom(state, a), b)
    decreases |b|
  {
    if b == [] {
      assert a + b == a;
    } else {
      var n := |b| - 1;
      assert (a + b)[..|a + b| - 1] == a + b[..n];
      FoldConcat(state, a, b[..n]);
    }
  }

  /** A sample that resets makes everything before it irrelevant. */
  lemma OnlyLastSegmentCounts(samples: seq<Sample>, k: nat)
    requires 0 < k < |samples| && Resets(Fold(samples[..k]).value, samples[k])
    ensures Fold(samples) == Fold(samples[k..])
  {
    var head, rest := samples[..k + 1], samples[k + 1..];
    assert samples == head + rest && samples[k..] == [samples[k]] + rest;
    assert head[..k] == samples[..k] && [samples[k]][..0] == [];
    FoldConcat(None, head, rest);
    FoldConcat(None, [samples[k]], rest);
  }

  /** The raw rates measured since the last reset. */
  function RawRates(samples: seq<Sample>): seq<real> {
    if samples == [] then []
    else
      var n := |samples| - 1;
      var s := samples[n];
      match Fold(samples[..n])
      case None => []
      case Some(st) =>
        if s.recordedAt as real == st.lastTime then RawRates(samples[..n])
        else if Resets(st, s) then []
        else RawRates(samples[..n]) + [RawRate(st, s)]
  }

  /** The exponentially weighted mean of a list of rates. */
  function Mean(rates: seq<real>): real
    requires rates != []
  {
    var n := |rates| - 1;
    if n == 0 then rates[0] else ALPHA * rates[n] + (1.0 - ALPHA) * Mean(rates[..n])
  }

  lemma {:induction false} MeanWithin(rates: seq<real>, lo: real, hi: real)
    requires rates != [] && forall k :: 0 <= k < |rates| ==> lo <= rates[k] <= hi
    ensures lo <= Mean(rates) <= hi
  {
    var n := |rates| - 1;
    if n > 0 {
      MeanWithin(rates[..n], lo, hi);
    }
  }

  lemma {:induction false} RateIsMean(samples: seq<Sample>)
    ensures var st, rates := Fold(samples), RawRates(samples);
      && (st.None? <==> samples == [])
      && (st.Some? ==> (st.value.rate.Some? <==> rates != []))
      && (rates != [] ==> st.Some? && st.value.rate == Some(Mean(rates)))
      && (rates != [] ==> Mean(rates) >= 0.0)
      && forall k :: 0 <= k < |rates| ==> rates[k] >= 0.0
  {
    if samples != [] {
      var n := |samples| - 1;
      RateIsMean(samples[..n]);
      var before, rates := RawRates(samples[..n]), RawRates(samples);
      if |rates| > |before| {
        assert rates[..|rates| - 1] == before;
      }
    }
  }

  /**
   An established rate lies between any bounds of the raw rates measured since the last reset, and is
   never negative.
   */
  lemma RateWithinSegment(samples: seq<Sample>, lo: real, hi: real)
    requires Fold(samples).Some? && Fold(samples).value.rate.Some?
    requires forall k :: 0 <= k < |RawRates(samples)| ==> lo <= RawRates(samples)[k] <= hi
    ensures RawRates(samples) != []
    ensures lo <= Fold(samples).value.rate.value <= hi
    ensures Fold(samples).value.rate.value >= 0.0
  {
    RateIsMean(samples);
    MeanWithin(RawRates(samples), lo, hi);
  }

  // ---------- the rate, read off the samples ----------

  /** The samples without those taken at the same instant as the one kept before. */
  function Kept(samples: seq<Sample>): seq<Sample> {
    if samples == [] then []
    else
      var n := |samples| - 1;
      var kept := Kept(samples[..n]);
      if kept != [] && kept[|kept| - 1].recordedAt == samples[n].recordedAt then kept else kept + [samples[n]]
  }

  /** A second sample of the same instant changes nothing; the last one kept is what the next is compared with. */
  lemma {:induction false} KeptDecide(samples: seq<Sample>)
    ensures Fold(samples) == Fold(Kept(samples))
    ensures Kept(samples) == [] <==> samples == []
    ensures samples != [] ==>
      var last := Kept(samples)[|Kept(samples)| - 1];
      var st := Fold(samples).value;
      && st.lastUsed == last.used && st.lastTime == last.recordedAt as real && st.lastReset == last.resetAt
  {
    if samples != [] {
      var n := |samples| - 1;
      var kept := Kept(samples[..n]);
      KeptDecide(samples[..n]);
      if |Kept(samples)| > |kept| {
        assert (kept + [samples[n]])[..|kept|] == kept;
      }
    }
  }

  /** The rate that a history has established. */
  function RateOf(samples: seq<Sample>): Option<real> {
    match Fold(samples)
    case Some(st) => st.rate
    case None => None
  }

  /**
   One more sample `y` after `x`: falling usage or another window start anew; otherwise the rise per second
   counts for two fifths, or for all if it is the first.
   */
  lemma RateGrows(samples: seq<Sample>, x: Sample, y: Sample)
    requires Kept(samples) != [] && x == Kept(samples)[|Kept(samples)| - 1] && y.recordedAt != x.recordedAt
    ensures var before, after := RateOf(samples), RateOf(samples + [y]);
      if || y.used < x.used
         || (x.resetAt.Some? && y.resetAt.Some? && x.resetAt.value != y.resetAt.value)
      then after == None
      else
        && after.Some?
        && var rise := Max((y.used - x.used) / (y.recordedAt as real - x.recordedAt as real), 0.0);
           after.value == if before.None? then rise else 2.0 / 5.0 * rise + 3.0 / 5.0 * before.value
  {
    KeptDecide(samples);
    assert samples != [];
    assert (samples + [y])[..|samples|] == samples;
  }

  // ---------- the forecast ----------

  datatype RiskLevel = Safe | Warning | Danger | Critical

  datatype Forecast = Forecast(
    risk: real,
    level: RiskLevel,
    rate: real,
    burnRate: real,
    used: real,
    secondsUntilReset: real,
    secondsUntilExhaustion: Option<real>,
    exhaustionAt: Option<int>
  )

  function BurnRate(rate: real, remaining: real, secs: real): real {
    if rate == 0.0 || secs == 0.0 then 0.0
    else
      var sustainable := remaining / secs;
      if sustainable == 0.0 then 0.0 else rate / sustainable
  }

  function Risk(used: real, rate: real, secs: real): real {
    Min((used + Max(rate, 0.0) * secs) / 100.0, 1.0)
  }

  function Classify(risk: real): RiskLevel {
    if risk >= RISK_CRITICAL then Critical
    else if risk >= RISK_DANGER then Danger
    else if risk >= RISK_WARNING then Warning
    else Safe
  }

  /** Conversion to an integer drops the fraction. */
  function Truncate(x: real): int {
    if x >= 0.0 then x.Floor else -(-x).Floor
  }

  /** The time left of the latest sample's window; `None` once it is over. */
  function TimeLeft(latest: Sample, now: int): Option<real> {
    match latest.resetAt
    case Some(resetAt) => if resetAt - now > 0 then Some((resetAt - now) as real) else None
    case None =>
      (match latest.windowMinutes
       case Some(minutes) => Some((minutes * 60) as real)
       case None => Some(0.0))
  }

  function Exhaustion(used: real, rate: real, secs: real): Option<real> {
    if rate > 0.0 && secs > 0.0 && (100.0 - used) / rate <= secs then Some((100.0 - used) / rate) else None
  }

  function ForecastOf(samples: seq<Sample>, now: int): Option<Forecast> {
    if |samples| < 2 then None
    else
      var latest := samples[|samples| - 1];
      match (Fold(samples).value.rate, TimeLeft(latest, now))
      case (Some(rate), Some(secs)) =>
        var risk := Risk(latest.used, rate, secs);
        var exhaustion := Exhaustion(latest.used, rate, secs);
        var burnRate := BurnRate(rate, 100.0 - latest.used, secs);
        Some(Forecast(risk, Classify(risk), rate, burnRate, latest.used, secs, exhaustion,
                      if exhaustion.Some? then Some(now + Truncate(exhaustion.value)) else None))
      case _ => None
  }

  method ComputeDepletion(samples: seq<Sample>, now: int) returns (forecast: Option<Forecast>)
    ensures forecast == ForecastOf(samples, now)
  {
    if |samples| < 2 {
      return None;
    }
    var state: Option<Ewma> := None;
    for i := 0 to |samples|
      invariant state == Fold(samples[..i])
    {
      assert samples[..i + 1][..i] == samples[..i];
      state := Some(Update(state, samples[i]));
    }
    assert samples[..|samples|] == samples;
    if state.value.rate.None? {
      return None;
    }
    var rate := state.value.rate.value;
    var latest := samples[|samples| - 1];
    var secs := 0.0;
    if latest.resetAt.Some? {
      var left := latest.resetAt.value - now;
      secs := (if left > 0 then left else 0) as real;
      if secs == 0.0 {
        return None;
      }
    } else if latest.windowMinutes.Some? {
      secs := (latest.windowMinutes.value * 60) as real;
    }
    var risk := Risk(latest.used, rate, secs);
    var burnRate := BurnRate(rate, 100.0 - latest.used, secs);
    var exhaustion: Option<real> := None;
    var at: Option<int> := None;
    if rate > 0.0 && secs > 0.0 {
      var wait := (100.0 - latest.used) / rate;
      if wait <= secs {
        exhaustion, at := Some(wait), Some(now + Truncate(wait));
      }
    }
    return Some(Forecast(risk, Classify(risk), rate, burnRate, latest.used, secs, exhaustion, at));
  }

  lemma DivideOrder(x: real, y: real, z: real)
    requires y > 0.0
    ensures x / y <= z <==> x <= z * y
    ensures z <= x / y <==> z * y <= x
  {
    var q := x / y;
    assert q * y == x;
    assert q <= z <==> q * y <= z * y;
    assert z <= q <==> z * y <= q * y;
  }

  /** An exhaustion is foreseen, the risk is one, the burn rate has reached one: all of it or none of it. */
  predicate Agree(exhausts: bool, risk: real, burnRate: real) {
    (exhausts <==> risk == 1.0) && (exhausts <==> burnRate >= 1.0)
  }

  /** What the sustainable rate has to do with exhaustion, below a full account and beyond it. */
  lemma BurnRateReachesOne(rate: real, left: real, secs: real)
    requires rate > 0.0 && secs > 0.0
    ensures left > 0.0 ==> (BurnRate(rate, left, secs) >= 1.0 <==> left <= rate * secs)
    ensures left <= 0.0 ==> BurnRate(rate, left, secs) <= 0.0
  {
    var sustainable := left / secs;
    assert sustainable * secs == left;
    DivideOrder(left, secs, rate);
    if left > 0.0 {
      DivideOrder(left, secs, 0.0);
      DivideOrder(rate, sustainable, 1.0);
    } else if left < 0.0 {
      DivideOrder(left, secs, 0.0);
      NegativeQuotient(rate, sustainable);
    }
  }

  lemma NegativeQuotient(x: real, y: real)
    requires x >= 0.0 && y < 0.0
    ensures x / y <= 0.0
  {
    var q := x / y;
    assert q * y == x;
    assert q > 0.0 ==> q * y < 0.0;
  }

  lemma NeverBurns(rate: real, left: real, secs: real)
    requires rate >= 0.0 && left > 0.0 && (rate == 0.0 || secs <= 0.0)
    ensures BurnRate(rate, left, secs) <= 0.0
  {
    if rate > 0.0 && secs < 0.0 {
      var sustainable := left / secs;
      NegativeQuotient(left, secs);
      if sustainable < 0.0 {
        NegativeQuotient(rate, sustainable);
      }
    }
  }

  /** An exhaustion is foreseen exactly when the risk is one, also for an account that is exhausted already. */
  lemma ExhaustionIffCertain(used: real, rate: real, secs: real)
    requires rate > 0.0 && secs > 0.0
    ensures Exhaustion(used, rate, secs).Some? <==> Risk(used, rate, secs) == 1.0
    ensures Exhaustion(used, rate, secs).Some? ==> Exhaustion(used, rate, secs).value <= secs
    ensures Exhaustion(used, rate, secs).Some? ==> (Exhaustion(used, rate, secs).value > 0.0 <==> used < 100.0)
    ensures Exhaustion(used, rate, secs).Some? ==> (Exhaustion(used, rate, secs).value >= 0.0 <==> used <= 100.0)
  {
    var left := 100.0 - used;
    DivideOrder(left, rate, secs);
    DivideOrder(left, rate, 0.0);
  }

  /** Beyond full usage with a negative time left, either the risk is one or the burn rate reaches one. */
  lemma NegativeTimeLeft(used: real, rate: real, secs: real)
    requires rate > 0.0 && secs < 0.0 && used >= 100.0
    ensures used == 100.0 ==> Risk(used, rate, secs) < 1.0 && BurnRate(rate, 100.0 - used, secs) == 0.0
    ensures used > 100.0 ==> Risk(used, rate, secs) == 1.0 || BurnRate(rate, 100.0 - used, secs) >= 1.0
  {
    RiskOrder(used, rate, secs);
    assert rate * secs < 0.0;
    var left := 100.0 - used;
    if used > 100.0 {
      var sustainable := left / secs;
      assert sustainable * secs == left;
      assert sustainable > 0.0 by {
        assert sustainable <= 0.0 ==> sustainable * secs >= 0.0;
      }
      DivideOrder(rate, sustainable, 1.0);
      if rate < sustainable {
        assert rate * secs > sustainable * secs;
      }
    } else {
      assert 0.0 / secs == 0.0;
    }
  }

  /**
   The three signals agree exactly below full usage: on an exhausted account the burn rate reads at most
   zero. The one exception takes a negative time left, at full usage to the point.
   */
  lemma SignalsAgree(used: real, rate: real, secs: real)
    requires rate >= 0.0
    ensures Agree(Exhaustion(used, rate, secs).Some?, Risk(used, rate, secs), BurnRate(rate, 100.0 - used, secs))
      <==> used < 100.0 || (used == 100.0 && secs < 0.0 && rate > 0.0)
  {
    hide BurnRate, Risk, Exhaustion;
    RiskOrder(used, rate, secs);
    NoExhaustion(used, rate, secs);
    if rate > 0.0 && secs > 0.0 {
      ExhaustionIffCertain(used, rate, secs);
      BurnRateReachesOne(rate, 100.0 - used, secs);
    } else if used < 100.0 {
      NeverBurns(rate, 100.0 - used, secs);
    } else if rate > 0.0 && secs < 0.0 {
      NegativeTimeLeft(used, rate, secs);
    }
  }

  lemma NoExhaustion(used: real, rate: real, secs: real)
    ensures rate <= 0.0 || secs <= 0.0 ==> Exhaustion(used, rate, secs).None?
  {
  }

  lemma RiskOrder(used: real, rate: real, secs: real)
    requires rate >= 0.0
    ensures Risk(used, rate, secs) <= 1.0
    ensures Risk(used, rate, secs) == 1.0 <==> 100.0 - used <= rate * secs
    ensures (rate == 0.0 || secs == 0.0 ==> rate * secs == 0.0) && (secs <= 0.0 ==> rate * secs <= 0.0)
    ensures secs >= 0.0 ==> rate * secs >= 0.0
  {
    hide Exhaustion, BurnRate;
    var x := (used + Max(rate, 0.0) * secs) / 100.0;
    assert x * 100.0 == used + rate * secs;
  }

  /** The same of a whole forecast, with the instant it names. */
  lemma ForecastAgrees(samples: seq<Sample>, now: int)
    requires ForecastOf(samples, now).Some?
    ensures var f := ForecastOf(samples, now).value;
      && f.rate >= 0.0
      && (Agree(f.exhaustionAt.Some?, f.risk, f.burnRate) <==>
            f.used < 100.0 || (f.used == 100.0 && f.secondsUntilReset < 0.0 && f.rate > 0.0))
      && (f.rate > 0.0 && f.secondsUntilReset > 0.0 ==> (f.exhaustionAt.Some? <==> f.risk == 1.0))
      && (f.exhaustionAt.Some? <==> f.secondsUntilExhaustion.Some?)
      && (f.exhaustionAt.Some? ==>
            && f.level.Critical?
            && f.exhaustionAt.value <= now + f.secondsUntilReset.Floor
            && (f.used <= 100.0 ==> now <= f.exhaustionAt.value))
  {
    var f := ForecastOf(samples, now).value;
    RateIsMean(samples);
    SignalsAgree(f.used, f.rate, f.secondsUntilReset);
    if f.rate > 0.0 && f.secondsUntilReset > 0.0 {
      ExhaustionIffCertain(f.used, f.rate, f.secondsUntilReset);
    }
  }

  /** The time left of the window: up to the latest sample's reset, else its whole length, else none. */
  lemma ForecastIff(samples: seq<Sample>, now: int)
    ensures ForecastOf(samples, now).Some? <==>
      |samples| >= 2 && RateOf(samples).Some? &&
      (samples[|samples| - 1].resetAt.Some? ==> samples[|samples| - 1].resetAt.value > now)
  {
    RateIsMean(samples);
  }

  /** The risk is the share of the window used by its end, at most one. */
  predicate IsRisk(risk: real, used: real, rate: real, secs: real) {
    if used + rate * secs >= 100.0 then risk == 1.0 else 100.0 * risk == used + rate * secs
  }

  /** The burn rate is the use to come as a multiple of what is left. */
  predicate IsBurnRate(burnRate: real, left: real, rate: real, secs: real) {
    if rate == 0.0 || secs == 0.0 || left == 0.0 then burnRate == 0.0 else burnRate * left == rate * secs
  }

  /** Every figure of a forecast, in terms of the latest sample, the rate and the time. */
  lemma ForecastFigures(samples: seq<Sample>, now: int)
    requires ForecastOf(samples, now).Some?
    ensures |samples| >= 2 && RateOf(samples).Some?
    ensures var f, latest := ForecastOf(samples, now).value, samples[|samples| - 1];
      && f.used == latest.used && Some(f.rate) == RateOf(samples)
      && (f.secondsUntilReset ==
            if latest.resetAt.Some? then (latest.resetAt.value - now) as real
            else if latest.windowMinutes.Some? then (60 * latest.windowMinutes.value) as real
            else 0.0)
      && IsRisk(f.risk, f.used, f.rate, f.secondsUntilReset)
      && (f.level == if f.risk >= 0.95 then Critical else if f.risk >= 0.8 then Danger
                     else if f.risk >= 0.6 then Warning else Safe)
      && IsBurnRate(f.burnRate, 100.0 - f.used, f.rate, f.secondsUntilReset)
  {
    hide Fold, RawRates, Risk, BurnRate, Exhaustion, IsRisk, IsBurnRate;
    var f := ForecastOf(samples, now).value;
    RateIsMean(samples);
    RiskFigure(f.used, f.rate, f.secondsUntilReset);
    BurnFigure(f.rate, 100.0 - f.used, f.secondsUntilReset);
  }

  lemma RiskFigure(used: real, rate: real, secs: real)
    requires rate >= 0.0
    ensures IsRisk(Risk(used, rate, secs), used, rate, secs)
  {
    var projected := used + Max(rate, 0.0) * secs;
    assert Max(rate, 0.0) == rate;
    var x := projected / 100.0;
    assert Risk(used, rate, secs) == Min(x, 1.0) && 100.0 * x == projected;
  }

  lemma BurnFigure(rate: real, left: real, secs: real)
    ensures IsBurnRate(BurnRate(rate, left, secs), left, rate, secs)
  {
    if rate != 0.0 && secs != 0.0 {
      var sustainable := left / secs;
      assert sustainable * secs == left;
      if left == 0.0 {
        assert 0.0 / secs == 0.0;
      } else {
        var q := rate / sustainable;
        assert q * sustainable == rate;
        assert q * left == q * sustainable * secs;
      }
    }
  }

  /** The instant that is named: after what is left has been used at the rate, in whole seconds from now. */
  lemma ExhaustionFigure(samples: seq<Sample>, now: int)
    requires ForecastOf(samples, now).Some? && ForecastOf(samples, now).value.exhaustionAt.Some?
    ensures var f := ForecastOf(samples, now).value;
      && f.secondsUntilExhaustion.Some?
      && f.rate * f.secondsUntilExhaustion.value == 100.0 - f.used
      && (f.used <= 100.0 ==> f.exhaustionAt.value == now + f.secondsUntilExhaustion.value.Floor)
      && (f.used > 100.0 ==> f.exhaustionAt.value == now - (-f.secondsUntilExhaustion.value).Floor)
  {
    hide Fold, Risk, BurnRate;
    var f := ForecastOf(samples, now).value;
    TimesBack(100.0 - f.used, f.rate);
  }

  lemma TimesBack(x: real, y: real)
    requires y > 0.0
    ensures y * (x / y) == x
    ensures x >= 0.0 <==> x / y >= 0.0
  {
    DivideOrder(x, y, 0.0);
  }
}
