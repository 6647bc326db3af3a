/** Observed burn per unit of work, the pool's reference burn, and the capacity derived from both. */
module Capacity {
  import opened Common

  const MIN_WORK := 2000000.0
  const MIN_PERCENT := 3.0
  const MIN_FACTOR := 0.25
  const MAX_FACTOR := 4.0

  datatype Sample = Sample(used: real, work: real, resetAt: Option<int>)

  datatype Burn = Burn(percentPerWork: real, percent: real, work: real)

  predicate Rolled(a: Sample, b: Sample) {
    a.resetAt.Some? && b.resetAt.Some? && a.resetAt.value != b.resetAt.value
  }

  /** The step from `a` to `b` is consumption within one window. */
  predicate Counts(a: Sample, b: Sample) {
    !Rolled(a, b) && b.used >= a.used && b.work >= a.work
  }

  function Plus(a: (real, real), b: (real, real)): (real, real) {
    (a.0 + b.0, a.1 + b.1)
  }

  /** Percent and work of one step. */
  function StepOf(a: Sample, b: Sample): (real, real) {
    if Counts(a, b) then (b.used - a.used, b.work - a.work) else (0.0, 0.0)
  }

  /** Percent and work of all steps that count. */
  function Totals(samples: seq<Sample>): (real, real) {
    if |samples| < 2 then (0.0, 0.0)
    else
      var n := |samples| - 1;
      Plus(Totals(samples[..n]), StepOf(samples[n - 1], samples[n]))
  }

  function BurnOf(samples: seq<Sample>): Option<Burn> {
    var (percent, work) := Totals(samples);
    if work < MIN_WORK || percent < MIN_PERCENT then None else Some(Burn(percent / work, percent, work))
  }

  method ObservedBurn(samples: seq<Sample>) returns (burn: Option<Burn>)
    ensures burn == BurnOf(samples)
  {
    var totalPercent, totalWork := 0.0, 0.0;
    var i := 1;
    while i < |samples|
      invariant 1 <= i
      invariant |samples| > 0 ==> i <= |samples| && (totalPercent, totalWork) == Totals(samples[..i])
      invariant samples == [] ==> (totalPercent, totalWork) == (0.0, 0.0)
    {
      var prev, next := samples[i - 1], samples[i];
      var deltaPercent, deltaWork := next.used - prev.used, next.work - prev.work;
      assert samples[..i + 1][..i] == samples[..i];
      if !Rolled(prev, next) && deltaPercent >= 0.0 && deltaWork >= 0.0 {
        totalPercent := totalPercent + deltaPercent;
        totalWork := totalWork + deltaWork;
      }
      i := i + 1;
    }
    assert samples[..|samples|] == samples;
    if totalWork < MIN_WORK || totalPercent < MIN_PERCENT {
      return None;
    }
    return Some(Burn(totalPercent / totalWork, totalPercent, totalWork));
  }

  /** Over a stretch in which every step counts, only its ends matter. */
  lemma {:induction false} SegmentTelescopes(samples: seq<Sample>)
    requires samples != [] && forall k :: 0 < k < |samples| ==> Counts(samples[k - 1], samples[k])
    ensures var first, last := samples[0], samples[|samples| - 1];
      Totals(samples) == (last.used - first.used, last.work - first.work)
  {
    if |samples| > 1 {
      SegmentTelescopes(samples[..|samples| - 1]);
    }
  }

  /** One more sample adds its rise, unless the window rolled or something fell. */
  lemma TotalsGrow(samples: seq<Sample>, x: Sample, y: Sample)
    ensures var (percent, work) := Totals(samples + [x]);
      Totals(samples + [x] + [y]) ==
      if || (x.resetAt.Some? && y.resetAt.Some? && x.resetAt.value != y.resetAt.value)
         || y.used < x.used || y.work < x.work
      then (percent, work)
      else (percent + (y.used - x.used), work + (y.work - x.work))
    ensures Totals([x]) == (0.0, 0.0)
  {
    TotalsAppend(samples, x, y);
  }

  /** A burn is reported exactly on enough evidence, and accounts for all of it. */
  lemma BurnAccounts(samples: seq<Sample>)
    ensures var (percent, work) := Totals(samples);
      && (BurnOf(samples).Some? <==> percent >= 3.0 && work >= 2000000.0)
      && (BurnOf(samples).Some? ==>
            var b := BurnOf(samples).value;
            b.percent == percent && b.work == work && b.percentPerWork * work == percent)
  {
  }

  lemma PlusAssociates(a: (real, real), b: (real, real), c: (real, real))
    ensures Plus(a, Plus(b, c)) == Plus(Plus(a, b), c)
  {
  }

  lemma TotalsAppend(s: seq<Sample>, x: Sample, y: Sample)
    ensures Totals(s + [x] + [y]) == Plus(Totals(s + [x]), StepOf(x, y))
  {
    var t := s + [x] + [y];
    assert t[..|t| - 1] == s + [x] && t[|t| - 2] == x && t[|t| - 1] == y;
  }

  /** Two histories that share a sample add up. */
  lemma {:induction false} TotalsSplit(a: seq<Sample>, x: Sample, b: seq<Sample>)
    ensures Totals(a + [x] + b) == Plus(Totals(a + [x]), Totals([x] + b))
  {
    hide Plus, StepOf;
    if b == [] {
      assert a + [x] + b == a + [x] && [x] + b == [x];
      PlusNothing(Totals(a + [x]));
    } else {
      var n := |b| - 1;
      var y := b[n];
      TotalsSplit(a, x, b[..n]);
      var whole, part := a + [x] + b, [x] + b;
      var k := |a| + n;
      assert whole[..k] + [whole[k]] + [y] == whole && part[..n] + [part[n]] + [y] == part;
      assert whole[..k] + [whole[k]] == a + [x] + b[..n] && part[..n] + [part[n]] == [x] + b[..n];
      assert whole[k] == part[n];
      TotalsAppend(whole[..k], whole[k], y);
      TotalsAppend(part[..n], part[n], y);
      PlusAssociates(Totals(a + [x]), Totals([x] + b[..n]), StepOf(part[n], y));
    }
  }

  lemma PlusNothing(a: (real, real))
    ensures Plus(a, (0.0, 0.0)) == a
  {
  }

  lemma TotalsOfTwo(p: Sample, q: Sample)
    ensures Totals([p] + [q]) == StepOf(p, q)
  {
    assert ([p] + [q])[..1] == [p];
  }

  lemma TotalsOfThree(p: Sample, m: Sample, q: Sample)
    ensures Totals([p] + [m] + [q]) == Plus(StepOf(p, m), StepOf(m, q))
  {
    TotalsAppend([p], m, q);
    TotalsOfTwo(p, m);
  }

  lemma PlusCancels(a: (real, real), x: (real, real), y: (real, real), b: (real, real))
    ensures Plus(a, Plus(x, b)) == Plus(a, Plus(y, b)) <==> x == y
  {
  }

  /**
   A further sample between two, reached and left by steps that count, changes the totals only if it
   hides that the window rolled: it must lack a reset time while its neighbours have different ones.
   */
  lemma ExtraSampleIffNotHidingRoll(a: seq<Sample>, p: Sample, m: Sample, q: Sample, b: seq<Sample>)
    requires Counts(p, m) && Counts(m, q)
    ensures Totals(a + [p] + ([m] + [q] + b)) == Totals(a + [p] + ([q] + b))
      <==> !Rolled(p, q) || (p.used == q.used && p.work == q.work)
    ensures Rolled(p, q) ==> m.resetAt.None?
  {
    hide Totals;
    TotalsSplit(a, p, [m] + [q] + b);
    TotalsSplit(a, p, [q] + b);
    assert [p] + ([m] + [q] + b) == ([p] + [m]) + [q] + b && [p] + ([q] + b) == [p] + [q] + b;
    TotalsSplit([p] + [m], q, b);
    TotalsSplit([p], q, b);
    TotalsOfThree(p, m, q);
    TotalsOfTwo(p, q);
    PlusCancels(Totals(a + [p]), Plus(StepOf(p, m), StepOf(m, q)), StepOf(p, q), Totals([q] + b));
  }

  /** Such a roll does get lost: with the middle sample two points and twenty units count, without it none. */
  lemma HiddenRoll()
    ensures var p, m, q := Sample(0.0, 0.0, Some(1)), Sample(1.0, 10.0, None), Sample(2.0, 20.0, Some(2));
      Totals([p] + [m] + [q]) == (2.0, 20.0) && Totals([p] + [q]) == (0.0, 0.0)
  {
    hide Totals;
    var p, m, q := Sample(0.0, 0.0, Some(1)), Sample(1.0, 10.0, None), Sample(2.0, 20.0, Some(2));
    TotalsOfThree(p, m, q);
    TotalsOfTwo(p, q);
  }

  // ---------- the reference burn: a median ----------

  function Positive(burns: seq<real>): (r: seq<real>)
    ensures forall k :: 0 <= k < |r| ==> r[k] > 0.0
  {
    if burns == [] then []
    else if burns[0] > 0.0 then [burns[0]] + Positive(burns[1..])
    else Positive(burns[1..])
  }

  function InsertReal(x: real, s: seq<real>): seq<real> {
    if s == [] || x <= s[0] then [x] + s else [s[0]] + InsertReal(x, s[1..])
  }

  function SortReals(s: seq<real>): (r: seq<real>)
    ensures |r| == |s|
  {
    if s == [] then [] else
      InsertLength(s[0], SortReals(s[1..]));
      InsertReal(s[0], SortReals(s[1..]))
  }

  lemma InsertLength(x: real, s: seq<real>)
    ensures |InsertReal(x, s)| == |s| + 1
  {
  }

  predicate Ascending(s: seq<real>) {
    forall i, j :: 0 <= i < j < |s| ==> s[i] <= s[j]
  }

  lemma {:induction false} InsertAscending(x: real, s: seq<real>)
    requires Ascending(s)
    ensures Ascending(InsertReal(x, s))
    ensures forall i :: 0 <= i < |InsertReal(x, s)| ==> InsertReal(x, s)[i] == x || InsertReal(x, s)[i] in s
  {
    if s != [] && x > s[0] {
      InsertAscending(x, s[1..]);
    }
  }

  lemma {:induction false} SortAscending(s: seq<real>)
    ensures Ascending(SortReals(s))
  {
    if s != [] {
      SortAscending(s[1..]);
      InsertAscending(s[0], SortReals(s[1..]));
    }
  }

  /** How many of the values lie in `[lo, hi]`. */
  function Within(s: seq<real>, lo: real, hi: real): nat {
    if s == [] then 0 else (if lo <= s[0] <= hi then 1 else 0) + Within(s[1..], lo, hi)
  }

  lemma {:induction false} InsertWithin(x: real, s: seq<real>, lo: real, hi: real)
    ensures Within(InsertReal(x, s), lo, hi) == (if lo <= x <= hi then 1 else 0) + Within(s, lo, hi)
  {
    assert ([x] + s)[1..] == s;
    if s != [] && x > s[0] {
      InsertWithin(x, s[1..], lo, hi);
      assert InsertReal(x, s)[1..] == InsertReal(x, s[1..]);
    }
  }

  /** Sorting moves values and neither makes nor loses any. */
  lemma {:induction false} SortWithin(s: seq<real>, lo: real, hi: real)
    ensures Within(SortReals(s), lo, hi) == Within(s, lo, hi)
  {
    if s != [] {
      SortWithin(s[1..], lo, hi);
      InsertWithin(s[0], SortReals(s[1..]), lo, hi);
    }
  }

  lemma {:induction false} WithinSplit(s: seq<real>, k: nat, lo: real, hi: real)
    requires k <= |s|
    ensures Within(s, lo, hi) == Within(s[..k], lo, hi) + Within(s[k..], lo, hi)
  {
    if k > 0 {
      WithinSplit(s[1..], k - 1, lo, hi);
      assert s[..k][1..] == s[1..][..k - 1] && s[k..] == s[1..][k - 1..];
    } else {
      assert s[..k] == [] && s[k..] == s;
    }
  }

  lemma {:induction false} WithinBound(s: seq<real>, lo: real, hi: real)
    ensures Within(s, lo, hi) <= |s|
    ensures (forall k :: 0 <= k < |s| ==> !(lo <= s[k] <= hi)) ==> Within(s, lo, hi) == 0
  {
    if s != [] {
      WithinBound(s[1..], lo, hi);
    }
  }

  function Median(sorted: seq<real>): real
    requires sorted != []
  {
    var mid := |sorted| / 2;
    if |sorted| % 2 == 0 then (sorted[mid - 1] + sorted[mid]) / 2.0 else sorted[mid]
  }

  function ReferenceBurn(burns: seq<real>): Option<real> {
    var usable := SortReals(Positive(burns));
    if usable == [] then None else Some(Median(usable))
  }

  lemma {:induction false} InsertMultiset(x: real, s: seq<real>)
    ensures multiset(InsertReal(x, s)) == multiset(s) + multiset{x}
  {
    if s != [] && x > s[0] {
      InsertMultiset(x, s[1..]);
      assert s == [s[0]] + s[1..];
    }
  }

  lemma {:induction false} SortMultiset(s: seq<real>)
    ensures multiset(SortReals(s)) == multiset(s)
  {
    if s != [] {
      SortMultiset(s[1..]);
      InsertMultiset(s[0], SortReals(s[1..]));
      assert s == [s[0]] + s[1..];
    }
  }

  /** Two ascending lists of the same values are the same list. */
  lemma {:induction false} AscendingUnique(a: seq<real>, b: seq<real>)
    requires Ascending(a) && Ascending(b) && multiset(a) == multiset(b)
    ensures a == b
  {
    assert |a| == |multiset(a)| == |multiset(b)| == |b|;
    if a != [] {
      LeastFirst(a, b);
      LeastFirst(b, a);
      assert a == [a[0]] + a[1..] && b == [b[0]] + b[1..];
      assert multiset(a[1..]) == multiset(a) - multiset{a[0]};
      assert multiset(b[1..]) == multiset(b) - multiset{b[0]};
      assert Ascending(a[1..]) && Ascending(b[1..]);
      hide Ascending;
      AscendingUnique(a[1..], b[1..]);
    }
  }

  lemma LeastFirst(a: seq<real>, b: seq<real>)
    requires Ascending(a) && a != [] && b != [] && multiset(a) == multiset(b)
    ensures a[0] <= b[0]
  {
    assert b[0] in multiset(a);
  }

  /** The usable burns are the positive ones, each as often as it was given. */
  lemma {:induction false} UsableAre(burns: seq<real>, x: real)
    ensures multiset(Positive(burns))[x] == if x > 0.0 then multiset(burns)[x] else 0
  {
    if burns != [] {
      UsableAre(burns[1..], x);
      assert burns == [burns[0]] + burns[1..];
    }
  }

  /**
   The reference is the median: in whatever way the usable burns are put in ascending order, it is the one in
   the middle, or half-way between the two in the middle.
   */
  lemma ReferenceIsMedian(burns: seq<real>, sorted: seq<real>)
    requires Ascending(sorted) && multiset(sorted) == multiset(Positive(burns))
    ensures ReferenceBurn(burns).None? <==> sorted == []
    ensures sorted != [] ==>
      var n := |sorted|;
      2.0 * ReferenceBurn(burns).value == sorted[(n - 1) / 2] + sorted[n / 2]
  {
    hide Positive, SortReals, Ascending;
    SortAscending(Positive(burns));
    SortMultiset(Positive(burns));
    AscendingUnique(sorted, SortReals(Positive(burns)));
  }

  /** Gathers the usable burns, sorts them in place, and reads off the middle. */
  method ComputeReferenceBurn(burns: seq<real>) returns (reference: Option<real>)
    ensures reference == ReferenceBurn(burns)
  {
    var positive := Positive(burns);
    if positive == [] {
      return None;
    }
    var usable := new real[|positive|](i requires 0 <= i < |positive| => positive[i]);
    assert usable[..] == positive;
    SortInPlace(usable);
    var mid := usable.Length / 2;
    assert usable[..] == SortReals(positive);
    if usable.Length % 2 == 0 {
      return Some((usable[mid - 1] + usable[mid]) / 2.0);
    }
    return Some(usable[mid]);
  }

  method SortInPlace(a: array<real>)
    modifies a
    ensures a[..] == SortReals(old(a[..]))
  {
    var sorted := SortReals(a[..]);
    forall i | 0 <= i < a.Length {
      a[i] := sorted[i];
    }
  }

  /** With more than half of the values within bounds, neither end of the middle lies outside them. */
  lemma MiddleWithin(s: seq<real>, k: nat, lo: real, hi: real)
    requires Ascending(s) && k < |s| && 2 * Within(s, lo, hi) > |s|
    requires 2 * k <= |s| <= 2 * (k + 1)
    ensures lo <= s[k] <= hi
  {
    if s[k] < lo {
      WithinSplit(s, k + 1, lo, hi);
      WithinBound(s[..k + 1], lo, hi);
      WithinBound(s[k + 1..], lo, hi);
    } else if s[k] > hi {
      WithinSplit(s, k, lo, hi);
      WithinBound(s[..k], lo, hi);
      WithinBound(s[k..], lo, hi);
    }
  }

  /** If more than half of the usable burns lie within bounds, so does the reference. */
  lemma ReferenceWithMajority(burns: seq<real>, lo: real, hi: real)
    requires 2 * Within(Positive(burns), lo, hi) > |Positive(burns)|
    ensures ReferenceBurn(burns).Some? && lo <= ReferenceBurn(burns).value <= hi
  {
    var s := SortReals(Positive(burns));
    SortAscending(Positive(burns));
    SortWithin(Positive(burns), lo, hi);
    WithinBound(s, lo, hi);
    var mid := |s| / 2;
    MiddleWithin(s, mid, lo, hi);
    if |s| % 2 == 0 {
      MiddleWithin(s, mid - 1, lo, hi);
    }
  }

  function Factor(burn: real, reference: real): real
    requires burn > 0.0
  {
    Clamp(reference / burn, MIN_FACTOR, MAX_FACTOR)
  }

  function CapacityFromBurn(burn: real, reference: real, plan: real): Option<real> {
    if burn <= 0.0 || reference <= 0.0 || plan <= 0.0 then None else Some(plan * Factor(burn, reference))
  }

  lemma FactorAntitone(low: real, high: real, reference: real)
    requires 0.0 < low <= high && reference > 0.0
    ensures 0.25 <= Factor(high, reference) <= Factor(low, reference) <= 4.0
    ensures Factor(reference, reference) == 1.0
  {
    QuotientShrinks(reference, low, high);
    assert reference / reference == 1.0;
  }

  /** Burning more never means holding more, and a measurement moves the plan's figure at most fourfold. */
  lemma CapacityAntitone(low: real, high: real, reference: real, plan: real)
    requires 0.0 < low <= high && reference > 0.0 && plan > 0.0
    ensures var a, b := CapacityFromBurn(low, reference, plan), CapacityFromBurn(high, reference, plan);
      && a.Some? && b.Some?
      && plan * 0.25 <= b.value <= a.value <= plan * 4.0
    ensures CapacityFromBurn(reference, reference, plan) == Some(plan)
  {
    hide Factor;
    FactorAntitone(low, high, reference);
    Scaled(plan, Factor(high, reference), Factor(low, reference));
    Scaled(plan, 0.25, Factor(high, reference));
    Scaled(plan, Factor(low, reference), 4.0);
  }

  /** A capacity is derived exactly from positive figures. */
  lemma DerivedIff(burn: real, reference: real, plan: real)
    ensures CapacityFromBurn(burn, reference, plan).Some? <==> burn > 0.0 && reference > 0.0 && plan > 0.0
  {
    hide Factor;
  }

  /** Between a quarter and four times the reference, burn and capacity are in exact inverse proportion. */
  lemma InverseProportion(burn: real, reference: real, plan: real)
    requires burn > 0.0 && reference > 0.0 && plan > 0.0
    requires reference <= 4.0 * burn && burn <= 4.0 * reference
    ensures CapacityFromBurn(burn, reference, plan).Some?
    ensures CapacityFromBurn(burn, reference, plan).value * burn == plan * reference
  {
    ExactFactor(burn, reference);
    hide Factor;
    assert plan * Factor(burn, reference) * burn == plan * (Factor(burn, reference) * burn);
  }

  /** Between a quarter and four times the reference, the factor is the exact proportion. */
  lemma ExactFactor(burn: real, reference: real)
    requires burn > 0.0 && reference > 0.0
    ensures reference <= 4.0 * burn && burn <= 4.0 * reference ==> Factor(burn, reference) * burn == reference
  {
    var q := reference / burn;
    assert q * burn == reference;
    if q > 4.0 {
      Times(burn, 4.0, q);
    } else if q < 0.25 {
      Times(burn, q, 0.25);
    }
  }

  lemma Times(burn: real, x: real, y: real)
    requires burn > 0.0 && x < y
    ensures x * burn < y * burn
  {
  }
}
