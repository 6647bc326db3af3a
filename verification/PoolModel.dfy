/**
 The accounts of the weekly pool simulation, their reset order, and the drain.

 A pool is a sequence of accounts. Each account holds a perishable balance that is replaced by
 `full` at its own reset, after which the reset moves one window further on.
 */
module PoolModel {
  import opened Common

  datatype SimAccount = SimAccount(full: real, balance: real, resetAt: real, window: real)

  type Pool = seq<SimAccount>

  function Total(s: Pool): real {
    if s == [] then 0.0 else s[0].balance + Total(s[1..])
  }

  predicate InBounds(s: Pool) {
    forall i :: 0 <= i < |s| ==> 0.0 <= s[i].balance <= s[i].full && s[i].window > 0.0
  }

  predicate Sorted(s: Pool) {
    forall i, j :: 0 <= i < j < |s| ==> s[i].resetAt <= s[j].resetAt
  }

  /** The two pools describe the same accounts with the same resets; only balances may differ. */
  predicate SameSchedule(s: Pool, t: Pool) {
    && |s| == |t|
    && forall i :: 0 <= i < |s| ==> s[i].(balance := 0.0) == t[i].(balance := 0.0)
  }

  // ---------- reset boundaries ----------

  /** The reset boundary `k` windows on. */
  function Boundary(resetAt: real, window: real, k: nat): real {
    resetAt + k as real * window
  }

  /** Some account of the pool resets at `t`, now or in a later window. */
  ghost predicate IsBoundary(s: Pool, t: real) {
    exists a, k: nat :: a in s && t == Boundary(a.resetAt, a.window, k)
  }

  // ---------- totals ----------

  lemma {:induction false} TotalConcat(s: Pool, t: Pool)
    ensures Total(s + t) == Total(s) + Total(t)
  {
    if s == [] {
      assert s + t == t;
    } else {
      assert (s + t)[1..] == s[1..] + t;
      TotalConcat(s[1..], t);
    }
  }

  lemma TotalUpdate(s: Pool, i: nat, x: SimAccount)
    requires i < |s|
    ensures Total(s[i := x]) == Total(s) - s[i].balance + x.balance
  {
    if i > 0 {
      assert s[i := x][1..] == s[1..][i - 1 := x];
      TotalUpdate(s[1..], i - 1, x);
    } else {
      assert s[i := x][1..] == s[1..];
    }
  }

  lemma {:induction false} TotalMonotone(s: Pool, t: Pool)
    requires |s| == |t|
    requires forall i :: 0 <= i < |s| ==> s[i].balance <= t[i].balance
    ensures Total(s) <= Total(t)
  {
    if s != [] {
      TotalMonotone(s[1..], t[1..]);
    }
  }

  lemma TotalNonNegative(s: Pool)
    requires forall i :: 0 <= i < |s| ==> s[i].balance >= 0.0
    ensures Total(s) >= 0.0
  {
  }

  lemma {:induction false} TotalSuffix(s: Pool, k: nat)
    requires k <= |s|
    requires forall i :: 0 <= i < |s| ==> s[i].balance >= 0.0
    ensures Total(s[k..]) <= Total(s)
  {
    assert s == s[..k] + s[k..];
    TotalConcat(s[..k], s[k..]);
    TotalNonNegative(s[..k]);
  }

  // ---------- the stable sort by reset ----------

  /** Places `x` in front of every account that resets no earlier. */
  function Insert(x: SimAccount, s: Pool): (r: Pool)
    ensures |r| == |s| + 1
    ensures multiset(r) == multiset(s) + multiset{x}
    ensures Total(r) == Total(s) + x.balance
  {
    if s == [] || x.resetAt <= s[0].resetAt then
      [x] + s
    else
      var r := [s[0]] + Insert(x, s[1..]);
      assert s == [s[0]] + s[1..];
      r
  }

  function StableSort(s: Pool): (r: Pool)
    ensures |r| == |s|
    ensures multiset(r) == multiset(s)
    ensures Total(r) == Total(s)
  {
    if s == [] then []
    else
      assert s == [s[0]] + s[1..];
      Insert(s[0], StableSort(s[1..]))
  }

  lemma InsertSorted(x: SimAccount, s: Pool)
    requires Sorted(s)
    ensures Sorted(Insert(x, s))
  {
    if s != [] && x.resetAt > s[0].resetAt {
      InsertSorted(x, s[1..]);
      var r := Insert(x, s[1..]);
      forall j | 0 <= j < |r| ensures s[0].resetAt <= r[j].resetAt {
        assert r[j] in multiset(r);
      }
    }
  }

  lemma {:induction false} SortSorted(s: Pool)
    ensures Sorted(StableSort(s))
  {
    if s != [] {
      SortSorted(s[1..]);
      InsertSorted(s[0], StableSort(s[1..]));
    }
  }

  lemma {:induction false} SortOfSorted(s: Pool)
    requires Sorted(s)
    ensures StableSort(s) == s
  {
    if s != [] {
      SortOfSorted(s[1..]);
      assert s == [s[0]] + s[1..];
    }
  }

  /** The accounts that share the reset `r`, in the order in which they stand. */
  function WithReset(s: Pool, r: real): Pool {
    if s == [] then []
    else if s[0].resetAt == r then [s[0]] + WithReset(s[1..], r)
    else WithReset(s[1..], r)
  }

  lemma InsertStable(x: SimAccount, s: Pool, r: real)
    ensures WithReset(Insert(x, s), r) == WithReset([x] + s, r)
  {
    assert ([x] + s)[1..] == s;
    if s != [] && x.resetAt > s[0].resetAt {
      InsertStable(x, s[1..], r);
      assert ([x] + s[1..])[1..] == s[1..];
      assert Insert(x, s)[1..] == Insert(x, s[1..]);
    }
  }

  /** The sort is stable: it never reorders accounts with the same reset. */
  lemma {:induction false} SortStable(s: Pool, r: real)
    ensures WithReset(StableSort(s), r) == WithReset(s, r)
  {
    if s != [] {
      SortStable(s[1..], r);
      InsertStable(s[0], StableSort(s[1..]), r);
      assert ([s[0]] + StableSort(s[1..]))[1..] == StableSort(s[1..]);
    }
  }

  lemma InBoundsFromMultiset(s: Pool, r: Pool)
    requires InBounds(s) && multiset(r) == multiset(s)
    ensures InBounds(r)
  {
    forall i | 0 <= i < |r| ensures r[i] in s {
      assert r[i] in multiset(r);
    }
  }

  // ---------- the drain of a pool that stands in reset order ----------

  /** Takes `amount` from the front of the pool on, account by account, until it is met. */
  function Drain(s: Pool, amount: real): (r: Pool)
    ensures SameSchedule(s, r)
  {
    if s == [] || amount <= 0.0 then s
    else
      var consumed := Min(s[0].balance, amount);
      [s[0].(balance := s[0].balance - consumed)] + Drain(s[1..], amount - consumed)
  }

  lemma DrainBounds(s: Pool, amount: real)
    requires forall i :: 0 <= i < |s| ==> s[i].balance >= 0.0
    ensures forall i :: 0 <= i < |s| ==> 0.0 <= Drain(s, amount)[i].balance <= s[i].balance
  {
  }

  /**
   What a drain leaves behind the first `k` accounts: everything it held, capped by what the whole
   pool has left. At `k == 0` this is conservation: exactly the asked amount is gone.
   */
  lemma {:induction false} DrainSuffix(s: Pool, amount: real, k: nat)
    requires forall i :: 0 <= i < |s| ==> s[i].balance >= 0.0
    requires 0.0 <= amount <= Total(s) && k <= |s|
    ensures Total(Drain(s, amount)[k..]) == Min(Total(s[k..]), Total(s) - amount)
  {
    if amount == 0.0 {
      TotalSuffix(s, k);
    } else if s != [] {
      var consumed := Min(s[0].balance, amount);
      var d := Drain(s, amount);
      assert d[1..] == Drain(s[1..], amount - consumed);
      TotalNonNegative(s[1..]);
      if k == 0 {
        DrainSuffix(s[1..], amount - consumed, 0);
        assert d[1..][0..] == d[1..] && s[1..][0..] == s[1..] && d[0..] == d && s[0..] == s;
      } else {
        DrainSuffix(s[1..], amount - consumed, k - 1);
        assert d[k..] == d[1..][k - 1..] && s[k..] == s[1..][k - 1..];
        TotalSuffix(s[1..], k - 1);
      }
    }
  }

  /** Draining in two goes is draining once: intervals may be cut anywhere. */
  lemma {:induction false} DrainSplit(s: Pool, a: real, b: real)
    requires forall i :: 0 <= i < |s| ==> s[i].balance >= 0.0
    requires a >= 0.0 && b >= 0.0
    ensures Drain(Drain(s, a), b) == Drain(s, a + b)
  {
    if s != [] && a > 0.0 && b > 0.0 {
      var c := Min(s[0].balance, a);
      var d := Drain(s, a);
      assert d[1..] == Drain(s[1..], a - c);
      var c2 := Min(d[0].balance, b);
      if a - c > 0.0 {
        assert c == s[0].balance && c2 == 0.0;
        DrainSplit(s[1..], a - c, b);
      } else {
        assert d[1..] == s[1..];
      }
    }
  }
}
