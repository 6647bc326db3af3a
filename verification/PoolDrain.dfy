/**
 The in-place drain of a slice of accounts in any order, what it promises, and why that promise
 leaves no freedom.
 */
module PoolDrain {
  import opened Common
  import opened PoolModel

  /** Account `i` is drained before account `j`: it resets sooner, or ties and stands earlier. */
  predicate Before(s: Pool, i: nat, j: nat)
    requires i < |s| && j < |s|
  {
    s[i].resetAt < s[j].resetAt || (s[i].resetAt == s[j].resetAt && i < j)
  }

  /** The part of `amount` that a pool holding `total` can give. */
  function Payable(amount: real, total: real): real {
    Min(Max(amount, 0.0), total)
  }

  /**
   The promise of a drain, without naming an algorithm: only balances change, none below zero, the
   pool gives exactly what was asked or all it has, and nobody gives while an account that comes
   before it still holds something.
   */
  ghost predicate SoonestFirst(s: Pool, r: Pool, amount: real) {
    && SameSchedule(s, r)
    && (forall i :: 0 <= i < |s| ==> 0.0 <= r[i].balance <= s[i].balance)
    && Total(r) == Total(s) - Payable(amount, Total(s))
    && forall i: nat, j: nat :: i < |s| && j < |s| && Before(s, i, j) && r[j].balance < s[j].balance
         ==> r[i].balance == 0.0
  }

  lemma {:induction false} TotalStrict(s: Pool, t: Pool, j: nat)
    requires |s| == |t| && j < |s|
    requires forall i :: 0 <= i < |s| ==> s[i].balance <= t[i].balance
    requires s[j].balance < t[j].balance
    ensures Total(s) < Total(t)
  {
    if j == 0 {
      TotalMonotone(s[1..], t[1..]);
    } else {
      TotalStrict(s[1..], t[1..], j - 1);
    }
  }

  lemma NoLess(s: Pool, r1: Pool, r2: Pool, amount: real, j: nat)
    requires SoonestFirst(s, r1, amount) && SoonestFirst(s, r2, amount)
    requires j < |s|
    ensures r1[j].balance >= r2[j].balance
  {
    if r1[j].balance < r2[j].balance {
      forall i: nat | i < |s| ensures r1[i].balance <= r2[i].balance {
        assert i == j || Before(s, i, j) || Before(s, j, i);
      }
      TotalStrict(r1, r2, j);
    }
  }

  /** The promise determines every balance. */
  lemma SoonestFirstUnique(s: Pool, r1: Pool, r2: Pool, amount: real)
    requires SoonestFirst(s, r1, amount) && SoonestFirst(s, r2, amount)
    ensures r1 == r2
  {
    forall j: nat | j < |s| ensures r1[j] == r2[j] {
      NoLess(s, r1, r2, amount, j);
      NoLess(s, r2, r1, amount, j);
      assert r1[j].(balance := 0.0) == s[j].(balance := 0.0) == r2[j].(balance := 0.0);
    }
  }

  lemma {:induction false} DrainTotal(s: Pool, amount: real)
    requires forall i :: 0 <= i < |s| ==> s[i].balance >= 0.0
    ensures Total(Drain(s, amount)) == Total(s) - Payable(amount, Total(s))
  {
    TotalNonNegative(s);
    if s != [] && amount > 0.0 {
      var consumed := Min(s[0].balance, amount);
      assert Drain(s, amount)[1..] == Drain(s[1..], amount - consumed);
      DrainTotal(s[1..], amount - consumed);
      TotalNonNegative(s[1..]);
    }
  }

  lemma {:induction false} DrainInOrder(s: Pool, amount: real, i: nat, j: nat)
    requires forall k :: 0 <= k < |s| ==> s[k].balance >= 0.0
    requires i < j < |s|
    requires Drain(s, amount)[j].balance < s[j].balance
    ensures Drain(s, amount)[i].balance == 0.0
  {
    if s != [] && amount > 0.0 {
      var consumed := Min(s[0].balance, amount);
      if i > 0 {
        DrainInOrder(s[1..], amount - consumed, i - 1, j - 1);
      }
    }
  }

  /** On a pool in reset order the promise is met by the drain from the front. */
  lemma DrainIsSoonestFirst(s: Pool, amount: real)
    requires Sorted(s)
    requires forall i :: 0 <= i < |s| ==> s[i].balance >= 0.0
    ensures SoonestFirst(s, Drain(s, amount), amount)
  {
    DrainBounds(s, amount);
    DrainTotal(s, amount);
    var r := Drain(s, amount);
    forall i: nat, j: nat | i < |s| && j < |s| && Before(s, i, j) && r[j].balance < s[j].balance
      ensures r[i].balance == 0.0
    {
      DrainInOrder(s, amount, i, j);
    }
  }

  // ---------- the order in which a slice is drained ----------

  predicate Indices(s: Pool, order: seq<nat>) {
    forall k :: 0 <= k < |order| ==> order[k] < |s|
  }

  predicate Ordered(s: Pool, order: seq<nat>)
    requires Indices(s, order)
  {
    forall p, q :: 0 <= p < q < |order| ==> Before(s, order[p], order[q])
  }

  function InsertIndex(s: Pool, i: nat, order: seq<nat>): (r: seq<nat>)
    requires i < |s| && Indices(s, order)
    ensures Indices(s, r)
    ensures forall j: nat :: j in r <==> j == i || j in order
  {
    if order == [] || s[i].resetAt <= s[order[0]].resetAt then [i] + order
    else
      assert order == [order[0]] + order[1..];
      [order[0]] + InsertIndex(s, i, order[1..])
  }

  /** The indices from `i` on, stably sorted by reset. */
  function OrderFrom(s: Pool, i: nat): (order: seq<nat>)
    requires i <= |s|
    ensures Indices(s, order)
    ensures forall j: nat :: j in order <==> i <= j < |s|
    decreases |s| - i
  {
    if i == |s| then [] else InsertIndex(s, i, OrderFrom(s, i + 1))
  }

  lemma {:induction false} InsertIndexOrdered(s: Pool, i: nat, order: seq<nat>)
    requires i < |s| && Indices(s, order) && Ordered(s, order)
    requires forall j: nat :: j in order ==> i < j
    ensures Ordered(s, InsertIndex(s, i, order))
  {
    if order != [] {
      if s[i].resetAt <= s[order[0]].resetAt {
        forall q | 0 <= q < |order| ensures Before(s, i, order[q]) {
          assert order[0] in order && order[q] in order;
          assert q > 0 ==> Before(s, order[0], order[q]);
        }
      } else {
        var t := InsertIndex(s, i, order[1..]);
        assert forall j :: j in order[1..] ==> j in order;
        InsertIndexOrdered(s, i, order[1..]);
        forall q | 0 <= q < |t| ensures Before(s, order[0], t[q]) {
          assert t[q] in t;
          assert t[q] == i || t[q] in order[1..];
        }
      }
    }
  }

  /** Every index is listed, each after all that come before it. */
  lemma {:induction false} OrderFromOrdered(s: Pool, i: nat)
    requires i <= |s|
    ensures Ordered(s, OrderFrom(s, i))
    decreases |s| - i
  {
    if i < |s| {
      OrderFromOrdered(s, i + 1);
      InsertIndexOrdered(s, i, OrderFrom(s, i + 1));
    }
  }

  /** The in-place drain: visits the accounts soonest reset first and stops when the amount is met. */
  method ConsumeBalance(accounts: array<SimAccount>, amount: real)
    requires forall i :: 0 <= i < accounts.Length ==> accounts[i].balance >= 0.0
    modifies accounts
    ensures SoonestFirst(old(accounts[..]), accounts[..], amount)
  {
    hide OrderFrom, Total, SoonestFirst;
    ghost var s := accounts[..];
    var order := OrderFrom(accounts[..], 0);
    var remaining := amount;
    var k := 0;
    OrderFromOrdered(s, 0);
    TotalNonNegative(s);
    while k < |order| && remaining > 0.0
      invariant k <= |order|
      invariant SameSchedule(s, accounts[..])
      invariant forall i :: 0 <= i < |s| ==> 0.0 <= accounts[i].balance <= s[i].balance
      invariant Total(accounts[..]) == Total(s) - (amount - remaining)
      invariant remaining <= amount && (amount >= 0.0 ==> remaining >= 0.0)
      invariant amount <= 0.0 ==> remaining == amount
      invariant forall p :: k <= p < |order| ==> accounts[order[p]] == s[order[p]]
      invariant remaining > 0.0 ==> forall p :: 0 <= p < k ==> accounts[order[p]].balance == 0.0
      invariant forall p, q :: 0 <= p < q < k && accounts[order[q]].balance < s[order[q]].balance
                  ==> accounts[order[p]].balance == 0.0
    {
      var i := order[k];
      assert forall p :: 0 <= p < k ==> Before(s, order[p], order[k]);
      assert forall p :: k < p < |order| ==> Before(s, order[k], order[p]);
      assert forall p :: 0 <= p < |order| && p != k ==> order[p] != i;
      var consumed := Min(accounts[i].balance, remaining);
      ghost var before := accounts[..];
      accounts[i] := accounts[i].(balance := accounts[i].balance - consumed);
      assert accounts[..] == before[i := accounts[i]];
      TotalUpdate(before, i, accounts[i]);
      remaining := remaining - consumed;
      k := k + 1;
    }
    AllDrained(s, accounts[..], order, k, remaining, amount);
  }

  lemma AllDrained(s: Pool, r: Pool, order: seq<nat>, k: nat, remaining: real, amount: real)
    requires SameSchedule(s, r) && Indices(s, order) && Ordered(s, order) && k <= |order|
    requires forall i: nat :: i < |s| ==> i in order
    requires k == |order| || remaining <= 0.0
    requires forall i :: 0 <= i < |s| ==> 0.0 <= r[i].balance <= s[i].balance
    requires Total(r) == Total(s) - (amount - remaining)
    requires remaining <= amount && (amount >= 0.0 ==> remaining >= 0.0)
    requires amount <= 0.0 ==> remaining == amount
    requires forall p :: k <= p < |order| ==> r[order[p]] == s[order[p]]
    requires remaining > 0.0 ==> forall p :: 0 <= p < k ==> r[order[p]].balance == 0.0
    requires forall p, q :: 0 <= p < q < k && r[order[q]].balance < s[order[q]].balance
                  ==> r[order[p]].balance == 0.0
    ensures SoonestFirst(s, r, amount)
  {
    hide Total;
    TotalNonNegative(r);
    if remaining > 0.0 {
      forall i | 0 <= i < |r| ensures r[i].balance == 0.0 {
        assert i in order;
      }
      TotalZero(r);
    }
    forall i: nat, j: nat | i < |s| && j < |s| && Before(s, i, j) && r[j].balance < s[j].balance
      ensures r[i].balance == 0.0
    {
      assert i in order && j in order;
      var p :| 0 <= p < |order| && order[p] == i;
      var q :| 0 <= q < |order| && order[q] == j;
    }
  }

  lemma TotalZero(s: Pool)
    requires forall i :: 0 <= i < |s| ==> s[i].balance == 0.0
    ensures Total(s) == 0.0
  {
  }
}
