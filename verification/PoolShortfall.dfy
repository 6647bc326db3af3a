/**
 What a depleted run reports as missing: the cost from the depletion instant up to the next event,
 where the next event can be told from the resets of the accounts alone.
 */
module PoolShortfall {
  import opened PoolModel
  import opened PoolRun

  /** `end` is the first event after `from`: the first reset boundary, or the horizon before any. */
  ghost predicate IsNextEvent(s: Pool, horizon: real, from: real, end: real) {
    && from < end <= horizon
    && (end == horizon || IsBoundary(s, end))
    && forall t :: IsBoundary(s, t) && from < t ==> end <= t
  }

  lemma BoundaryLater(resetAt: real, window: real, k: nat)
    requires window > 0.0
    ensures Boundary(resetAt, window, k) >= resetAt
    ensures Boundary(resetAt, window, 0) == resetAt
    ensures Boundary(resetAt + window, window, k) == Boundary(resetAt, window, k + 1)
  {
    assert k as real * window >= 0.0;
    assert (k + 1) as real * window == k as real * window + window;
  }

  lemma BoundaryOf(s: Pool, a: SimAccount, k: nat)
    requires a in s
    ensures IsBoundary(s, Boundary(a.resetAt, a.window, k))
  {
  }

  /** Boundaries belong to the schedule: neither balances nor the order of the accounts matter. */
  lemma SameBoundaries(s: Pool, r: Pool, t: real)
    requires SameSchedule(s, r) || multiset(s) == multiset(r)
    ensures IsBoundary(s, t) ==> IsBoundary(r, t)
  {
    if IsBoundary(s, t) {
      var a, k: nat :| a in s && t == Boundary(a.resetAt, a.window, k);
      if SameSchedule(s, r) {
        var i :| 0 <= i < |s| && s[i] == a;
        assert s[i].(balance := 0.0) == r[i].(balance := 0.0);
        BoundaryOf(r, r[i], k);
      } else {
        assert a in multiset(r);
        BoundaryOf(r, a, k);
      }
    }
  }

  lemma NoBoundaryBeforeFirst(s: Pool, t: real)
    requires Ready(s) && IsBoundary(s, t)
    ensures t >= s[0].resetAt
  {
    var a, k: nat :| a in s && t == Boundary(a.resetAt, a.window, k);
    var i :| 0 <= i < |s| && s[i] == a;
    BoundaryLater(a.resetAt, a.window, k);
  }

  lemma FirstIsBoundary(s: Pool)
    requires Ready(s)
    ensures IsBoundary(s, s[0].resetAt)
  {
    BoundaryLater(s[0].resetAt, s[0].window, 0);
    BoundaryOf(s, s[0], 0);
  }

  lemma InsertMembers(x: SimAccount, s: Pool)
    ensures forall a :: a in Insert(x, s) <==> a == x || a in s
  {
    forall a ensures a in Insert(x, s) <==> a == x || a in s {
      assert a in Insert(x, s) <==> a in multiset(Insert(x, s));
      assert a in s <==> a in multiset(s);
    }
  }

  /** A refill takes one boundary away, its own instant; all later ones remain. */
  lemma RefillBoundaries(d: Pool, t: real)
    requires Ready(d)
    ensures IsBoundary(Refill(d), t) ==> IsBoundary(d, t)
    ensures IsBoundary(d, t) && t > d[0].resetAt ==> IsBoundary(Refill(d), t)
  {
    var r, x := Refill(d), Roll(d[0]);
    InsertMembers(x, d[1..]);
    if IsBoundary(r, t) {
      var a, k: nat :| a in r && t == Boundary(a.resetAt, a.window, k);
      if a == x {
        BoundaryLater(d[0].resetAt, d[0].window, k);
        BoundaryOf(d, d[0], k + 1);
      } else {
        BoundaryOf(d, a, k);
      }
    }
    if IsBoundary(d, t) && t > d[0].resetAt {
      var a, k: nat :| a in d && t == Boundary(a.resetAt, a.window, k);
      if a in d[1..] {
        BoundaryOf(r, a, k);
      } else {
        BoundaryLater(a.resetAt, a.window, if k == 0 then 0 else k - 1);
        BoundaryOf(r, x, k - 1);
      }
    }
  }

  /** A run that runs dry ends with the first event after its depletion instant. */
  lemma {:induction false} EndsWithNextEvent(pol: Policy, n: nat, s: Pool, cursor: real, horizon: real, burn: real,
                                             minimum: real)
    requires Legal(pol) && Ready(s) && burn > 0.0 && s[0].resetAt >= cursor && minimum >= 0.0
    ensures var p := Run(pol, n, s, cursor, horizon, burn, minimum);
      p.depletedAt.Some? ==> IsNextEvent(s, horizon, p.depletedAt.value, p.end)
    decreases Pending(s, horizon)
  {
    hide Run, DryAt, Cost, Refill, Pending, Total, Sorted, InBounds, IsBoundary, SameSchedule;
    var p := Run(pol, n, s, cursor, horizon, burn, minimum);
    DepletionInstant(pol, n, s, cursor, horizon, burn, minimum);
    Stops(pol, n, s, cursor, horizon, burn, minimum);
    if p.depletedAt.Some? {
      if Demand(s, cursor, horizon, burn) > Total(s) {
        FirstIsBoundary(s);
        forall t | IsBoundary(s, t) && p.depletedAt.value < t ensures p.end <= t {
          NoBoundaryBeforeFirst(s, t);
        }
      } else {
        var d, r, low := Continues(pol, n, s, cursor, horizon, burn, minimum);
        EndsWithNextEvent(pol, n + 1, r, s[0].resetAt, horizon, burn, low);
        forall t ensures IsBoundary(r, t) ==> IsBoundary(s, t)
          ensures IsBoundary(s, t) && t > s[0].resetAt ==> IsBoundary(r, t)
        {
          RefillBoundaries(d, t);
          SameBoundaries(s, d, t);
          DrawnBoundaries(s, d, t);
        }
      }
    }
  }

  lemma DrawnBoundaries(s: Pool, d: Pool, t: real)
    requires SameSchedule(s, d)
    ensures IsBoundary(d, t) ==> IsBoundary(s, t)
  {
    assert SameSchedule(d, s) by {
      forall i | 0 <= i < |s| ensures d[i].(balance := 0.0) == s[i].(balance := 0.0) {
        assert s[i].(balance := 0.0) == d[i].(balance := 0.0);
      }
    }
    SameBoundaries(d, s, t);
  }

  /** No account resets after `from` and up to `to`. */
  ghost predicate NoResetBetween(s: Pool, from: real, to: real) {
    forall t :: IsBoundary(s, t) ==> !(from < t <= to)
  }

  /** Two instants with no reset between them have the same next event. */
  lemma SameNextEvent(s: Pool, horizon: real, from: real, to: real, end: real, later: real)
    requires from <= to < horizon && NoResetBetween(s, from, to)
    requires IsNextEvent(s, horizon, from, end) && IsNextEvent(s, horizon, to, later)
    ensures end == later
  {
  }
}
