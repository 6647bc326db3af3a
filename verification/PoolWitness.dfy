/** Inputs on which the reported shortfall goes against what the rest of the report obeys. */
module PoolWitness {
  import opened Common
  import opened PoolModel
  import opened PoolRun
  import opened PoolCuts
  import opened PoolProjection

  // ---------- a faster burn that reports a smaller shortfall ----------

  /** A full account with its reset in 10 and a window of 100. */
  function Lone(): SimAccount {
    SimAccount(100.0, 100.0, 10.0, 100.0)
  }

  lemma OfOne(a: SimAccount)
    ensures StableSort([a]) == [a] && Total([a]) == a.balance && MaxWindow([a]) == Max(a.window, 0.0)
    ensures forall amount :: 0.0 < amount <= a.balance ==> Drain([a], amount) == [a.(balance := a.balance - amount)]
    ensures Refill([a]) == [Roll(a)]
  {
    assert [a][1..] == [];
    forall amount | 0.0 < amount <= a.balance ensures Drain([a], amount) == [a.(balance := a.balance - amount)] {
      assert Drain([], 0.0) == [];
    }
  }

  lemma LoneIsGiven()
    ensures Given([Lone()], 0.0) && Legal(Greedy()) && Ready([Lone()]) && Horizon([Lone()], 0.0) == 200.0
  {
    OfOne(Lone());
    SortedReady([Lone()], 0.0);
  }

  /** Burning 9.9 pays for the first interval and owes for the second; burning 10.1 fails the first by a little. */
  lemma LoneRuns(minimum: real)
    requires Legal(Greedy()) && Ready([Lone()])
    ensures Run(Greedy(), 0, [Lone()], 0.0, 200.0, 9.9, minimum).shortfall == 890.0
    ensures Run(Greedy(), 0, [Lone()], 0.0, 200.0, 10.1, minimum).shortfall == 1.0
  {
    var s := [Lone()];
    hide Run, Drain, Refill, Total, Ready, Legal;
    OfOne(Lone());
    Misses(Greedy(), 0, s, 0.0, 200.0, 10.1, minimum);
    var left := Lone().(balance := 1.0);
    OfOne(left);
    OfOne(Roll(left));
    var low := GoesOn(Greedy(), 0, s, 0.0, 200.0, 9.9, minimum, [left], [Roll(left)]);
    Misses(Greedy(), 1, [Roll(left)], 10.0, 200.0, 9.9, low);
  }

  lemma FasterMayReportLess()
    ensures Given([Lone()], 0.0)
    ensures Project([Lone()], 0.0, Some(35640000.0)).shortfall == 890.0
    ensures Project([Lone()], 0.0, Some(36360000.0)).shortfall == 1.0
  {
    hide Run, StableSort, Total;
    LoneIsGiven();
    OfOne(Lone());
    LoneRuns(Total([Lone()]));
    Underneath([Lone()], 0.0, 35640000.0);
    Underneath([Lone()], 0.0, 36360000.0);
  }

  // ---------- a worse policy that reports a smaller shortfall ----------

  function Soon(balance: real): SimAccount {
    SimAccount(100.0, balance, 10.0, 1000.0)
  }

  function Late(balance: real): SimAccount {
    SimAccount(100.0, balance, 20.5, 1000.0)
  }

  function Both(): Pool {
    [Soon(100.0), Late(100.0)]
  }

  /** Takes the first interval's hundred from the account that resets later. */
  ghost function LateFirst(): Policy {
    (n, s, amount) => if n == 0 && s == Both() && amount == 100.0 then [Soon(100.0), Late(0.0)] else Drain(s, amount)
  }

  lemma OfTwo(a: SimAccount, b: SimAccount)
    ensures Total([a, b]) == a.balance + b.balance
    ensures a.resetAt <= b.resetAt ==> StableSort([a, b]) == [a, b]
    ensures MaxWindow([a, b]) == Max(a.window, Max(b.window, 0.0))
    ensures Refill([a, b]) == if Roll(a).resetAt <= b.resetAt then [Roll(a), b] else [b, Roll(a)]
  {
    assert [a, b][1..] == [b];
    assert [b][1..] == [];
    assert Insert(Roll(a), []) == [Roll(a)];
    OfOne(b);
  }

  lemma DrainOfTwo(a: SimAccount, b: SimAccount, amount: real)
    requires 0.0 <= a.balance < amount <= a.balance + b.balance
    ensures Drain([a, b], amount) == [a.(balance := 0.0), b.(balance := a.balance + b.balance - amount)]
  {
    assert [a, b][1..] == [b];
    OfOne(b);
  }

  lemma DrainOfFirst(a: SimAccount, b: SimAccount)
    requires a.balance > 0.0
    ensures Drain([a, b], a.balance) == [a.(balance := 0.0), b]
  {
    assert [a, b][1..] == [b];
    assert Drain([b], 0.0) == [b];
  }

  lemma LateFirstIsLegal()
    ensures Legal(LateFirst()) && Legal(Greedy())
  {
    GreedyIsLegal();
    FirstHundred();
    hide Drain, Total, Draws, Legal, InBounds;
    assert Legal(LateFirst()) by {
      forall n: nat, t: Pool, amount: real | InBounds(t) && 0.0 <= amount <= Total(t)
        ensures Draws(t, LateFirst()(n, t, amount), amount)
      {
        LegalDraws(Greedy(), n, t, amount);
      }
      IsLegal(LateFirst());
    }
  }

  lemma FirstHundred()
    ensures Draws(Both(), [Soon(100.0), Late(0.0)], 100.0)
  {
    hide Total, Refill, StableSort, MaxWindow;
    OfTwo(Soon(100.0), Late(100.0));
    OfTwo(Soon(100.0), Late(0.0));
    var r := [Soon(100.0), Late(0.0)];
    assert Both()[1].(balance := 0.0) == r[1].(balance := 0.0);
    assert SameSchedule(Both(), r);
  }

  lemma LegalDraws(pol: Policy, n: nat, t: Pool, amount: real)
    requires Legal(pol) && InBounds(t) && 0.0 <= amount <= Total(t)
    ensures Draws(t, pol(n, t, amount), amount)
  {
  }

  lemma IsLegal(pol: Policy)
    requires forall n: nat, t: Pool, amount: real :: InBounds(t) && 0.0 <= amount <= Total(t)
               ==> Draws(t, pol(n, t, amount), amount)
    ensures Legal(pol)
  {
  }

  lemma BothAreReady()
    ensures Given(Both(), 0.0) && Ready(Both()) && StableSort(Both()) == Both()
    ensures Horizon(Both(), 0.0) == 2000.0 && Total(Both()) == 200.0
  {
    OfTwo(Soon(100.0), Late(100.0));
  }

  /** After an interval that is paid, what is missing is what the rest of the run misses. */
  lemma GoesOn(pol: Policy, n: nat, s: Pool, cursor: real, horizon: real, burn: real, minimum: real, d: Pool, r: Pool)
      returns (low: real)
    requires Legal(pol) && Ready(s) && burn > 0.0 && cursor <= s[0].resetAt < horizon
    requires Cost(burn, s[0].resetAt - cursor) <= Total(s)
    requires d == pol(n, s, Cost(burn, s[0].resetAt - cursor)) && d != [] && r == Refill(d)
    ensures Ready(r)
    ensures Run(pol, n, s, cursor, horizon, burn, minimum).shortfall ==
      Run(pol, n + 1, r, s[0].resetAt, horizon, burn, low).shortfall
  {
    var d1, r1, low1 := Continues(pol, n, s, cursor, horizon, burn, minimum);
    low := low1;
  }

  /** An interval that cannot be paid. */
  lemma Misses(pol: Policy, n: nat, s: Pool, cursor: real, horizon: real, burn: real, minimum: real)
    requires Legal(pol) && Ready(s) && burn > 0.0 && cursor <= s[0].resetAt < horizon
    requires Cost(burn, s[0].resetAt - cursor) > Total(s)
    ensures Run(pol, n, s, cursor, horizon, burn, minimum).shortfall == Cost(burn, s[0].resetAt - cursor) - Total(s)
  {
    hide Run, DryAt, Cost, Total, Ready, Legal;
    Stops(pol, n, s, cursor, horizon, burn, minimum);
  }

  /** The pools that the soonest-first run goes through. */
  lemma GreedyPools()
    ensures Total(Both()) == 200.0 && Drain(Both(), 100.0) == [Soon(0.0), Late(100.0)]
    ensures var r := [Late(100.0), Roll(Soon(0.0))];
      && Refill([Soon(0.0), Late(100.0)]) == r
      && Total(r) == 200.0 && Drain(r, 105.0) == [Late(0.0), Roll(Soon(0.0)).(balance := 95.0)]
    ensures var r := [Roll(Soon(0.0)).(balance := 95.0), Roll(Late(0.0))];
      Refill([Late(0.0), Roll(Soon(0.0)).(balance := 95.0)]) == r && Total(r) == 195.0
  {
    hide Drain, Refill, Total;
    OfTwo(Soon(100.0), Late(100.0));
    DrainOfFirst(Soon(100.0), Late(100.0));
    OfTwo(Soon(0.0), Late(100.0));
    OfTwo(Late(100.0), Roll(Soon(0.0)));
    DrainOfTwo(Late(100.0), Roll(Soon(0.0)), 105.0);
    OfTwo(Late(0.0), Roll(Soon(0.0)).(balance := 95.0));
    OfTwo(Roll(Soon(0.0)).(balance := 95.0), Roll(Late(0.0)));
  }

  /** The soonest first lasts into the third interval, and then owes for a long time. */
  lemma GreedyRuns(minimum: real)
    requires Legal(Greedy()) && Ready(Both())
    ensures Run(Greedy(), 0, Both(), 0.0, 2000.0, 10.0, minimum).shortfall == 9700.0
  {
    hide Run, Drain, Refill, Total, Ready, Legal;
    GreedyPools();
    var r := [Late(100.0), Roll(Soon(0.0))];
    var low := GoesOn(Greedy(), 0, Both(), 0.0, 2000.0, 10.0, minimum, [Soon(0.0), Late(100.0)], r);
    var r2 := [Roll(Soon(0.0)).(balance := 95.0), Roll(Late(0.0))];
    var low2 := GoesOn(Greedy(), 1, r, 10.0, 2000.0, 10.0, low, [Late(0.0), Roll(Soon(0.0)).(balance := 95.0)], r2);
    Misses(Greedy(), 2, r2, 20.5, 2000.0, 10.0, low2);
  }

  /** The later first runs dry in the second interval, just before its end. */
  lemma LateFirstRuns(minimum: real)
    requires Legal(LateFirst()) && Ready(Both())
    ensures Run(LateFirst(), 0, Both(), 0.0, 2000.0, 10.0, minimum).shortfall == 5.0
  {
    hide Run, Drain, Refill, Total, Ready, Legal, StableSort, MaxWindow;
    OfTwo(Soon(100.0), Late(100.0));
    OfTwo(Soon(100.0), Late(0.0));
    var r := [Late(0.0), Roll(Soon(100.0))];
    assert LateFirst()(0, Both(), 100.0) == [Soon(100.0), Late(0.0)];
    OfTwo(Late(0.0), Roll(Soon(100.0)));
    var low := GoesOn(LateFirst(), 0, Both(), 0.0, 2000.0, 10.0, minimum, [Soon(100.0), Late(0.0)], r);
    Misses(LateFirst(), 1, r, 10.0, 2000.0, 10.0, low);
  }

  lemma WorsePolicyMayReportLess()
    ensures Legal(LateFirst()) && Legal(Greedy()) && Given(Both(), 0.0)
    ensures Simulate(Greedy(), Both(), 0.0, 36000000.0).shortfall == 9700.0
    ensures Simulate(LateFirst(), Both(), 0.0, 36000000.0).shortfall == 5.0
  {
    hide Run, StableSort, Total, MaxWindow;
    LateFirstIsLegal();
    BothAreReady();
    GreedyRuns(200.0);
    LateFirstRuns(200.0);
  }

  // ---------- a cut that makes the shortfall smaller ----------

  /** Burning 20 runs dry at 5 and owes 100 at the reset; stopping at 6 as well, only 20. */
  lemma CutMayReportLess(minimum: real)
    requires Legal(Greedy()) && Ready([Lone()])
    ensures Run(Greedy(), 0, [Lone()], 0.0, 200.0, 20.0, minimum).shortfall == 100.0
    ensures RunCut([Lone()], 0.0, 200.0, 20.0, minimum, [6.0]).shortfall == 20.0
  {
    OfOne(Lone());
    Stops(Greedy(), 0, [Lone()], 0.0, 200.0, 20.0, minimum);
    CutSteps([Lone()], 0.0, 200.0, 20.0, minimum, [6.0]);
  }
}
