/**
 What the round trip of a stream does to the message it folds into. A ledger of the blocks, kept from
 the incoming stream alone, gives both contents: the collected stream lists its blocks by index, the
 collected round trip lists every block in the order of its start.
 */
module StreamContent {
  import opened Common
  import opened Wire
  import F = ForwardStream
  import R = ReverseStream
  import D = ReverseDiscipline
  import E = StreamEcho
  import C = Collector

  /**
   All blocks of known types in the order of their start, the place of the block that each index now
   stands for, and a bound on the indices.
   */
  datatype Ledger = Ledger(blocks: seq<C.Block>, live: map<nat, nat>, bound: nat)

  const NO_BLOCKS := Ledger([], map[], 0)

  predicate Sound(l: Ledger) {
    && (forall i :: i in l.live ==> l.live[i] < |l.blocks| && i < l.bound)
    && forall i, j :: i in l.live && j in l.live && i != j ==> l.live[i] != l.live[j]
  }

  predicate Known(b: ABlock) {
    !b.OtherBlock?
  }

  function Enter(l: Ledger, i: nat, x: C.Block): (r: Ledger)
    requires Sound(l)
    ensures Sound(r)
  {
    Ledger(l.blocks + [x], l.live[i := |l.blocks|], if i >= l.bound then i + 1 else l.bound)
  }

  function Rewrite(l: Ledger, i: nat, x: C.Block): (r: Ledger)
    requires Sound(l) && i in l.live
    ensures Sound(r)
  {
    l.(blocks := l.blocks[l.live[i] := x])
  }

  function Note(parse: C.Parser, l: Ledger, e: AEvent): (r: Ledger)
    requires Sound(l)
    ensures Sound(r)
  {
    match e
    case BlockStart(Some(i), b) => if Known(b) then Enter(l, i, C.NewBlock(b).value) else l
    case BlockDelta(Some(i), d) => if i in l.live then Rewrite(l, i, C.Append(l.blocks[l.live[i]], d)) else l
    case BlockStop(Some(i)) =>
      if i in l.live then Rewrite(l, i, C.Done(C.FinalizeBlock(parse, l.blocks[l.live[i]]))) else l
    case _ => l
  }

  function Record(parse: C.Parser, l: Ledger, es: seq<AEvent>): (r: Ledger)
    requires Sound(l)
    ensures Sound(r)
    decreases |es|
  {
    if es == [] then l else Record(parse, Note(parse, l, es[0]), es[1..])
  }

  /** The blocks that the indices below `k` stand for, in ascending order of index. */
  function ByIndex(l: Ledger, k: nat): seq<C.Block>
    requires Sound(l)
  {
    if k == 0 then []
    else ByIndex(l, k - 1) + if k - 1 in l.live then [l.blocks[l.live[k - 1]]] else []
  }

  /** Every block of the stream, in the order of its start. */
  function InStartOrder(parse: C.Parser, es: seq<AEvent>): seq<Json> {
    C.FinalizeAll(parse, Record(parse, NO_BLOCKS, es).blocks)
  }

  /** The latest block of every index, in ascending order of index. */
  function InIndexOrder(parse: C.Parser, es: seq<AEvent>): seq<Json> {
    var l := Record(parse, NO_BLOCKS, es);
    C.FinalizeAll(parse, ByIndex(l, l.bound))
  }

  // ---------- the collected stream ----------

  ghost predicate Holds(a: seq<Option<C.Block>>, l: Ledger) {
    && Sound(l) && |a| == l.bound
    && forall i :: 0 <= i < |a| ==> a[i] == if i in l.live then Some(l.blocks[l.live[i]]) else None
  }

  lemma StepHolds(parse: C.Parser, a: C.State, l: Ledger, e: AEvent)
    requires Holds(a.blocks, l)
    ensures Holds(C.Step(parse, a, e).blocks, Note(parse, l, e))
  {
  }

  lemma {:induction false} RunHolds(parse: C.Parser, a: C.State, l: Ledger, es: seq<AEvent>)
    requires Holds(a.blocks, l)
    ensures Holds(C.Run(parse, a, es).blocks, Record(parse, l, es))
    decreases |es|
  {
    hide C.Step, Note, Holds;
    assert Sound(l) by { HoldsIsSound(a.blocks, l); }
    if es != [] {
      StepHolds(parse, a, l, es[0]);
      RunHolds(parse, C.Step(parse, a, es[0]), Note(parse, l, es[0]), es[1..]);
    }
  }

  lemma HoldsIsSound(a: seq<Option<C.Block>>, l: Ledger)
    requires Holds(a, l)
    ensures Sound(l) && |a| == l.bound
  {
  }

  lemma {:induction false} PresentByIndex(a: seq<Option<C.Block>>, l: Ledger, k: nat)
    requires Holds(a, l) && k <= |a|
    ensures C.Present(a[..k]) == ByIndex(l, k)
  {
    if k > 0 {
      assert a[..k][..k - 1] == a[..k - 1];
      PresentByIndex(a, l, k - 1);
    }
  }

  /** For every stream: collecting it lists the latest block of every index, by index. */
  lemma CollectsByIndex(parse: C.Parser, es: seq<AEvent>)
    ensures C.Collect(parse, es)["content"] == Arr(InIndexOrder(parse, es))
  {
    hide C.Run, Record, Holds;
    var a := C.Run(parse, C.FRESH, es).blocks;
    assert Holds(C.FRESH.blocks, NO_BLOCKS) by { NothingHolds(); }
    RunHolds(parse, C.FRESH, NO_BLOCKS, es);
    HoldsIsSound(a, Record(parse, NO_BLOCKS, es));
    PresentByIndex(a, Record(parse, NO_BLOCKS, es), |a|);
    assert a[..|a|] == a;
  }

  lemma NothingHolds()
    ensures Holds(C.FRESH.blocks, NO_BLOCKS)
  {
  }

  // ---------- the collected round trip ----------

  ghost predicate Echoes(b: seq<Option<C.Block>>, n: E.Echo, l: Ledger) {
    && Sound(l) && |b| == n.count == |l.blocks|
    && (forall k :: 0 <= k < |b| ==> b[k] == Some(l.blocks[k]))
    && n.live.Keys == l.live.Keys
    && forall i :: i in l.live ==> n.live[i] == F.Slot(l.live[i], l.blocks[l.live[i]].Done?)
  }

  lemma EchoesEnter(b: seq<Option<C.Block>>, n: E.Echo, n1: E.Echo, l: Ledger, i: nat, x: C.Block)
    requires Echoes(b, n, l) && !x.Done?
    requires n1.count == n.count + 1 && n1.live == n.live[i := F.Slot(n.count, false)]
    ensures Echoes(C.SetBlock(b, n.count, x), n1, Enter(l, i, x))
  {
    assert C.SetBlock(b, n.count, x) == b + [Some(x)];
  }

  lemma EchoesRewrite(b: seq<Option<C.Block>>, n: E.Echo, n1: E.Echo, l: Ledger, i: nat, x: C.Block)
    requires Echoes(b, n, l) && i in l.live
    requires n1.count == n.count && n1.live == n.live[i := F.Slot(l.live[i], x.Done?)]
    ensures i in n.live && n.live[i] == F.Slot(l.live[i], l.blocks[l.live[i]].Done?)
    ensures l.live[i] < |b| && b[l.live[i]] == Some(l.blocks[l.live[i]])
    ensures Echoes(b[l.live[i] := Some(x)], n1, Rewrite(l, i, x))
  {
  }

  lemma EchoesSame(b: seq<Option<C.Block>>, n: E.Echo, n1: E.Echo, l: Ledger)
    requires Echoes(b, n, l) && n1.count == n.count && n1.live == n.live
    ensures Echoes(b, n1, l)
  {
  }

  lemma EchoesLive(b: seq<Option<C.Block>>, n: E.Echo, l: Ledger, i: nat)
    requires Echoes(b, n, l)
    ensures Sound(l) && |b| == n.count && (i in n.live <==> i in l.live)
    ensures i in l.live ==>
      && n.live[i] == F.Slot(l.live[i], l.blocks[l.live[i]].Done?)
      && l.live[i] < |b| && b[l.live[i]] == Some(l.blocks[l.live[i]])
  {
  }

  lemma StepEchoes(parse: C.Parser, b: C.State, n: E.Echo, l: Ledger, e: AEvent, mid: string)
    requires Echoes(b.blocks, n, l)
    ensures Sound(l)
    ensures var (n1, out) := E.Step(n, e, mid);
      Echoes(C.Run(parse, b, out).blocks, n1, Note(parse, l, e))
  {
    hide C.Run, C.SetBlock, Echoes, Enter, Rewrite, C.FinalizeBlock, Sound;
    EchoesLive(b.blocks, n, l, 0);
    var (n1, out) := E.Step(n, e, mid);
    Collected(parse, b, out);
    match e {
      case BlockStart(Some(i), block) =>
        if Known(block) {
          EchoesEnter(b.blocks, n, n1, l, i, C.NewBlock(block).value);
        }
      case BlockDelta(Some(i), d) =>
        EchoesLive(b.blocks, n, l, i);
        if i in l.live {
          assert n.live[i := n.live[i]] == n.live;
          DeltaEchoes(b.blocks, n, l, i, d);
        }
      case BlockStop(Some(i)) =>
        EchoesLive(b.blocks, n, l, i);
        if i in l.live {
          StopEchoes(parse, b.blocks, n, n1, l, i);
        }
      case _ => EchoesSame(b.blocks, n, n1, l);
    }
  }

  lemma DeltaEchoes(b: seq<Option<C.Block>>, n: E.Echo, l: Ledger, i: nat, d: ADelta)
    requires Echoes(b, n, l) && i in l.live
    ensures var k, x := l.live[i], C.Append(l.blocks[l.live[i]], d);
      && Echoes(b[k := Some(x)], n, Rewrite(l, i, x))
      && (d.OtherDelta? ==> b[k := Some(x)] == b)
  {
    hide Echoes, Rewrite;
    EchoesLive(b, n, l, i);
    assert n.live[i := n.live[i]] == n.live;
    EchoesRewrite(b, n, n, l, i, C.Append(l.blocks[l.live[i]], d));
  }

  /** A block that is done already stays as it is, and its stop is not repeated. */
  lemma StopEchoes(parse: C.Parser, b: seq<Option<C.Block>>, n: E.Echo, n1: E.Echo, l: Ledger, i: nat)
    requires Echoes(b, n, l) && i in l.live && i in n.live
    requires n1 == n.(live := n.live[i := n.live[i].(stopped := true)])
    ensures var k, x := l.live[i], C.Done(C.FinalizeBlock(parse, l.blocks[l.live[i]]));
      && Echoes(b[k := Some(x)], n1, Rewrite(l, i, x))
      && (n.live[i].stopped ==> b[k := Some(x)] == b && n1 == n)
  {
    hide Echoes, Rewrite;
    EchoesLive(b, n, l, i);
    EchoesRewrite(b, n, n1, l, i, C.Done(C.FinalizeBlock(parse, l.blocks[l.live[i]])));
    assert n.live[i].stopped ==> n.live[i := n.live[i]] == n.live;
  }

  lemma Collected(parse: C.Parser, st: C.State, out: seq<AEvent>)
    ensures out == [] ==> C.Run(parse, st, out) == st
    ensures |out| == 1 ==> C.Run(parse, st, out) == C.Step(parse, st, out[0])
    ensures |out| == 2 ==> C.Run(parse, st, out) == C.Step(parse, C.Step(parse, st, out[0]), out[1])
    decreases |out|
  {
    hide C.Step;
    if |out| == 2 {
      Collected(parse, C.Step(parse, st, out[0]), out[1..]);
    }
  }

  lemma {:induction false} CollectConcat(parse: C.Parser, st: C.State, a: seq<AEvent>, b: seq<AEvent>)
    ensures C.Run(parse, st, a + b) == C.Run(parse, C.Run(parse, st, a), b)
    decreases |a|
  {
    if a == [] {
      assert a + b == b;
    } else {
      assert (a + b)[1..] == a[1..] + b;
      CollectConcat(parse, C.Step(parse, st, a[0]), a[1..], b);
    }
  }

  lemma {:induction false} RunEchoes(parse: C.Parser, b: C.State, n: E.Echo, l: Ledger, es: seq<AEvent>, mid: string)
    requires Echoes(b.blocks, n, l)
    ensures Sound(l)
    ensures var (n1, out) := E.Run(n, es, mid);
      Echoes(C.Run(parse, b, out).blocks, n1, Record(parse, l, es))
    decreases |es|
  {
    assert Sound(l);
    hide E.Step, C.Step, Note, Echoes, Sound;
    if es != [] {
      StepEchoes(parse, b, n, l, es[0], mid);
      var (n1, out) := E.Step(n, es[0], mid);
      RunEchoes(parse, C.Run(parse, b, out), n1, Note(parse, l, es[0]), es[1..], mid);
      CollectConcat(parse, b, out, E.Run(n1, es[1..], mid).1);
    } else {
      Collected(parse, b, []);
    }
  }

  lemma {:induction false} AllPresent(b: seq<Option<C.Block>>)
    requires forall k :: 0 <= k < |b| ==> b[k].Some?
    ensures |C.Present(b)| == |b|
    ensures forall k :: 0 <= k < |b| ==> C.Present(b)[k] == b[k].value
  {
    if b != [] {
      AllPresent(b[..|b| - 1]);
    }
  }

  /** For every stream: collecting its round trip lists every block of a known type in the order of its start. */
  lemma RoundTripListsByStart(parse: C.Parser, es: seq<AEvent>, draws: seq<string>, mid: string)
    requires |draws| == |es| && E.AllNew(draws, {})
    ensures var back := F.Run(F.FRESH, R.Run(R.FRESH, es, draws).1, mid).1;
      C.Collect(parse, back)["content"] == Arr(InStartOrder(parse, es))
  {
    hide C.Run, E.Run, F.Run, R.Run, Record;
    E.RoundTripIsEcho(es, draws, mid);
    var back := E.Run(E.SILENT, es, mid).1;
    RunEchoes(parse, C.FRESH, E.SILENT, NO_BLOCKS, es, mid);
    var b := C.Run(parse, C.FRESH, back).blocks;
    AllPresent(b);
    assert C.Present(b) == Record(parse, NO_BLOCKS, es).blocks;
  }

  // ---------- when the content stays the same ----------

  lemma {:induction false} ByIndexLength(l: Ledger, k: nat)
    requires Sound(l)
    ensures |ByIndex(l, k)| == |Below(l.live.Keys, k)|
  {
    if k > 0 {
      ByIndexLength(l, k - 1);
      BelowNext(l.live.Keys, k - 1);
    }
  }

  function Below(s: set<nat>, k: nat): set<nat> {
    set i | i in s && i < k
  }

  lemma BelowNext(s: set<nat>, k: nat)
    ensures |Below(s, k + 1)| == |Below(s, k)| + if k in s then 1 else 0
  {
    assert Below(s, k + 1) == if k in s then Below(s, k) + {k} else Below(s, k);
  }

  function Members(s: seq<nat>): set<nat> {
    set i | i in s
  }

  lemma {:induction false} RecordedStarts(parse: C.Parser, l: Ledger, es: seq<AEvent>)
    requires Sound(l)
    ensures var l1 := Record(parse, l, es);
      && |l1.blocks| == |l.blocks| + |D.StartedIndices(es)|
      && l1.live.Keys == l.live.Keys + Members(D.StartedIndices(es))
    decreases |es|
  {
    hide Note, D.Opening, Sound;
    if es != [] {
      NotedStart(parse, l, es[0]);
      RecordedStarts(parse, Note(parse, l, es[0]), es[1..]);
      var first := if D.Opening(es[0]).Some? then [D.Opening(es[0]).value] else [];
      assert Members(first + D.StartedIndices(es[1..])) == Members(first) + Members(D.StartedIndices(es[1..]));
    }
  }

  lemma NotedStart(parse: C.Parser, l: Ledger, e: AEvent)
    requires Sound(l)
    ensures var l1 := Note(parse, l, e);
      match D.Opening(e)
      case Some(i) => |l1.blocks| == |l.blocks| + 1 && l1.live.Keys == l.live.Keys + {i}
      case None => |l1.blocks| == |l.blocks| && l1.live.Keys == l.live.Keys
  {
    hide C.Append, C.FinalizeBlock, C.NewBlock;
  }

  lemma {:induction false} MembersOfDistinct(s: seq<nat>)
    ensures |Members(s)| <= |s|
    ensures |Members(s)| == |s| <==> D.Distinct(s)
  {
    if s != [] {
      var rest := s[1..];
      MembersOfDistinct(rest);
      assert Members(s) == Members(rest) + {s[0]};
      if D.Distinct(s) {
        assert s[0] !in rest;
        assert D.Distinct(rest);
      } else if D.Distinct(rest) {
        var j, k :| 0 <= j < k < |s| && s[j] == s[k];
        assert j == 0 || rest[j - 1] == rest[k - 1];
        assert s[0] in rest;
      }
    }
  }

  /**
   The round trip keeps the content if and only if no index starts twice and the blocks, each with what it
   collected, come in the same order by start as by index.
   */
  lemma SameContentIff(parse: C.Parser, es: seq<AEvent>, draws: seq<string>, mid: string)
    requires |draws| == |es| && E.AllNew(draws, {})
    ensures var back := F.Run(F.FRESH, R.Run(R.FRESH, es, draws).1, mid).1;
      C.Collect(parse, back)["content"] == C.Collect(parse, es)["content"]
      <==> D.Distinct(D.StartedIndices(es)) && InStartOrder(parse, es) == InIndexOrder(parse, es)
  {
    hide F.Run, R.Run, C.Collect, Record, D.StartedIndices, D.Distinct;
    RoundTripListsByStart(parse, es, draws, mid);
    CollectsByIndex(parse, es);
    var l := Record(parse, NO_BLOCKS, es);
    ByIndexLength(l, l.bound);
    assert Below(l.live.Keys, l.bound) == l.live.Keys;
    RecordedStarts(parse, NO_BLOCKS, es);
    assert l.live.Keys == Members(D.StartedIndices(es));
    MembersOfDistinct(D.StartedIndices(es));
  }

  // ---------- streams whose blocks start in order ----------

  /**
   Blocks of a type the translators know start under indices that only grow. Blocks of other types
   may take any index, deltas and stops may come in any order and any number.
   */
  predicate Growing(es: seq<AEvent>, bound: nat) {
    if es == [] then true
    else
      match D.Opening(es[0])
      case Some(i) => i >= bound && Growing(es[1..], i + 1)
      case None => Growing(es[1..], bound)
  }

  ghost predicate Taken(l: Ledger, k: nat) {
    exists i :: i in l.live && l.live[i] == k
  }

  /** Places follow indices, and every place belongs to an index. */
  ghost predicate Parallel(l: Ledger) {
    && Sound(l)
    && (forall i, j :: i in l.live && j in l.live && i < j ==> l.live[i] < l.live[j])
    && forall k: nat :: k < |l.blocks| ==> Taken(l, k)
  }

  lemma EnterParallel(l: Ledger, i: nat, x: C.Block)
    requires Parallel(l) && i >= l.bound
    ensures Parallel(Enter(l, i, x))
  {
    var l1 := Enter(l, i, x);
    forall k: nat | k < |l1.blocks| ensures Taken(l1, k) {
      if k < |l.blocks| {
        assert Taken(l, k);
        var j :| j in l.live && l.live[j] == k;
        assert j in l1.live && l1.live[j] == k;
      } else {
        assert i in l1.live && l1.live[i] == k;
      }
    }
  }

  lemma RewriteParallel(l: Ledger, i: nat, x: C.Block)
    requires Parallel(l) && i in l.live
    ensures Parallel(Rewrite(l, i, x))
  {
    forall k: nat | k < |l.blocks| ensures Taken(Rewrite(l, i, x), k) {
      assert Taken(l, k);
    }
  }

  lemma NoteParallel(parse: C.Parser, l: Ledger, e: AEvent)
    requires Parallel(l) && (D.Opening(e).Some? ==> D.Opening(e).value >= l.bound)
    ensures Parallel(Note(parse, l, e))
    ensures Note(parse, l, e).bound == if D.Opening(e).Some? then D.Opening(e).value + 1 else l.bound
  {
    ParallelIsSound(l);
    hide Parallel, C.Append, C.FinalizeBlock;
    match e {
      case BlockStart(Some(i), b) =>
        if Known(b) {
          EnterParallel(l, i, C.NewBlock(b).value);
        }
      case BlockDelta(Some(i), d) =>
        if i in l.live {
          RewriteParallel(l, i, C.Append(l.blocks[l.live[i]], d));
        }
      case BlockStop(Some(i)) =>
        if i in l.live {
          RewriteParallel(l, i, C.Done(C.FinalizeBlock(parse, l.blocks[l.live[i]])));
        }
      case _ =>
    }
  }

  lemma {:induction false} GrowingIsParallel(parse: C.Parser, l: Ledger, es: seq<AEvent>)
    requires Parallel(l) && Growing(es, l.bound)
    ensures Parallel(Record(parse, l, es))
    decreases |es|
  {
    hide Note, Parallel;
    assert Sound(l) by { ParallelIsSound(l); }
    if es != [] {
      NoteParallel(parse, l, es[0]);
      GrowingIsParallel(parse, Note(parse, l, es[0]), es[1..]);
    }
  }

  lemma ParallelIsSound(l: Ledger)
    requires Parallel(l)
    ensures Sound(l)
  {
  }

  lemma {:induction false} ParallelByIndex(l: Ledger, k: nat)
    requires Parallel(l)
    ensures var c := |ByIndex(l, k)|;
      && c <= |l.blocks| && ByIndex(l, k) == l.blocks[..c]
      && forall i :: i in l.live ==> (i < k <==> l.live[i] < c)
  {
    if k > 0 {
      ParallelByIndex(l, k - 1);
      var c := |ByIndex(l, k - 1)|;
      if k - 1 in l.live {
        assert l.live[k - 1] >= c;
        assert Taken(l, c);
        var i :| i in l.live && l.live[i] == c;
        assert l.live[k - 1] == c;
      }
    }
  }

  /** Where blocks start under growing indices, the round trip keeps the content of the collected message. */
  lemma RoundTripKeepsContent(parse: C.Parser, es: seq<AEvent>, draws: seq<string>, mid: string)
    requires |draws| == |es| && E.AllNew(draws, {}) && Growing(es, 0)
    ensures var back := F.Run(F.FRESH, R.Run(R.FRESH, es, draws).1, mid).1;
      C.Collect(parse, back)["content"] == C.Collect(parse, es)["content"]
    ensures InStartOrder(parse, es) == InIndexOrder(parse, es)
  {
    hide F.Run, R.Run, C.Collect, Record;
    RoundTripListsByStart(parse, es, draws, mid);
    CollectsByIndex(parse, es);
    GrowingIsParallel(parse, NO_BLOCKS, es);
    var l := Record(parse, NO_BLOCKS, es);
    ParallelByIndex(l, l.bound);
    var c := |ByIndex(l, l.bound)|;
    assert c < |l.blocks| ==> Taken(l, c);
    assert l.blocks[..|l.blocks|] == l.blocks;
  }

  // ---------- streams whose blocks can be told apart ----------

  /** Ascending, from `bound` on. */
  predicate Climbing(s: seq<nat>, bound: nat) {
    && (forall k :: 0 <= k < |s| ==> s[k] >= bound)
    && forall j, k :: 0 <= j < k < |s| ==> s[j] < s[k]
  }

  lemma ClimbingCons(i: nat, rest: seq<nat>, bound: nat)
    ensures Climbing([i] + rest, bound) <==> i >= bound && Climbing(rest, i + 1)
  {
    var s := [i] + rest;
    assert forall k :: 0 <= k < |rest| ==> rest[k] == s[k + 1];
    if Climbing(s, bound) {
      assert s[0] == i;
      assert forall k :: 0 <= k < |rest| ==> i < rest[k];
    }
  }

  lemma {:induction false} GrowingIffClimbing(es: seq<AEvent>, bound: nat)
    ensures Growing(es, bound) <==> Climbing(D.StartedIndices(es), bound)
  {
    if es != [] {
      hide D.Opening, Climbing;
      var rest := D.StartedIndices(es[1..]);
      if D.Opening(es[0]).Some? {
        var i := D.Opening(es[0]).value;
        GrowingIffClimbing(es[1..], i + 1);
        ClimbingCons(i, rest, bound);
      } else {
        GrowingIffClimbing(es[1..], bound);
        assert D.StartedIndices(es) == rest;
      }
    }
  }

  /** The indices of `s` stand for successive places from `n` on. */
  ghost predicate Placed(live: map<nat, nat>, s: seq<nat>, n: nat) {
    forall k :: 0 <= k < |s| ==> s[k] in live && live[s[k]] == n + k
  }

  lemma PlacedCons(live: map<nat, nat>, i: nat, rest: seq<nat>, n: nat)
    requires i in live && live[i] == n && Placed(live, rest, n + 1)
    ensures Placed(live, [i] + rest, n)
  {
  }

  /** While no index starts twice, the `k`-th start keeps the `k`-th place. */
  lemma {:induction false} PlacesOfStarts(parse: C.Parser, l: Ledger, es: seq<AEvent>)
    requires Sound(l) && D.Distinct(D.StartedIndices(es))
    ensures var l1, s := Record(parse, l, es), D.StartedIndices(es);
      && Placed(l1.live, s, |l.blocks|)
      && (forall i :: i in l.live && i !in s ==> i in l1.live && l1.live[i] == l.live[i])
    decreases |es|
  {
    if es != [] {
      hide Note, D.Opening, D.Distinct, Sound, Placed;
      var e, rest := es[0], D.StartedIndices(es[1..]);
      NotedPlace(parse, l, e);
      if D.Opening(e).Some? {
        var i := D.Opening(e).value;
        DistinctCons(i, rest);
        PlacesOfStarts(parse, Note(parse, l, e), es[1..]);
        PlacedCons(Record(parse, l, es).live, i, rest, |l.blocks|);
      } else {
        assert D.StartedIndices(es) == rest;
        PlacesOfStarts(parse, Note(parse, l, e), es[1..]);
      }
    }
  }

  lemma DistinctCons(i: nat, rest: seq<nat>)
    requires D.Distinct([i] + rest)
    ensures i !in rest && D.Distinct(rest)
  {
    var s := [i] + rest;
    assert forall k :: 0 <= k < |rest| ==> rest[k] == s[k + 1];
    assert s[0] == i;
  }

  lemma NotedPlace(parse: C.Parser, l: Ledger, e: AEvent)
    requires Sound(l)
    ensures var l1 := Note(parse, l, e);
      match D.Opening(e)
      case Some(i) => l1.live == l.live[i := |l.blocks|] && |l1.blocks| == |l.blocks| + 1
      case None => l1.live == l.live && |l1.blocks| == |l.blocks|
  {
    hide C.Append, C.FinalizeBlock, C.NewBlock;
  }

  /** By index, a block comes after those of all smaller indices. */
  lemma {:induction false} PlaceByIndex(l: Ledger, k: nat, i: nat)
    requires Sound(l) && i in l.live && i < k
    ensures var c := |Below(l.live.Keys, i)|;
      c < |ByIndex(l, k)| && ByIndex(l, k)[c] == l.blocks[l.live[i]]
  {
    ByIndexLength(l, k - 1);
    if i < k - 1 {
      PlaceByIndex(l, k - 1, i);
    }
  }

  lemma BelowGrows(s: set<nat>, i: nat, j: nat)
    requires i in s && i < j
    ensures |Below(s, i)| < |Below(s, j)|
  {
    assert Below(s, i) + {i} <= Below(s, j);
    SubsetSize(Below(s, i) + {i}, Below(s, j));
  }

  lemma SubsetSize(a: set<nat>, b: set<nat>)
    requires a <= b
    ensures |a| <= |b|
  {
    assert b == a + (b - a);
  }

  /** Blocks that can be told apart, and come in the same order by start as by index, start in order of index. */
  lemma SameOrderClimbs(parse: C.Parser, es: seq<AEvent>)
    requires D.Distinct(InStartOrder(parse, es)) && D.Distinct(D.StartedIndices(es))
    requires InStartOrder(parse, es) == InIndexOrder(parse, es)
    ensures Climbing(D.StartedIndices(es), 0)
  {
    hide Record, ByIndex, D.StartedIndices, C.FinalizeBlock;
    var l, s := Record(parse, NO_BLOCKS, es), D.StartedIndices(es);
    PlacesOfStarts(parse, NO_BLOCKS, es);
    forall i | i in l.live ensures l.live[i] == |Below(l.live.Keys, i)| {
      PlaceByIndex(l, l.bound, i);
      var c := |Below(l.live.Keys, i)|;
      var block := C.FinalizeBlock(parse, l.blocks[l.live[i]]);
      assert InIndexOrder(parse, es)[c] == block == InStartOrder(parse, es)[l.live[i]];
    }
    forall j, k | 0 <= j < k < |s| ensures s[j] < s[k] {
      assert l.live[s[j]] == j && l.live[s[k]] == k;
      if s[k] < s[j] {
        BelowGrows(l.live.Keys, s[k], s[j]);
      }
    }
  }

  /**
   Where no two blocks collect into the same, the round trip keeps the content if and only if known blocks
   start under growing indices.
   */
  lemma SameContentIffGrowing(parse: C.Parser, es: seq<AEvent>, draws: seq<string>, mid: string)
    requires |draws| == |es| && E.AllNew(draws, {}) && D.Distinct(InStartOrder(parse, es))
    ensures var back := F.Run(F.FRESH, R.Run(R.FRESH, es, draws).1, mid).1;
      C.Collect(parse, back)["content"] == C.Collect(parse, es)["content"] <==> Growing(es, 0)
  {
    hide F.Run, R.Run, C.Collect, InStartOrder, InIndexOrder, D.StartedIndices, D.Distinct;
    SameContentIff(parse, es, draws, mid);
    GrowingIffClimbing(es, 0);
    if Growing(es, 0) {
      RoundTripKeepsContent(parse, es, draws, mid);
    } else if D.Distinct(D.StartedIndices(es)) && InStartOrder(parse, es) == InIndexOrder(parse, es) {
      SameOrderClimbs(parse, es);
    }
  }

  // ---------- streams that come back with another content ----------

  /** A block that starts before one of a smaller index. */
  const OUT_OF_ORDER := [
    BlockStart(Some(1), TextBlock),
    BlockDelta(Some(1), TextDelta("a")),
    BlockStart(Some(0), ThinkingBlock)]

  /** An index that starts twice. */
  const RESTARTED := [BlockStart(Some(0), TextBlock), BlockStart(Some(0), TextBlock)]

  lemma RecordOfTwo(parse: C.Parser, l: Ledger, es: seq<AEvent>)
    requires Sound(l) && |es| == 2
    ensures Record(parse, l, es) == Note(parse, Note(parse, l, es[0]), es[1])
  {
    hide Note;
    assert es[1..][1..] == [] && es[1..][0] == es[1];
    assert Record(parse, Note(parse, Note(parse, l, es[0]), es[1]), []) == Note(parse, Note(parse, l, es[0]), es[1]);
  }

  lemma LedgerOutOfOrder(parse: C.Parser)
    ensures Record(parse, NO_BLOCKS, OUT_OF_ORDER) == Ledger([C.Text("a"), C.Thinking("")], map[1 := 0, 0 := 1], 2)
  {
    assert OUT_OF_ORDER[1..] == [OUT_OF_ORDER[1], OUT_OF_ORDER[2]];
    var l := Note(parse, NO_BLOCKS, OUT_OF_ORDER[0]);
    RecordOfTwo(parse, l, OUT_OF_ORDER[1..]);
    assert l == Ledger([C.Text("")], map[1 := 0], 2);
    assert "" + "a" == "a";
    assert Note(parse, l, OUT_OF_ORDER[1]) == Ledger([C.Text("a")], map[1 := 0], 2);
  }

  /** Blocks that start out of order come back in the order of their starts. */
  lemma OrderOfStartsMatters(parse: C.Parser, draws: seq<string>, mid: string)
    requires |draws| == |OUT_OF_ORDER| && E.AllNew(draws, {})
    ensures var back := F.Run(F.FRESH, R.Run(R.FRESH, OUT_OF_ORDER, draws).1, mid).1;
      var text, thought := C.FinalizeBlock(parse, C.Text("a")), C.FinalizeBlock(parse, C.Thinking(""));
      && C.Collect(parse, OUT_OF_ORDER)["content"] == Arr([thought, text])
      && C.Collect(parse, back)["content"] == Arr([text, thought])
  {
    hide F.Run, R.Run, C.Collect, C.FinalizeBlock, Record;
    RoundTripListsByStart(parse, OUT_OF_ORDER, draws, mid);
    CollectsByIndex(parse, OUT_OF_ORDER);
    LedgerOutOfOrder(parse);
    var l := Record(parse, NO_BLOCKS, OUT_OF_ORDER);
    assert ByIndex(l, 2) == [C.Thinking(""), C.Text("a")] by {
      assert ByIndex(l, 1) == [C.Thinking("")];
    }
    var text, thought := C.FinalizeBlock(parse, C.Text("a")), C.FinalizeBlock(parse, C.Thinking(""));
    assert C.FinalizeAll(parse, l.blocks) == [text, thought];
    assert C.FinalizeAll(parse, ByIndex(l, 2)) == [thought, text];
  }

  /** A restarted index collects into one block, and comes back as two. */
  lemma RestartsMultiply(parse: C.Parser, draws: seq<string>, mid: string)
    requires |draws| == |RESTARTED| && E.AllNew(draws, {})
    ensures var back := F.Run(F.FRESH, R.Run(R.FRESH, RESTARTED, draws).1, mid).1;
      var text := C.FinalizeBlock(parse, C.Text(""));
      && C.Collect(parse, RESTARTED)["content"] == Arr([text])
      && C.Collect(parse, back)["content"] == Arr([text, text])
  {
    hide F.Run, R.Run, C.Collect, C.FinalizeBlock, Record;
    RoundTripListsByStart(parse, RESTARTED, draws, mid);
    CollectsByIndex(parse, RESTARTED);
    RecordOfTwo(parse, NO_BLOCKS, RESTARTED);
    var l := Record(parse, NO_BLOCKS, RESTARTED);
    assert l == Ledger([C.Text(""), C.Text("")], map[0 := 1], 1);
    assert ByIndex(l, 0) == [];
    assert ByIndex(l, 1) == [C.Text("")];
    var text := C.FinalizeBlock(parse, C.Text(""));
    assert C.FinalizeAll(parse, l.blocks) == [text, text];
    assert C.FinalizeAll(parse, ByIndex(l, 1)) == [text];
  }
}
