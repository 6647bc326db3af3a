/** What every Messages stream coming out of the forward translator obeys, whatever goes in. */
module ForwardDiscipline {
  import opened Common
  import opened Wire
  import opened ForwardStream

  /** The rules of a Messages stream, and what has happened in it so far. */
  datatype Progress = Progress(started: bool, count: nat, stopped: set<nat>)

  const NOTHING := Progress(false, 0, {})

  predicate Allowed(p: Progress, e: AEvent, strict: bool) {
    match e
    case MessageStart(_) => !p.started
    case BlockStart(i, _) => i == Some(p.count)
    case BlockDelta(i, _) => i.Some? && i.value < p.count && (strict ==> i.value !in p.stopped)
    case BlockStop(i) => i.Some? && i.value < p.count && i.value !in p.stopped
    case _ => true
  }

  function Advance(p: Progress, e: AEvent): Progress {
    match e
    case MessageStart(_) => p.(started := true)
    case BlockStart(_, _) => p.(count := p.count + 1)
    case BlockStop(Some(i)) => p.(stopped := p.stopped + {i})
    case _ => p
  }

  /**
   At most one message start; blocks open under 0, 1, 2, ...; deltas and stops name a block that has
   opened; no block stops twice. `strict` also forbids a delta after its block's stop.
   */
  predicate Disciplined(p: Progress, out: seq<AEvent>, strict: bool)
    decreases |out|
  {
    out != [] ==> Allowed(p, out[0], strict) && Disciplined(Advance(p, out[0]), out[1..], strict)
  }

  // ---------- the rules, position by position ----------

  function Starts(out: seq<AEvent>): nat {
    if out == [] then 0 else Starts(out[..|out| - 1]) + if out[|out| - 1].BlockStart? then 1 else 0
  }

  function After(p: Progress, out: seq<AEvent>): Progress {
    if out == [] then p else Advance(After(p, out[..|out| - 1]), out[|out| - 1])
  }

  lemma {:induction false} AfterTail(p: Progress, out: seq<AEvent>)
    requires out != []
    ensures After(p, out) == After(Advance(p, out[0]), out[1..])
  {
    var n := |out| - 1;
    if n > 0 {
      assert out[1..][..n - 1] == out[..n][1..];
      AfterTail(p, out[..n]);
    } else {
      assert out[..n] == [] && out[1..] == [];
    }
  }

  lemma {:induction false} DisciplinedAt(p: Progress, out: seq<AEvent>, strict: bool, k: nat)
    requires Disciplined(p, out, strict) && k < |out|
    ensures Allowed(After(p, out[..k]), out[k], strict)
    decreases |out|
  {
    if k > 0 {
      DisciplinedAt(Advance(p, out[0]), out[1..], strict, k - 1);
      assert out[..k][1..] == out[1..][..k - 1];
      AfterTail(p, out[..k]);
    } else {
      assert out[..0] == [];
    }
  }

  lemma {:induction false} AfterMeaning(out: seq<AEvent>)
    ensures var p := After(NOTHING, out);
      && (p.started <==> exists j :: 0 <= j < |out| && out[j].MessageStart?)
      && p.count == Starts(out)
      && forall i :: i in p.stopped <==> exists j :: 0 <= j < |out| && out[j] == BlockStop(Some(i))
  {
    if out != [] {
      var n := |out| - 1;
      var a := out[..n];
      AfterMeaning(a);
      assert forall j :: 0 <= j < n ==> a[j] == out[j];
      var p, q := After(NOTHING, a), After(NOTHING, out);
      assert q == Advance(p, out[n]);
      forall i ensures i in q.stopped <==> exists j :: 0 <= j < |out| && out[j] == BlockStop(Some(i)) {
        if i in p.stopped {
          var j :| 0 <= j < |a| && a[j] == BlockStop(Some(i));
          assert out[j] == BlockStop(Some(i));
        }
        if j :| 0 <= j < |out| && out[j] == BlockStop(Some(i)) {
          if j < n {
            assert a[j] == BlockStop(Some(i));
          }
        }
      }
      if j :| 0 <= j < |out| && out[j].MessageStart? {
        assert j < n ==> a[j].MessageStart?;
      }
      if p.started {
        var j :| 0 <= j < |a| && a[j].MessageStart?;
        assert out[j].MessageStart?;
      }
    }
  }

  /** The discipline, read off each position of the outgoing stream. */
  lemma DisciplineMeans(out: seq<AEvent>, strict: bool, k: nat)
    requires Disciplined(NOTHING, out, strict) && k < |out|
    ensures out[k].BlockStart? ==> out[k].index == Some(Starts(out[..k]))
    ensures out[k].BlockDelta? || out[k].BlockStop? ==> out[k].index.Some? && out[k].index.value < Starts(out[..k])
    ensures out[k].BlockStop? ==> forall j :: 0 <= j < k ==> out[j] != out[k]
    ensures out[k].MessageStart? ==> forall j :: 0 <= j < k ==> !out[j].MessageStart?
    ensures strict && out[k].BlockDelta? ==> forall j :: 0 <= j < k ==> out[j] != BlockStop(out[k].index)
  {
    DisciplinedAt(NOTHING, out, strict, k);
    AfterMeaning(out[..k]);
    assert forall j :: 0 <= j < k ==> out[..k][j] == out[j];
  }

  // ---------- the translator obeys them ----------

  ghost predicate Tracks(st: State, p: Progress) {
    && st.started == p.started && st.next == p.count
    && (forall id :: id in st.blocks ==>
          st.blocks[id].index < st.next && (st.blocks[id].stopped <==> st.blocks[id].index in p.stopped))
    && (forall a, b :: a in st.blocks && b in st.blocks && a != b ==> st.blocks[a].index != st.blocks[b].index)
    && (forall i :: i in p.stopped ==> i < p.count)
  }

  lemma DisciplinedOne(p: Progress, out: seq<AEvent>, strict: bool)
    ensures |out| == 1 ==> (Disciplined(p, out, strict) <==> Allowed(p, out[0], strict))
    ensures |out| == 1 ==> After(p, out) == Advance(p, out[0])
    ensures out == [] ==> Disciplined(p, out, strict) && After(p, out) == p
    ensures |out| == 2 ==> (Disciplined(p, out, strict) <==>
                              Allowed(p, out[0], strict) && Allowed(Advance(p, out[0]), out[1], strict))
    ensures |out| == 2 ==> After(p, out) == Advance(Advance(p, out[0]), out[1])
    decreases |out|
  {
    if |out| == 1 {
      assert out[1..] == [] && out[..0] == [];
    } else if |out| == 2 {
      assert out[1..] == [out[1]] && out[..1] == [out[0]];
      DisciplinedOne(Advance(p, out[0]), out[1..], strict);
      DisciplinedOne(p, out[..1], strict);
    }
  }

  lemma {:induction false} DisciplinedConcat(p: Progress, a: seq<AEvent>, b: seq<AEvent>, strict: bool)
    ensures Disciplined(p, a + b, strict) <==> Disciplined(p, a, strict) && Disciplined(After(p, a), b, strict)
    decreases |a|
  {
    if a == [] {
      assert a + b == b;
    } else {
      assert (a + b)[1..] == a[1..] + b;
      DisciplinedConcat(Advance(p, a[0]), a[1..], b, strict);
      AfterTail(p, a);
    }
  }

  predicate LateDelta(st: State, b: RBody) {
    IsDeltaFor(b, st.blocks.Keys) && st.blocks[b.target.value].stopped
  }

  lemma TracksOpen(st: State, p: Progress, id: string, block: ABlock, saw: bool)
    requires Tracks(st, p)
    ensures var e := BlockStart(Some(st.next), block);
      Allowed(p, e, true) && Tracks(Open(st, id).(sawCall := saw), Advance(p, e))
  {
  }

  lemma TracksStop(st: State, p: Progress, id: string)
    requires Tracks(st, p) && id in st.blocks && !st.blocks[id].stopped
    ensures var e := BlockStop(Some(st.blocks[id].index));
      && Allowed(p, e, true)
      && Tracks(st.(blocks := st.blocks[id := st.blocks[id].(stopped := true)]), Advance(p, e))
  {
  }

  lemma TracksRest(st: State, p: Progress, e: REvent, draw: string, strict: bool)
    requires Tracks(st, p) && Opens(st.blocks.Keys, e.body).None? && !IsDone(e.body)
    ensures var (st1, out) := Step(st, e, draw);
      && (Disciplined(p, out, strict) <==> (strict ==> !LateDelta(st, e.body)))
      && Tracks(st1, After(p, out))
  {
    hide Disciplined, After;
    var (st1, out) := Step(st, e, draw);
    DisciplinedOne(p, out, strict);
  }

  lemma StepTracks(st: State, p: Progress, e: REvent, draw: string, strict: bool)
    requires Tracks(st, p)
    ensures var (st1, out) := Step(st, e, draw);
      && (Disciplined(p, out, strict) <==> (strict ==> !LateDelta(st, e.body)))
      && Tracks(st1, After(p, out))
  {
    hide Disciplined, After, Tracks;
    var (st1, out) := Step(st, e, draw);
    DisciplinedOne(p, out, strict);
    if Opens(st.blocks.Keys, e.body).Some? {
      var (id, block) := Opens(st.blocks.Keys, e.body).value;
      TracksOpen(st, p, id, block, st.sawCall || block.ToolUseBlock?);
    } else if IsDone(e.body) {
      var id := ItemOf(e.body);
      if id in st.blocks && !st.blocks[id].stopped {
        TracksStop(st, p, id);
      }
    } else {
      TracksRest(st, p, e, draw, strict);
    }
  }

  lemma {:induction false} RunTracks(st: State, p: Progress, es: seq<REvent>, draw: string)
    requires Tracks(st, p)
    ensures Disciplined(p, Run(st, es, draw).1, false)
    decreases |es|
  {
    hide Step, Tracks;
    if es != [] {
      var (st1, out) := Step(st, es[0], draw);
      StepTracks(st, p, es[0], draw, false);
      RunTracks(st1, After(p, out), es[1..], draw);
      DisciplinedConcat(p, out, Run(st1, es[1..], draw).1, false);
    }
  }

  /** Every stream that goes in, sane or not, comes out disciplined. */
  lemma AlwaysDisciplined(es: seq<REvent>, draw: string)
    ensures Disciplined(NOTHING, Run(FRESH, es, draw).1, false)
  {
    RunTracks(FRESH, NOTHING, es, draw);
  }

  lemma {:induction false} RunKeepsTracks(st: State, p: Progress, es: seq<REvent>, draw: string)
    requires Tracks(st, p)
    ensures exists q :: Tracks(Run(st, es, draw).0, q)
    decreases |es|
  {
    hide Step, Tracks;
    if es != [] {
      StepTracks(st, p, es[0], draw, false);
      var (st1, out) := Step(st, es[0], draw);
      assert Run(st, es, draw).0 == Run(st1, es[1..], draw).0;
      RunKeepsTracks(st1, After(p, out), es[1..], draw);
    } else {
      assert Tracks(Run(st, es, draw).0, p);
    }
  }

  /** At any time, different items stand for different blocks, and only for blocks that have opened. */
  lemma DistinctItems(es: seq<REvent>, draw: string)
    ensures var st := Run(FRESH, es, draw).0;
      && (forall id :: id in st.blocks ==> st.blocks[id].index < st.next)
      && (forall a, b :: a in st.blocks && b in st.blocks && a != b ==> st.blocks[a].index != st.blocks[b].index)
  {
    RunKeepsTracks(FRESH, NOTHING, es, draw);
  }

  // ---------- when no delta follows its block's stop ----------

  /** The items added so far. */
  function Known(b: RBody, known: set<string>): set<string> {
    match b
    case ItemAdded(_, FunctionCallItem(id, _, _, _, _)) => known + {id}
    case ItemAdded(_, ReasoningItem(id, _, _)) => known + {id}
    case PartAdded(id, _, true) => known + {id}
    case _ => known
  }

  /** Those of them that are done and have not been added anew since. */
  function Closed(b: RBody, known: set<string>, closed: set<string>): set<string> {
    match b
    case ItemAdded(_, FunctionCallItem(id, _, _, _, _)) => closed - {id}
    case ItemAdded(_, ReasoningItem(id, _, _)) => closed - {id}
    case _ => if IsDone(b) && ItemOf(b) in known then closed + {ItemOf(b)} else closed
  }

  /** Read off the incoming stream alone: some delta names an item that is closed. */
  predicate HasLateDelta(es: seq<REvent>, known: set<string>, closed: set<string>) {
    es != [] &&
    var b := es[0].body;
    || IsDeltaFor(b, closed)
    || HasLateDelta(es[1..], Known(b, known), Closed(b, known, closed))
  }

  ghost predicate Knows(st: State, known: set<string>, done: set<string>) {
    st.blocks.Keys == known && done <= known && forall id :: id in known ==> (st.blocks[id].stopped <==> id in done)
  }

  lemma {:induction false} StrictRun(st: State, p: Progress, es: seq<REvent>, draw: string, known: set<string>,
                                     done: set<string>)
    requires Tracks(st, p) && Knows(st, known, done)
    ensures Disciplined(p, Run(st, es, draw).1, true) <==> !HasLateDelta(es, known, done)
    decreases |es|
  {
    hide Step, Tracks, Knows, Known, Closed, LateDelta;
    if es != [] {
      var b := es[0].body;
      var (st1, out) := Step(st, es[0], draw);
      StepTracks(st, p, es[0], draw, true);
      DisciplinedConcat(p, out, Run(st1, es[1..], draw).1, true);
      StepKnows(st, es[0], draw, known, done);
      StrictRun(st1, After(p, out), es[1..], draw, Known(b, known), Closed(b, known, done));
    }
  }

  lemma StepKnows(st: State, e: REvent, draw: string, known: set<string>, done: set<string>)
    requires Knows(st, known, done)
    ensures Knows(Step(st, e, draw).0, Known(e.body, known), Closed(e.body, known, done))
    ensures LateDelta(st, e.body) <==> IsDeltaFor(e.body, done)
  {
    hide DeltaOf, StartUsage, UsageFromOpenAi, ErrorOf, StopReason, SynthId;
  }

  /** No delta follows the stop of its block exactly when the incoming stream has no late delta. */
  lemma StrictIffNoLateDelta(es: seq<REvent>, draw: string)
    ensures Disciplined(NOTHING, Run(FRESH, es, draw).1, true) <==> !HasLateDelta(es, {}, {})
  {
    StrictRun(FRESH, NOTHING, es, draw, {}, {});
  }

  /** A text part is added, its item is done, and then a delta for it arrives. */
  const LATE := [
    REvent(0, PartAdded("a", 0, true)),
    REvent(1, ItemDone(0, MessageItem("a", "completed", Some("")))),
    REvent(2, OutputTextDelta(Some("a"), 0, "b"))]

  /** The late delta is passed on, after the stop of its block. */
  lemma LateDeltaPasses(draw: string)
    ensures !Disciplined(NOTHING, Run(FRESH, LATE, draw).1, true)
  {
    hide Run, Disciplined;
    var b0, b1, b2 := LATE[0].body, LATE[1].body, LATE[2].body;
    assert LATE[1..][1..] == [LATE[2]] && LATE[1..][0] == LATE[1];
    assert Known(b0, {}) == {"a"} && Closed(b1, {"a"}, {}) == {"a"};
    assert HasLateDelta([LATE[2]], {"a"}, {"a"});
    assert HasLateDelta(LATE[1..], {"a"}, {});
    assert HasLateDelta(LATE, {}, {});
    StrictIffNoLateDelta(LATE, draw);
  }
}
