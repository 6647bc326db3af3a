/**
 A Responses stream translated to Messages and back. What its terminal event lists can be read off the
 incoming stream alone.
 */
module StreamReturn {
  import opened Common
  import opened Wire
  import F = ForwardStream
  import R = ReverseStream
  import D = ReverseDiscipline
  import Scan

  /** What the incoming stream says about one of its items: the block it opens, and its text so far. */
  datatype Heard = Heard(block: ABlock, text: string)

  /** The opened items in opening order, and the place that each item id now stands for. */
  datatype Ledger = Ledger(items: seq<Heard>, live: map<string, nat>)

  const NO_ITEMS := Ledger([], map[])

  predicate Sound(l: Ledger) {
    forall id :: id in l.live ==> l.live[id] < |l.items|
  }

  function Note(l: Ledger, b: RBody): (r: Ledger)
    requires Sound(l)
    ensures Sound(r)
  {
    match F.Opens(l.live.Keys, b)
    case Some((id, block)) => Ledger(l.items + [Heard(block, "")], l.live[id := |l.items|])
    case None =>
      if IsDeltaFor(b, l.live.Keys) then
        var k := l.live[b.target.value];
        l.(items := l.items[k := Heard(l.items[k].block, l.items[k].text + b.delta)])
      else l
  }

  function Record(l: Ledger, es: seq<REvent>): (r: Ledger)
    requires Sound(l)
    ensures Sound(r)
    decreases |es|
  {
    if es == [] then l else Record(Note(l, es[0].body), es[1..])
  }

  // ---------- the two translators against the ledger ----------

  /** The block that the reverse translator holds is the one heard of. */
  predicate Fits(b: R.Open, x: Heard) {
    && b.buffer == x.text
    && match x.block
       case TextBlock => b.kind.Text?
       case ThinkingBlock => b.kind.Thinking?
       case ToolUseBlock(id, name) => b.kind.ToolUse? && b.callId == id && b.name == name
       case OtherBlock => false
  }

  ghost predicate Mirrors(f: F.State, r: R.State, l: Ledger) {
    && Sound(l) && f.next == |l.items| == |r.order|
    && f.blocks.Keys == l.live.Keys
    && (forall id :: id in l.live ==> f.blocks[id].index == l.live[id])
    && (forall k :: 0 <= k < |r.order| ==> r.order[k] == k)
    && (forall k: nat :: k < |l.items| ==> k in r.blocks && Fits(r.blocks[k], l.items[k]))
  }

  lemma MirrorsOpen(f: F.State, r: R.State, l: Ledger, id: string, block: ABlock, saw: bool, b: R.Open, r1: R.State)
    requires Mirrors(f, r, l) && Fits(b, Heard(block, ""))
    requires r1.blocks == r.blocks[f.next := b] && r1.order == r.order + [f.next]
    ensures Mirrors(F.Open(f, id).(sawCall := saw), r1, Ledger(l.items + [Heard(block, "")], l.live[id := |l.items|]))
  {
  }

  lemma MirrorsDelta(f: F.State, r: R.State, l: Ledger, k: nat, text: string, r1: R.State)
    requires Mirrors(f, r, l) && k < |l.items| && k in r.blocks && r1.order == r.order
    requires r1.blocks == r.blocks[k := r.blocks[k].(buffer := r.blocks[k].buffer + text)]
    ensures Mirrors(f, r1, l.(items := l.items[k := Heard(l.items[k].block, l.items[k].text + text)]))
  {
  }

  lemma MirrorsSame(f: F.State, r: R.State, l: Ledger, f1: F.State, r1: R.State)
    requires Mirrors(f, r, l) && r1.blocks == r.blocks && r1.order == r.order
    requires f1.next == f.next && f1.blocks.Keys == f.blocks.Keys
    requires forall id :: id in f.blocks ==> f1.blocks[id].index == f.blocks[id].index
    ensures Mirrors(f1, r1, l)
  {
  }

  lemma MirrorsKeys(f: F.State, r: R.State, l: Ledger)
    requires Mirrors(f, r, l)
    ensures Sound(l) && f.blocks.Keys == l.live.Keys
    ensures forall id :: id in l.live ==> f.blocks[id].index == l.live[id] && l.live[id] in r.blocks
  {
  }

  /** The state after a few events. */
  lemma Taken(r: R.State, out: seq<AEvent>, draws: seq<string>)
    requires |draws| == |out|
    ensures out == [] ==> R.Run(r, out, draws).0 == r
    ensures |out| == 1 ==> R.Run(r, out, draws).0 == R.Step(r, out[0], draws[0]).0
    ensures |out| == 2 ==> R.Run(r, out, draws).0 == R.Step(R.Step(r, out[0], draws[0]).0, out[1], draws[1]).0
    decreases |out|
  {
    hide R.Step;
    if |out| > 0 {
      Taken(R.Step(r, out[0], draws[0]).0, out[1..], draws[1..]);
    }
  }

  /** Events that open no block and carry no text leave the blocks alone. */
  lemma Untouched(r: R.State, e: AEvent, draw: string)
    requires !e.BlockStart? && !e.BlockDelta?
    ensures R.Step(r, e, draw).0.blocks == r.blocks && R.Step(r, e, draw).0.order == r.order
  {
    hide R.Terminal, R.StopBodies, R.MergeUsage, SynthId;
  }

  lemma OpenMirrors(f: F.State, r: R.State, l: Ledger, e: REvent, mid: string, draws: seq<string>)
    requires Mirrors(f, r, l) && |draws| == |F.Step(f, e, mid).1| && F.Opens(f.blocks.Keys, e.body).Some?
    ensures Sound(l)
    ensures var (f1, out) := F.Step(f, e, mid);
      Mirrors(f1, R.Run(r, out, draws).0, Note(l, e.body))
  {
    MirrorsKeys(f, r, l);
    hide Mirrors, R.Run, SynthId, R.StartBodies;
    var (id, block) := F.Opens(f.blocks.Keys, e.body).value;
    var (f1, out) := F.Step(f, e, mid);
    Taken(r, out, draws);
    MirrorsOpen(f, r, l, id, block, f1.sawCall, R.NewBlock(block, draws[0]).value, R.Run(r, out, draws).0);
  }

  lemma DeltaMirrors(f: F.State, r: R.State, l: Ledger, e: REvent, mid: string, draws: seq<string>)
    requires Mirrors(f, r, l) && |draws| == |F.Step(f, e, mid).1| && IsDeltaFor(e.body, f.blocks.Keys)
    ensures Sound(l)
    ensures var (f1, out) := F.Step(f, e, mid);
      Mirrors(f1, R.Run(r, out, draws).0, Note(l, e.body))
  {
    MirrorsKeys(f, r, l);
    DeltaPasses(f, e, mid);
    DeltaNoted(l, e.body);
    hide Mirrors, Note, R.Run, R.Step, F.Step, F.Opens, F.DeltaOf;
    var k, d := l.live[e.body.target.value], F.DeltaOf(e.body);
    Taken(r, F.Step(f, e, mid).1, draws);
    DeltaTaken(r, k, d, draws[0]);
    MirrorsDelta(f, r, l, k, e.body.delta, R.Run(r, F.Step(f, e, mid).1, draws).0);
  }

  lemma DeltaPasses(f: F.State, e: REvent, mid: string)
    requires IsDeltaFor(e.body, f.blocks.Keys)
    ensures !F.DeltaOf(e.body).OtherDelta? && F.DeltaOf(e.body).text == e.body.delta
    ensures F.Step(f, e, mid) == (f, [BlockDelta(Some(f.blocks[e.body.target.value].index), F.DeltaOf(e.body))])
  {
  }

  lemma DeltaNoted(l: Ledger, b: RBody)
    requires Sound(l) && IsDeltaFor(b, l.live.Keys)
    ensures var k := l.live[b.target.value];
      Note(l, b) == l.(items := l.items[k := Heard(l.items[k].block, l.items[k].text + b.delta)])
  {
  }

  lemma DeltaTaken(r: R.State, k: nat, d: ADelta, draw: string)
    requires k in r.blocks && !d.OtherDelta?
    ensures var r1 := R.Step(r, BlockDelta(Some(k), d), draw).0;
      r1.blocks == r.blocks[k := r.blocks[k].(buffer := r.blocks[k].buffer + d.text)] && r1.order == r.order
  {
    hide R.DeltaBody;
  }

  /** All other events: nothing opens, and nothing is heard. */
  lemma RestUntouched(f: F.State, r: R.State, e: REvent, mid: string, draws: seq<string>)
    requires |draws| == |F.Step(f, e, mid).1|
    requires F.Opens(f.blocks.Keys, e.body).None? && !IsDeltaFor(e.body, f.blocks.Keys)
    ensures var (f1, out) := F.Step(f, e, mid);
      var r1 := R.Run(r, out, draws).0;
      && f1.next == f.next && f1.blocks.Keys == f.blocks.Keys
      && (forall id :: id in f.blocks ==> f1.blocks[id].index == f.blocks[id].index)
      && r1.blocks == r.blocks && r1.order == r.order
  {
    hide R.Run, R.Step, SynthId, F.UsageFromOpenAi, F.StartUsage, F.StopReason, F.DeltaOf, F.BareError;
    var (f1, out) := F.Step(f, e, mid);
    Taken(r, out, draws);
    if |out| >= 1 {
      Untouched(r, out[0], draws[0]);
      if |out| == 2 {
        Untouched(R.Step(r, out[0], draws[0]).0, out[1], draws[1]);
      }
    }
  }

  lemma StepMirrors(f: F.State, r: R.State, l: Ledger, e: REvent, mid: string, draws: seq<string>)
    requires Mirrors(f, r, l) && |draws| == |F.Step(f, e, mid).1|
    ensures Sound(l)
    ensures var (f1, out) := F.Step(f, e, mid);
      Mirrors(f1, R.Run(r, out, draws).0, Note(l, e.body))
  {
    MirrorsKeys(f, r, l);
    hide Mirrors, R.Run, F.Step, F.Opens;
    if F.Opens(f.blocks.Keys, e.body).Some? {
      OpenMirrors(f, r, l, e, mid, draws);
    } else if IsDeltaFor(e.body, f.blocks.Keys) {
      DeltaMirrors(f, r, l, e, mid, draws);
    } else {
      RestUntouched(f, r, e, mid, draws);
      MirrorsSame(f, r, l, F.Step(f, e, mid).0, R.Run(r, F.Step(f, e, mid).1, draws).0);
    }
  }

  lemma {:induction false} ReverseConcat(r: R.State, a: seq<AEvent>, b: seq<AEvent>, draws: seq<string>)
    requires |draws| == |a + b|
    ensures R.Run(r, a + b, draws).0 == R.Run(R.Run(r, a, draws[..|a|]).0, b, draws[|a|..]).0
    decreases |a|
  {
    hide R.Step;
    if a == [] {
      assert a + b == b && draws[0..] == draws;
    } else {
      assert (a + b)[1..] == a[1..] + b;
      assert draws[1..][..|a| - 1] == draws[..|a|][1..] && draws[1..][|a| - 1..] == draws[|a|..];
      ReverseConcat(R.Step(r, a[0], draws[0]).0, a[1..], b, draws[1..]);
    }
  }

  lemma {:induction false} RunMirrors(f: F.State, r: R.State, l: Ledger, es: seq<REvent>, mid: string,
                                      draws: seq<string>)
    requires Mirrors(f, r, l) && |draws| == |F.Run(f, es, mid).1|
    ensures Sound(l)
    ensures var (f1, out) := F.Run(f, es, mid);
      Mirrors(f1, R.Run(r, out, draws).0, Record(l, es))
    decreases |es|
  {
    MirrorsKeys(f, r, l);
    hide F.Step, Mirrors, Note, Sound, R.Step;
    if es != [] {
      var (f1, out) := F.Step(f, es[0], mid);
      var rest := F.Run(f1, es[1..], mid).1;
      StepMirrors(f, r, l, es[0], mid, draws[..|out|]);
      ReverseConcat(r, out, rest, draws);
      RunMirrors(f1, R.Run(r, out, draws[..|out|]).0, Note(l, es[0].body), es[1..], mid, draws[|out|..]);
    }
  }

  // ---------- what comes back ----------

  /** The item is complete, and is what was heard: its kind, what its block carries, and all its text. */
  predicate Describes(item: RItem, x: Heard) {
    match x.block
    case TextBlock => item.MessageItem? && item.status == "completed" && item.text == Some(x.text)
    case ThinkingBlock => item.ReasoningItem? && item.status == "completed" && item.summary == Some(x.text)
    case ToolUseBlock(id, name) => item == FunctionCallItem(item.id, "completed", id, name, x.text)
    case OtherBlock => false
  }

  lemma MirrorsOutput(f: F.State, r: R.State, l: Ledger)
    requires Mirrors(f, r, l)
    ensures |R.Output(r.blocks, r.order)| == |l.items|
    ensures forall k :: 0 <= k < |l.items| ==> Describes(R.Output(r.blocks, r.order)[k], l.items[k])
  {
    D.OutputAt(r.blocks, r.order);
  }

  /** What the forward translator makes of the end of a Responses stream. */
  lemma {:induction false} EndsInStop(f: F.State, es: seq<REvent>, mid: string)
    requires es != [] && D.IsTerminal(es[|es| - 1].body)
    ensures var out := F.Run(f, es, mid).1;
      && D.Ends(out)
      && (Scan.LastStop(out) == Some("max_tokens") <==> es[|es| - 1].body.response.status == Some("incomplete"))
  {
    var n := |es| - 1;
    var (f1, out) := F.Run(f, es[..n], mid);
    var e := es[n];
    assert es == es[..n] + [e];
    F.RunConcat(f, es[..n], [e], mid);
    var last := F.Step(f1, e, mid).1;
    assert F.Run(f1, [e], mid).1 == last by {
      hide F.Step;
      assert [e][1..] == [] && last + [] == last;
    }
    hide F.Run, F.UsageFromOpenAi;
    LastStopOfPair(out, last[0]);
    assert out + last == out + [last[0], MessageStop];
  }

  lemma LastStopOfPair(out: seq<AEvent>, e: AEvent)
    requires e.MessageDelta? && AsStr(e.stopReason).Some?
    ensures Scan.LastStop(out + [e, MessageStop]) == AsStr(e.stopReason)
  {
    var all := out + [e, MessageStop];
    assert all[..|all| - 1] == out + [e];
  }

  /**
   A Responses stream that ends comes back, for every stream, with a terminal event that lists exactly its
   opened items in opening order, each complete and with all the text it was sent; and that is incomplete
   exactly if the terminal event that came in says so in its status.
   */
  lemma ResponsesComeBackAs(es: seq<REvent>, mid: string, draws: seq<string>)
    requires es != [] && D.IsTerminal(es[|es| - 1].body) && |draws| == |F.Run(F.FRESH, es, mid).1|
    ensures var back := R.Run(R.FRESH, F.Run(F.FRESH, es, mid).1, draws).1;
      var items := Record(NO_ITEMS, es).items;
      && back != [] && D.IsTerminal(back[|back| - 1].body)
      && |D.FinalOutput(back)| == |items|
      && (forall k :: 0 <= k < |items| ==> Describes(D.FinalOutput(back)[k], items[k]))
      && (back[|back| - 1].body.Incomplete? <==> es[|es| - 1].body.response.status == Some("incomplete"))
  {
    var messages := F.Run(F.FRESH, es, mid).1;
    assert Mirrors(F.FRESH, R.FRESH, NO_ITEMS);
    hide F.Run, R.Run, Record, Mirrors, Describes;
    RunMirrors(F.FRESH, R.FRESH, NO_ITEMS, es, mid, draws);
    EndsInStop(F.FRESH, es, mid);
    D.EndsInTerminal(R.FRESH, messages, draws);
    D.TerminalEvent(messages, draws);
    MirrorsOutput(F.Run(F.FRESH, es, mid).0, R.Run(R.FRESH, messages, draws).0, Record(NO_ITEMS, es));
  }
}
