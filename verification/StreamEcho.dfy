/**
 A Messages stream translated to Responses and back. `Echo` says, without either translator, what
 comes out of the pair for any stream whatsoever; the translators' composition is proved equal to it.
 */
module StreamEcho {
  import opened Common
  import opened Wire
  import F = ForwardStream
  import R = ReverseStream

  /**
   What a reader of the incoming stream needs to remember: how many blocks have opened, the outgoing
   number of the block that each incoming index now stands for, and the material of the last events.
   */
  datatype Echo = Echo(
    started: bool,
    count: nat,
    live: map<nat, F.Slot>,
    sawTool: bool,
    usage: Option<map<string, Json>>,
    stop: Option<string>
  )

  const SILENT := Echo(false, 0, map[], false, None, None)

  function EchoUsage(usage: Option<map<string, Json>>): Json {
    match usage
    case None => Obj(map["output_tokens" := Int(0)])
    case Some(u) => Obj(map["output_tokens" := Int(R.IntOr0(u, "output_tokens")),
                            "input_tokens" := Int(R.IntOr0(u, "input_tokens")),
                            "cache_read_input_tokens" := Int(R.IntOr0(u, "cache_read_input_tokens")),
                            "thinking_tokens" := Int(R.IntOr0(u, "thinking_tokens"))])
  }

  function EchoStop(stop: Option<string>, sawTool: bool): string {
    if stop == Some("max_tokens") then "max_tokens" else if sawTool then "tool_use" else "end_turn"
  }

  function EchoStart(m: AMessage, draw: string): AEvent {
    MessageStart(AMessage(Str(SynthId("msg", draw)), Some(Str("assistant")), m.model,
                          Some(Obj(map["input_tokens" := Int(0), "output_tokens" := Int(0)]))))
  }

  function Step(st: Echo, e: AEvent, draw: string): (Echo, seq<AEvent>) {
    match e
    case MessageStart(m) =>
      (st.(started := true, usage := R.MergeUsage(st.usage, m.usage)), if st.started then [] else [EchoStart(m, draw)])
    case BlockStart(Some(i), block) =>
      if block.OtherBlock? then (st, [])
      else
        (st.(count := st.count + 1, live := st.live[i := F.Slot(st.count, false)],
             sawTool := st.sawTool || block.ToolUseBlock?),
         [BlockStart(Some(st.count), block)])
    case BlockDelta(Some(i), d) =>
      (st, if i in st.live && !d.OtherDelta? then [BlockDelta(Some(st.live[i].index), d)] else [])
    case BlockStop(Some(i)) =>
      if i in st.live && !st.live[i].stopped then
        (st.(live := st.live[i := st.live[i].(stopped := true)]), [BlockStop(Some(st.live[i].index))])
      else (st, [])
    case MessageDelta(reason, _, usage) =>
      (st.(stop := if AsStr(reason).Some? then AsStr(reason) else st.stop, usage := R.MergeUsage(st.usage, usage)), [])
    case MessageStop =>
      (st, [MessageDelta(Some(Str(EchoStop(st.stop, st.sawTool))), Some(Null), Some(EchoUsage(st.usage))), MessageStop])
    case ErrorEvent(kind, text) => (st, [ErrorEvent(Some(kind.GetOr("api_error")), Some(text.GetOr("")))])
    case _ => (st, [])
  }

  function Run(st: Echo, es: seq<AEvent>, draw: string): (Echo, seq<AEvent>)
    decreases |es|
  {
    if es == [] then (st, [])
    else
      var (st1, out) := Step(st, es[0], draw);
      var (st2, rest) := Run(st1, es[1..], draw);
      (st2, out + rest)
  }

  // ---------- minted ids ----------

  predicate IsId(id: string, draw: string) {
    id == SynthId("msg", draw) || id == SynthId("fc", draw) || id == SynthId("rs", draw)
  }

  ghost predicate Minted(id: string, used: set<string>) {
    exists d :: d in used && IsId(id, d)
  }

  lemma DrawOf(id: string, d: string, e: string)
    requires IsId(id, d) && IsId(id, e)
    ensures d == e
  {
    assert SynthId("msg", d)[4..] == d && SynthId("fc", d)[3..] == d && SynthId("rs", d)[3..] == d;
    assert SynthId("msg", e)[4..] == e && SynthId("fc", e)[3..] == e && SynthId("rs", e)[3..] == e;
    assert SynthId("msg", d)[0] == 'm' && SynthId("fc", d)[0] == 'f' && SynthId("rs", d)[0] == 'r';
  }

  lemma FreshId(id: string, draw: string, used: set<string>)
    requires IsId(id, draw) && draw !in used
    ensures !Minted(id, used)
  {
    forall d | d in used && IsId(id, d) ensures false {
      DrawOf(id, d, draw);
    }
  }

  // ---------- the composition ----------

  /** The two translators between them hold exactly what the echo remembers. */
  ghost predicate Agree(r: R.State, f: F.State, n: Echo, used: set<string>) {
    && f.started == n.started && f.next == n.count && f.sawCall == n.sawTool
    && r.usage == n.usage && r.stopReason == n.stop
    && r.blocks.Keys == n.live.Keys
    && (forall i :: i in r.blocks ==> r.blocks[i].itemId in f.blocks && f.blocks[r.blocks[i].itemId] == n.live[i])
    && (forall i, j :: i in r.blocks && j in r.blocks && i != j ==> r.blocks[i].itemId != r.blocks[j].itemId)
    && (forall id :: id in f.blocks ==> Minted(id, used))
  }

  /** Both translators on one incoming event. */
  function Pair(r: R.State, f: F.State, e: AEvent, draw: string, mid: string): (R.State, F.State, seq<AEvent>) {
    var (r1, mids) := R.Step(r, e, draw);
    var (f1, out) := F.Run(f, mids, mid);
    (r1, f1, out)
  }

  lemma Unroll(f: F.State, es: seq<REvent>, mid: string)
    ensures es == [] ==> F.Run(f, es, mid) == (f, [])
    ensures es != [] ==>
      var a := F.Step(f, es[0], mid);
      var b := F.Run(a.0, es[1..], mid);
      && (a.1 == [] ==> F.Run(f, es, mid) == b)
      && (b.1 == [] ==> F.Run(f, es, mid) == (b.0, a.1))
    ensures |es| == 1 ==> F.Run(f, es, mid) == F.Step(f, es[0], mid)
  {
    hide F.Step;
    if es != [] {
      var a := F.Step(f, es[0], mid);
      var b := F.Run(a.0, es[1..], mid);
      assert [] + b.1 == b.1 && a.1 + [] == a.1;
      assert |es| == 1 ==> es[1..] == [];
    }
  }

  /** Opening a block under an id not seen before opens exactly one block on the way back. */
  lemma StartRuns(f: F.State, b: R.Open, i: nat, seqno: nat, mid: string)
    requires b.itemId !in f.blocks
    ensures var block := match b.kind
        case Text => TextBlock
        case ToolUse => ToolUseBlock(b.callId, b.name)
        case Thinking => ThinkingBlock;
      F.Run(f, R.Numbered(seqno, R.StartBodies(b, i)), mid) ==
      (F.Open(f, b.itemId).(sawCall := f.sawCall || b.kind.ToolUse?), [BlockStart(Some(f.next), block)])
  {
    hide F.Run;
    var es := R.Numbered(seqno, R.StartBodies(b, i));
    Unroll(f, es, mid);
    if b.kind.Text? {
      Unroll(F.Step(f, es[0], mid).0, es[1..], mid);
    }
  }

  /** Of all the done events of a block, the first one closes it on the way back, unless it is closed. */
  lemma StopRuns(f: F.State, b: R.Open, i: nat, seqno: nat, mid: string)
    requires b.itemId in f.blocks
    ensures var slot := f.blocks[b.itemId];
      F.Run(f, R.Numbered(seqno, R.StopBodies(b, i)), mid) ==
      (f.(blocks := f.blocks[b.itemId := slot.(stopped := true)]),
       if slot.stopped then [] else [BlockStop(Some(slot.index))])
  {
    hide F.Run, F.DeltaOf, F.StartUsage, F.UsageFromOpenAi, F.ErrorOf, F.StopReason, F.Open, SynthId;
    var es := R.Numbered(seqno, R.StopBodies(b, i));
    var f1 := F.Step(f, es[0], mid).0;
    Unroll(f, es, mid);
    Unroll(f1, es[1..], mid);
    assert f1.blocks == f.blocks[b.itemId := f.blocks[b.itemId].(stopped := true)];
    assert F.Step(f1, es[1], mid) == (f1, []);
    if b.kind.Text? {
      Unroll(f1, es[2..], mid);
      assert es[1..][1..] == es[2..];
      assert F.Step(f1, es[2], mid) == (f1, []);
    }
  }

  lemma StartAgrees(r: R.State, f: F.State, n: Echo, used: set<string>, i: nat, block: ABlock, draw: string,
                    mid: string)
    requires Agree(r, f, n, used) && draw !in used && !block.OtherBlock?
    ensures var e := BlockStart(Some(i), block);
      var (r1, f1, out) := Pair(r, f, e, draw, mid);
      var (n1, want) := Step(n, e, mid);
      Agree(r1, f1, n1, used + {draw}) && out == want
  {
    hide F.Run, F.Step, R.StartBodies, R.Numbered, SynthId, Agree;
    var b := R.NewBlock(block, draw).value;
    assert IsId(b.itemId, draw);
    NewId(r, f, n, used, b.itemId, draw);
    StartRuns(f, b, i, r.seqno, mid);
    AgreeOpen(r, f, n, used, i, b, draw, r.seqno + |R.StartBodies(b, i)|, f.sawCall || b.kind.ToolUse?);
    assert f.sawCall == n.sawTool && f.next == n.count by { AgreeFlags(r, f, n, used); }
  }

  lemma AgreeFlags(r: R.State, f: F.State, n: Echo, used: set<string>)
    requires Agree(r, f, n, used)
    ensures f.sawCall == n.sawTool && f.next == n.count
  {
  }

  lemma NewId(r: R.State, f: F.State, n: Echo, used: set<string>, id: string, draw: string)
    requires Agree(r, f, n, used) && IsId(id, draw) && draw !in used
    ensures id !in f.blocks && Minted(id, used + {draw})
  {
    FreshId(id, draw, used);
  }

  lemma AgreeOpen(r: R.State, f: F.State, n: Echo, used: set<string>, i: nat, b: R.Open, draw: string, seqno: nat,
                  saw: bool)
    requires Agree(r, f, n, used) && b.itemId !in f.blocks && Minted(b.itemId, used + {draw})
    ensures Agree(r.(blocks := r.blocks[i := b], order := r.order + [i], seqno := seqno),
                  F.Open(f, b.itemId).(sawCall := saw),
                  n.(count := n.count + 1, live := n.live[i := F.Slot(n.count, false)], sawTool := saw),
                  used + {draw})
  {
    hide Minted;
    KeepMinted(f, used, draw);
  }

  lemma KeepMinted(f: F.State, used: set<string>, draw: string)
    requires forall id :: id in f.blocks ==> Minted(id, used)
    ensures forall id :: id in f.blocks ==> Minted(id, used + {draw})
  {
    forall id | id in f.blocks ensures Minted(id, used + {draw}) {
      var d :| d in used && IsId(id, d);
      assert d in used + {draw};
    }
  }

  lemma AgreeClose(r: R.State, f: F.State, n: Echo, used: set<string>, i: nat, draw: string, seqno: nat)
    requires Agree(r, f, n, used) && i in r.blocks
    ensures var id := r.blocks[i].itemId;
      && id in f.blocks && i in n.live && f.blocks[id] == n.live[i]
      && Agree(r.(seqno := seqno), f.(blocks := f.blocks[id := f.blocks[id].(stopped := true)]),
               n.(live := n.live[i := n.live[i].(stopped := true)]), used + {draw})
      && Agree(r.(seqno := seqno), f, n, used + {draw})
  {
    hide Minted;
    KeepMinted(f, used, draw);
  }

  lemma StopAgrees(r: R.State, f: F.State, n: Echo, used: set<string>, i: nat, draw: string, mid: string)
    requires Agree(r, f, n, used) && i in r.blocks
    ensures var e := BlockStop(Some(i));
      var (r1, f1, out) := Pair(r, f, e, draw, mid);
      var (n1, want) := Step(n, e, mid);
      Agree(r1, f1, n1, used + {draw}) && out == want
  {
    hide F.Run, F.Step, R.StopBodies, R.Numbered, SynthId, Agree;
    var b := r.blocks[i];
    AgreeClose(r, f, n, used, i, draw, r.seqno + |R.StopBodies(b, i)|);
    StopRuns(f, b, i, r.seqno, mid);
    if n.live[i].stopped {
      assert f.blocks[b.itemId := f.blocks[b.itemId].(stopped := true)] == f.blocks;
    }
  }

  lemma AgreeAppend(r: R.State, f: F.State, n: Echo, used: set<string>, i: nat, buffer: string, draw: string,
                    seqno: nat)
    requires Agree(r, f, n, used) && i in r.blocks
    ensures var id := r.blocks[i].itemId;
      && id in f.blocks && i in n.live && f.blocks[id] == n.live[i]
      && Agree(r.(blocks := r.blocks[i := r.blocks[i].(buffer := buffer)], seqno := seqno), f, n, used + {draw})
  {
    hide Minted;
    KeepMinted(f, used, draw);
  }

  lemma DeltaAgrees(r: R.State, f: F.State, n: Echo, used: set<string>, i: nat, d: ADelta, draw: string, mid: string)
    requires Agree(r, f, n, used) && i in r.blocks && !d.OtherDelta?
    ensures var e := BlockDelta(Some(i), d);
      var (r1, f1, out) := Pair(r, f, e, draw, mid);
      var (n1, want) := Step(n, e, mid);
      Agree(r1, f1, n1, used + {draw}) && out == want
  {
    hide F.Run, SynthId, Agree;
    var b := r.blocks[i];
    AgreeAppend(r, f, n, used, i, b.buffer + d.text, draw, r.seqno + 1);
    var es := R.Numbered(r.seqno, [R.DeltaBody(b.itemId, i, d)]);
    Unroll(f, es, mid);
    assert F.Step(f, es[0], mid) == (f, [BlockDelta(Some(n.live[i].index), d)]);
  }

  lemma EchoedUsage(usage: map<string, Json>)
    ensures F.UsageFromOpenAi(R.MapUsage(usage)).fields == EchoUsage(Some(usage)).fields
  {
    hide R.IntOr0;
  }

  lemma AgreeSame(r: R.State, f: F.State, n: Echo, used: set<string>, draw: string, r1: R.State, started: bool)
    requires Agree(r, f, n, used) && r1.blocks == r.blocks
    ensures Agree(r1, f.(started := started), n.(started := started, usage := r1.usage, stop := r1.stopReason),
                  used + {draw})
    ensures f.started == n.started && f.sawCall == n.sawTool && r.usage == n.usage && r.stopReason == n.stop
  {
    hide Minted;
    KeepMinted(f, used, draw);
  }

  lemma MessageStartAgrees(r: R.State, f: F.State, n: Echo, used: set<string>, m: AMessage, draw: string, mid: string)
    requires Agree(r, f, n, used)
    ensures var (r1, f1, out) := Pair(r, f, MessageStart(m), draw, mid);
      var (n1, want) := Step(n, MessageStart(m), mid);
      Agree(r1, f1, n1, used + {draw}) && out == want
  {
    hide F.Run, SynthId, Agree;
    var (r1, mids) := R.Step(r, MessageStart(m), draw);
    AgreeSame(r, f, n, used, draw, r1, true);
    Unroll(f, mids, mid);
    var f1 := f.(started := true);
    assert F.Step(f, mids[0], mid).0 == f1;
    Unroll(f1, mids[1..], mid);
    assert F.Step(f1, mids[1], mid) == (f1, []);
  }

  lemma MessageStopAgrees(r: R.State, f: F.State, n: Echo, used: set<string>, draw: string, mid: string)
    requires Agree(r, f, n, used)
    ensures var (r1, f1, out) := Pair(r, f, MessageStop, draw, mid);
      var (n1, want) := Step(n, MessageStop, mid);
      Agree(r1, f1, n1, used + {draw}) && out == want
  {
    hide F.Run, SynthId, Agree, R.MapUsage, R.Output, F.DeltaOf, F.StartUsage, F.ErrorOf, F.Open;
    hide R.StartBodies, R.StopBodies, R.NewBlock, R.DeltaBody;
    var (r1, mids) := R.Step(r, MessageStop, draw);
    AgreeSame(r, f, n, used, draw, r1, f.started);
    Unroll(f, mids, mid);
    if r.usage.Some? {
      hide EchoUsage, F.UsageFromOpenAi;
      EchoedUsage(r.usage.value);
      SomeUsage(r.usage.value);
    }
  }

  lemma SomeUsage(usage: map<string, Json>)
    ensures R.MapUsage(usage).Usage?
    ensures F.UsageFromOpenAi(R.MapUsage(usage)).Obj? && EchoUsage(Some(usage)).Obj?
  {
  }

  /** Final deltas and errors touch no block. */
  lemma PlainAgrees(r: R.State, f: F.State, n: Echo, used: set<string>, e: AEvent, draw: string, mid: string)
    requires Agree(r, f, n, used) && (e.MessageDelta? || e.ErrorEvent?)
    ensures var (r1, f1, out) := Pair(r, f, e, draw, mid);
      var (n1, want) := Step(n, e, mid);
      Agree(r1, f1, n1, used + {draw}) && out == want
  {
    hide F.Run, SynthId, Agree;
    var (r1, mids) := R.Step(r, e, draw);
    AgreeSame(r, f, n, used, draw, r1, f.started);
    Unroll(f, mids, mid);
  }

  predicate Dropped(r: R.State, e: AEvent) {
    match e
    case BlockStart(i, block) => i.None? || block.OtherBlock?
    case BlockDelta(i, d) => i.None? || i.value !in r.blocks || d.OtherDelta?
    case BlockStop(i) => i.None? || i.value !in r.blocks
    case OtherEvent => true
    case _ => false
  }

  lemma DroppedAgrees(r: R.State, f: F.State, n: Echo, used: set<string>, e: AEvent, draw: string, mid: string)
    requires Agree(r, f, n, used) && Dropped(r, e)
    ensures var (r1, f1, out) := Pair(r, f, e, draw, mid);
      var (n1, want) := Step(n, e, mid);
      Agree(r1, f1, n1, used + {draw}) && out == want
  {
    KeepMinted(f, used, draw);
    assert R.Step(r, e, draw) == (r, []);
  }

  lemma StepAgrees(r: R.State, f: F.State, n: Echo, used: set<string>, e: AEvent, draw: string, mid: string)
    requires Agree(r, f, n, used) && draw !in used
    ensures var (r1, f1, out) := Pair(r, f, e, draw, mid);
      var (n1, want) := Step(n, e, mid);
      Agree(r1, f1, n1, used + {draw}) && out == want
  {
    hide Pair, Step, Agree;
    if Dropped(r, e) {
      DroppedAgrees(r, f, n, used, e, draw, mid);
    } else {
      match e {
        case BlockStart(i, block) => StartAgrees(r, f, n, used, i.value, block, draw, mid);
        case BlockStop(i) => StopAgrees(r, f, n, used, i.value, draw, mid);
        case BlockDelta(i, d) => DeltaAgrees(r, f, n, used, i.value, d, draw, mid);
        case MessageStart(m) => MessageStartAgrees(r, f, n, used, m, draw, mid);
        case MessageStop => MessageStopAgrees(r, f, n, used, draw, mid);
        case _ => PlainAgrees(r, f, n, used, e, draw, mid);
      }
    }
  }

  ghost predicate AllNew(draws: seq<string>, used: set<string>) {
    && (forall k :: 0 <= k < |draws| ==> draws[k] !in used)
    && (forall j, k :: 0 <= j < k < |draws| ==> draws[j] != draws[k])
  }

  lemma {:induction false} RunAgrees(r: R.State, f: F.State, n: Echo, used: set<string>, es: seq<AEvent>,
                                     draws: seq<string>, mid: string)
    requires Agree(r, f, n, used) && |draws| == |es| && AllNew(draws, used)
    ensures F.Run(f, R.Run(r, es, draws).1, mid).1 == Run(n, es, mid).1
    decreases |es|
  {
    hide R.Step, F.Step, Step, Agree;
    if es == [] {
      Unroll(f, [], mid);
    } else {
      StepAgrees(r, f, n, used, es[0], draws[0], mid);
      var (r1, mids) := R.Step(r, es[0], draws[0]);
      var (f1, out) := F.Run(f, mids, mid);
      var n1 := Step(n, es[0], mid).0;
      F.RunConcat(f, mids, R.Run(r1, es[1..], draws[1..]).1, mid);
      RunAgrees(r1, f1, n1, used + {draws[0]}, es[1..], draws[1..], mid);
    }
  }

  /** There and back again: for every stream, what comes out is its echo. */
  lemma RoundTripIsEcho(es: seq<AEvent>, draws: seq<string>, mid: string)
    requires |draws| == |es| && AllNew(draws, {})
    ensures F.Run(F.FRESH, R.Run(R.FRESH, es, draws).1, mid).1 == Run(SILENT, es, mid).1
  {
    RunAgrees(R.FRESH, F.FRESH, SILENT, {}, es, draws, mid);
  }
}
