/** The collector without its state: what a stream folds into can be looked up in the stream. */
module CollectorHistory {
  import opened Common
  import opened Wire
  import opened Scan
  import C = Collector

  // ---------- the message, looked up ----------

  /** The block that `i` stands for: its own text up to its first stop. */
  function BlockJson(parse: C.Parser, es: seq<AEvent>, i: nat): Json
    requires StartOf(es, i).Some?
  {
    var p := StartOf(es, i).value;
    var text := OwnText(es[p + 1..], i, es[p].block);
    match es[p].block
    case TextBlock => Obj(map["type" := Str("text"), "text" := Str(text)])
    case ThinkingBlock => Obj(map["type" := Str("thinking"), "thinking" := Str(text)])
    case ToolUseBlock(id, name) =>
      var input := match parse(text)
        case Some(Obj(fields)) => Obj(fields)
        case _ => Obj(map[]);
      Obj(map["type" := Str("tool_use"), "id" := Str(id), "name" := Str(name), "input" := input])
    case OtherBlock => Null
  }

  /** One more than the largest index under which a known block starts. */
  function Bound(es: seq<AEvent>): nat {
    if es == [] then 0
    else
      var n := |es| - 1;
      match es[n]
      case BlockStart(Some(i), block) => if !block.OtherBlock? && i >= Bound(es[..n]) then i + 1 else Bound(es[..n])
      case _ => Bound(es[..n])
  }

  /** The blocks under the indices below `k`, in ascending order of index. */
  function BlocksBelow(parse: C.Parser, es: seq<AEvent>, k: nat): seq<Json> {
    if k == 0 then []
    else BlocksBelow(parse, es, k - 1) + if StartOf(es, k - 1).Some? then [BlockJson(parse, es, k - 1)] else []
  }

  function Content(parse: C.Parser, es: seq<AEvent>): seq<Json> {
    BlocksBelow(parse, es, Bound(es))
  }

  function Shown(m: AMessage, content: seq<Json>, reason: Json, sequence: Json, usage: Json): map<string, Json> {
    map["id" := m.id,
        "type" := Str("message"),
        "role" := m.role.GetOr(Str("assistant")),
        "model" := m.model,
        "content" := Arr(content),
        "stop_reason" := reason,
        "stop_sequence" := sequence,
        "usage" := usage]
  }

  /** What is shown of the last message start, at `p`, and of what was given after it. */
  function ShownFrom(es: seq<AEvent>, p: nat, content: seq<Json>): map<string, Json>
    requires p < |es| && es[p].MessageStart?
  {
    var m, later := es[p].message, es[p + 1..];
    Shown(m, content, LastReason(later).GetOr(Null), LastSequence(later).GetOr(Null),
          if LastUsage(later).Some? then LastUsage(later).value else m.usage.GetOr(Obj(map[])))
  }

  // ---------- the state is the history ----------

  /** The slot of `i` as the history has it. */
  predicate SlotRecalls(parse: C.Parser, b: C.Block, es: seq<AEvent>, i: nat)
    requires StartOf(es, i).Some?
  {
    var p := StartOf(es, i).value;
    var rest := es[p + 1..];
    var text := OwnText(rest, i, es[p].block);
    if Stops(rest, i) then b == C.Done(BlockJson(parse, es, i))
    else
      match es[p].block
      case TextBlock => b == C.Text(text)
      case ThinkingBlock => b == C.Thinking(text)
      case ToolUseBlock(id, name) => b == C.ToolUse(id, name, text)
      case OtherBlock => false
  }

  ghost predicate SlotsRecall(parse: C.Parser, blocks: seq<Option<C.Block>>, es: seq<AEvent>) {
    && |blocks| == Bound(es)
    && forall i: nat ::
         && (i < |blocks| && blocks[i].Some? <==> StartOf(es, i).Some?)
         && (i < |blocks| && blocks[i].Some? ==> SlotRecalls(parse, blocks[i].value, es, i))
  }

  lemma StartedBelow(es: seq<AEvent>, i: nat)
    requires StartOf(es, i).Some?
    ensures i < Bound(es)
  {
    var n := |es| - 1;
    if StartOf(es[..n], i).Some? {
      StartedBelow(es[..n], i);
    }
  }

  lemma FreshSlot(parse: C.Parser, es: seq<AEvent>, i: nat, block: ABlock)
    requires !block.OtherBlock?
    ensures var e := BlockStart(Some(i), block);
      && StartOf(es + [e], i) == Some(|es|)
      && SlotRecalls(parse, C.NewBlock(block).value, es + [e], i)
  {
    var e := BlockStart(Some(i), block);
    StartOfAppend(es, e, i);
    assert (es + [e])[|es| + 1..] == [];
  }

  /** A slot whose block does not start anew: its own text grows, until its first stop. */
  lemma OldSlot(parse: C.Parser, b: C.Block, es: seq<AEvent>, e: AEvent, i: nat)
    requires StartOf(es, i).Some? && SlotRecalls(parse, b, es, i) && !StartsBlock(e, i)
    ensures StartOf(es + [e], i) == StartOf(es, i)
    ensures e != BlockStop(Some(i)) ==>
      SlotRecalls(parse, if e.BlockDelta? && e.index == Some(i) then C.Append(b, e.delta) else b, es + [e], i)
    ensures e == BlockStop(Some(i)) ==> SlotRecalls(parse, C.Done(C.FinalizeBlock(parse, b)), es + [e], i)
  {
    hide StartOf, OwnText;
    StartOfAppend(es, e, i);
    var p := StartOf(es, i).value;
    var rest := es[p + 1..];
    assert (es + [e])[p + 1..] == rest + [e];
    OwnTextAppend(rest, e, i, es[p].block);
    var text := OwnText(rest, i, es[p].block);
    assert text + "" == text;
  }

  lemma SlotAfter(parse: C.Parser, st: C.State, es: seq<AEvent>, e: AEvent, i: nat)
    requires SlotsRecall(parse, st.blocks, es)
    ensures var blocks := C.Step(parse, st, e).blocks;
      && (i < |blocks| && blocks[i].Some? <==> StartOf(es + [e], i).Some?)
      && (i < |blocks| && blocks[i].Some? ==> SlotRecalls(parse, blocks[i].value, es + [e], i))
  {
    hide StartOf, SlotRecalls, Bound, C.Append, C.FinalizeBlock;
    StartOfAppend(es, e, i);
    if StartsBlock(e, i) {
      FreshSlot(parse, es, i, e.block);
    } else if i < |st.blocks| && st.blocks[i].Some? {
      OldSlot(parse, st.blocks[i].value, es, e, i);
    }
  }

  lemma CountAfter(parse: C.Parser, st: C.State, es: seq<AEvent>, e: AEvent)
    requires |st.blocks| == Bound(es)
    ensures |C.Step(parse, st, e).blocks| == Bound(es + [e])
  {
    hide C.Append, C.FinalizeBlock, C.BaseMessage, C.SetIf;
    assert (es + [e])[..|es|] == es;
  }

  lemma SlotsAfter(parse: C.Parser, st: C.State, es: seq<AEvent>, e: AEvent)
    requires SlotsRecall(parse, st.blocks, es)
    ensures SlotsRecall(parse, C.Step(parse, st, e).blocks, es + [e])
  {
    CountAfter(parse, st, es, e);
    hide C.Step, StartOf, SlotRecalls, Bound;
    forall i: nat ensures
        var blocks := C.Step(parse, st, e).blocks;
        && (i < |blocks| && blocks[i].Some? <==> StartOf(es + [e], i).Some?)
        && (i < |blocks| && blocks[i].Some? ==> SlotRecalls(parse, blocks[i].value, es + [e], i))
    {
      SlotAfter(parse, st, es, e, i);
    }
  }

  predicate MessageRecalls(message: map<string, Json>, es: seq<AEvent>) {
    LastMessageStart(es).Some? ==> message == ShownFrom(es, LastMessageStart(es).value, [])
  }

  lemma GivenReason(m: AMessage, content: seq<Json>, reason: Json, sequence: Json, usage: Json, value: Json)
    ensures Shown(m, content, reason, sequence, usage)["stop_reason" := value] ==
      Shown(m, content, value, sequence, usage)
  {
  }

  lemma GivenSequence(m: AMessage, content: seq<Json>, reason: Json, sequence: Json, usage: Json, value: Json)
    ensures Shown(m, content, reason, sequence, usage)["stop_sequence" := value] ==
      Shown(m, content, reason, value, usage)
  {
  }

  lemma GivenUsed(m: AMessage, content: seq<Json>, reason: Json, sequence: Json, usage: Json, value: Json)
    ensures Shown(m, content, reason, sequence, usage)["usage" := value] == Shown(m, content, reason, sequence, value)
  {
  }

  lemma Contained(m: AMessage, content: seq<Json>, more: seq<Json>, reason: Json, sequence: Json, usage: Json)
    ensures Shown(m, content, reason, sequence, usage)["content" := Arr(more)] ==
      Shown(m, more, reason, sequence, usage)
  {
  }

  lemma StartShown(es: seq<AEvent>, m: AMessage)
    ensures var all := es + [MessageStart(m)];
      && LastMessageStart(all) == Some(|es|)
      && C.BaseMessage(m) == ShownFrom(all, |es|, [])
  {
    var all := es + [MessageStart(m)];
    assert all[..|es|] == es && all[|es| + 1..] == [];
  }

  lemma DeltaShown(message: map<string, Json>, es: seq<AEvent>, p: nat, reason: Option<Json>, sequence: Option<Json>,
                   usage: Option<Json>)
    requires p < |es| && es[p].MessageStart? && message == ShownFrom(es, p, [])
    ensures var e := MessageDelta(reason, sequence, usage);
      C.SetIf(C.SetIf(C.SetIf(message, "stop_reason", reason), "stop_sequence", sequence), "usage", usage) ==
      ShownFrom(es + [e], p, [])
  {
    var e, later := MessageDelta(reason, sequence, usage), es[p + 1..];
    assert (es + [e])[p + 1..] == later + [e];
    LaterGiven(later, e);
    var m := es[p].message;
    var a, b := LastReason(later).GetOr(Null), LastSequence(later).GetOr(Null);
    var c := if LastUsage(later).Some? then LastUsage(later).value else m.usage.GetOr(Obj(map[]));
    var a1, b1 := if reason.Some? then reason.value else a, if sequence.Some? then sequence.value else b;
    hide LastReason, LastSequence, LastUsage, Shown;
    GivenReason(m, [], a, b, c, reason.GetOr(Null));
    GivenSequence(m, [], a1, b, c, sequence.GetOr(Null));
    GivenUsed(m, [], a1, b1, c, usage.GetOr(Null));
  }

  lemma MessageAfter(parse: C.Parser, st: C.State, es: seq<AEvent>, e: AEvent)
    requires MessageRecalls(st.message, es)
    ensures MessageRecalls(C.Step(parse, st, e).message, es + [e])
  {
    assert (es + [e])[..|es|] == es;
    assert LastMessageStart(es + [e]) == if e.MessageStart? then Some(|es|) else LastMessageStart(es);
    hide LastMessageStart, Shown, C.SetIf, C.BaseMessage, C.SetBlock, C.Append, C.FinalizeBlock;
    if e.MessageStart? {
      StartShown(es, e.message);
    } else if LastMessageStart(es).Some? {
      var p := LastMessageStart(es).value;
      if e.MessageDelta? {
        DeltaShown(st.message, es, p, e.stopReason, e.stopSequence, e.usage);
      } else {
        assert (es + [e])[p + 1..] == es[p + 1..] + [e];
        LaterGiven(es[p + 1..], e);
      }
    }
  }

  lemma LaterGiven(es: seq<AEvent>, e: AEvent)
    ensures LastReason(es + [e]) == if e.MessageDelta? && e.stopReason.Some? then e.stopReason else LastReason(es)
    ensures LastSequence(es + [e]) ==
      if e.MessageDelta? && e.stopSequence.Some? then e.stopSequence else LastSequence(es)
    ensures LastUsage(es + [e]) == if e.MessageDelta? && e.usage.Some? then e.usage else LastUsage(es)
  {
    assert (es + [e])[..|es|] == es;
  }

  lemma {:induction false} RunRecalls(parse: C.Parser, st: C.State, past: seq<AEvent>, es: seq<AEvent>)
    requires SlotsRecall(parse, st.blocks, past) && MessageRecalls(st.message, past)
    ensures SlotsRecall(parse, C.Run(parse, st, es).blocks, past + es)
    ensures MessageRecalls(C.Run(parse, st, es).message, past + es)
    decreases |es|
  {
    hide C.Step, SlotsRecall, MessageRecalls;
    if es == [] {
      assert past + [] == past;
    } else {
      SlotsAfter(parse, st, past, es[0]);
      MessageAfter(parse, st, past, es[0]);
      RunRecalls(parse, C.Step(parse, st, es[0]), past + [es[0]], es[1..]);
      assert past + [es[0]] + es[1..] == past + es;
    }
  }

  lemma FinalizedSlot(parse: C.Parser, b: C.Block, es: seq<AEvent>, i: nat)
    requires StartOf(es, i).Some? && SlotRecalls(parse, b, es, i)
    ensures C.FinalizeBlock(parse, b) == BlockJson(parse, es, i)
  {
    hide StartOf, OwnText;
  }

  lemma {:induction false} ContentIs(parse: C.Parser, blocks: seq<Option<C.Block>>, es: seq<AEvent>, k: nat)
    requires SlotsRecall(parse, blocks, es) && k <= |blocks|
    ensures C.Content(parse, blocks[..k]) == BlocksBelow(parse, es, k)
  {
    hide StartOf, SlotRecalls, Bound, C.FinalizeBlock, BlockJson;
    if k > 0 {
      ContentIs(parse, blocks, es, k - 1);
      assert blocks[..k][..k - 1] == blocks[..k - 1];
      if blocks[k - 1].Some? {
        FinalizedSlot(parse, blocks[k - 1].value, es, k - 1);
      }
    }
  }

  /**
   For every stream: its content is, by index, the block that each index stands for, with the text of its
   own kind up to its first stop; and once a message has started, every field is the last one given.
   */
  lemma CollectsItsHistory(parse: C.Parser, es: seq<AEvent>)
    ensures C.Collect(parse, es)["content"] == Arr(Content(parse, es))
    ensures LastMessageStart(es).Some? ==>
      C.Collect(parse, es) == ShownFrom(es, LastMessageStart(es).value, Content(parse, es))
  {
    hide C.Run, C.Content, BlockJson, StartOf, BlocksBelow, Shown, SlotsRecall, LastMessageStart, Bound;
    NothingRecalled(parse);
    RunRecalls(parse, C.FRESH, [], es);
    assert [] + es == es;
    var st := C.Run(parse, C.FRESH, es);
    SlotCount(parse, st.blocks, es);
    ContentIs(parse, st.blocks, es, |st.blocks|);
    assert st.blocks[..|st.blocks|] == st.blocks;
    if LastMessageStart(es).Some? {
      var p := LastMessageStart(es).value;
      var m, later := es[p].message, es[p + 1..];
      hide LastReason, LastSequence, LastUsage;
      Contained(m, [], Content(parse, es), LastReason(later).GetOr(Null), LastSequence(later).GetOr(Null),
                if LastUsage(later).Some? then LastUsage(later).value else m.usage.GetOr(Obj(map[])));
    }
  }

  lemma SlotCount(parse: C.Parser, blocks: seq<Option<C.Block>>, es: seq<AEvent>)
    requires SlotsRecall(parse, blocks, es)
    ensures |blocks| == Bound(es)
  {
  }

  lemma NothingRecalled(parse: C.Parser)
    ensures SlotsRecall(parse, C.FRESH.blocks, []) && MessageRecalls(C.FRESH.message, [])
  {
  }
}
