/**
 The reverse translator without its state: what it emits at any moment can be looked up in the stream
 that has come in so far.
 */
module ReverseHistory {
  import opened Common
  import opened Wire
  import opened Scan
  import R = ReverseStream
  import D = ReverseDiscipline

  // ---------- what is to be emitted, event by event ----------

  /** The id of the item that a block becomes. */
  function ItemId(block: ABlock, draw: string): string {
    match block
    case TextBlock => "msg_" + draw
    case ToolUseBlock(_, _) => "fc_" + draw
    case ThinkingBlock => "rs_" + draw
    case OtherBlock => ""
  }

  function ItemBegun(block: ABlock, id: string): RItem {
    match block
    case TextBlock => MessageItem(id, "in_progress", None)
    case ToolUseBlock(callId, name) => FunctionCallItem(id, "in_progress", callId, name, "")
    case ThinkingBlock => ReasoningItem(id, "in_progress", None)
    case OtherBlock => OtherItem(id)
  }

  function ItemComplete(block: ABlock, id: string, text: string): RItem {
    match block
    case TextBlock => MessageItem(id, "completed", Some(text))
    case ToolUseBlock(callId, name) => FunctionCallItem(id, "completed", callId, name, text)
    case ThinkingBlock => ReasoningItem(id, "completed", Some(text))
    case OtherBlock => OtherItem(id)
  }

  /** The item of the block that started at `p`, under an index to which `text` has been sent. */
  function ItemAt(past: seq<AEvent>, draws: seq<string>, p: nat, text: string): RItem
    requires p < |past| == |draws| && past[p].BlockStart?
  {
    ItemComplete(past[p].block, ItemId(past[p].block, draws[p]), text)
  }

  /** For every start of a known block, in order: the item of the block that its index stands for now. */
  function Listing(past: seq<AEvent>, draws: seq<string>, n: nat): seq<RItem>
    requires n <= |past| == |draws|
  {
    if n == 0 then []
    else
      Listing(past, draws, n - 1) +
      match past[n - 1]
      case BlockStart(Some(i), block) =>
        (match StartOf(past, i)
         case Some(p) => if block.OtherBlock? then [] else [ItemAt(past, draws, p, TextOf(past, i))]
         case None => [])
      case _ => []
  }

  function FinalEvent(past: seq<AEvent>, draws: seq<string>): RBody
    requires |past| == |draws|
  {
    var (id, model) := match LastMessageStart(past)
      case Some(p) => ("resp_" + draws[p], past[p].message.model)
      case None => ("", Null);
    var output, usage := Listing(past, draws, |past|), CountedUsage(past);
    if LastStop(past) == Some("max_tokens") then
      Incomplete(RResponse(id, Some("incomplete"), model, output, usage, Some("max_output_tokens")))
    else
      Completed(RResponse(id, Some("completed"), model, output, usage, None))
  }

  /** What `e` causes after `past`. */
  function Emitted(past: seq<AEvent>, draws: seq<string>, e: AEvent, draw: string): seq<RBody>
    requires |past| == |draws|
  {
    match e
    case MessageStart(m) =>
      var response := RResponse("resp_" + draw, Some("in_progress"), m.model, [], NullUsage, None);
      [Created(response), InProgress(response)]
    case BlockStart(Some(i), block) =>
      var id := ItemId(block, draw);
      if block.OtherBlock? then []
      else if block.TextBlock? then [ItemAdded(i, ItemBegun(block, id)), PartAdded(id, i, true)]
      else [ItemAdded(i, ItemBegun(block, id))]
    case BlockDelta(Some(i), d) =>
      (match StartOf(past, i)
       case None => []
       case Some(p) =>
         var id := ItemId(past[p].block, draws[p]);
         match d
         case TextDelta(text) => [OutputTextDelta(Some(id), i, text)]
         case InputJsonDelta(text) => [ArgumentsDelta(Some(id), i, text)]
         case ThinkingDelta(text) => [SummaryTextDelta(Some(id), i, text)]
         case OtherDelta => [])
    case BlockStop(Some(i)) =>
      (match StartOf(past, i)
       case None => []
       case Some(p) =>
         var id, text := ItemId(past[p].block, draws[p]), TextOf(past, i);
         var done := ItemDone(i, ItemAt(past, draws, p, text));
         match past[p].block
         case TextBlock => [OutputTextDone(id, i, text), PartDone(id, i, text), done]
         case ToolUseBlock(_, _) => [ArgumentsDone(id, i, text), done]
         case ThinkingBlock => [SummaryTextDone(id, i, text), done]
         case OtherBlock => [])
    case MessageStop => [FinalEvent(past, draws)]
    case ErrorEvent(kind, text) => [Error(Some(Str(kind.GetOr("api_error"))), Some(Str(text.GetOr(""))))]
    case _ => []
  }

  /** What `es` causes after `past`. */
  function EmittedAfter(past: seq<AEvent>, pastDraws: seq<string>, es: seq<AEvent>, draws: seq<string>): seq<RBody>
    requires |past| == |pastDraws| && |es| == |draws|
    decreases |es|
  {
    if es == [] then []
    else
      Emitted(past, pastDraws, es[0], draws[0]) +
      EmittedAfter(past + [es[0]], pastDraws + [draws[0]], es[1..], draws[1..])
  }

  // ---------- the state is the history ----------

  function KindOf(block: ABlock): R.Kind
    requires !block.OtherBlock?
  {
    match block
    case TextBlock => R.Text
    case ToolUseBlock(_, _) => R.ToolUse
    case ThinkingBlock => R.Thinking
  }

  /** The block under `i`, as the history has it. */
  predicate Recalls(b: R.Open, past: seq<AEvent>, draws: seq<string>, i: nat)
    requires |past| == |draws| && StartOf(past, i).Some?
  {
    var p := StartOf(past, i).value;
    && b.kind == KindOf(past[p].block)
    && b.itemId == ItemId(past[p].block, draws[p])
    && b.buffer == TextOf(past, i)
    && (past[p].block.ToolUseBlock? ==> b.callId == past[p].block.id && b.name == past[p].block.name)
  }

  ghost predicate BlocksRecall(blocks: map<nat, R.Open>, past: seq<AEvent>, draws: seq<string>)
    requires |past| == |draws|
  {
    && (forall i :: i in blocks <==> StartOf(past, i).Some?)
    && forall i :: i in blocks ==> Recalls(blocks[i], past, draws, i)
  }

  /** The indices of the known starts, in order. */
  function Order(past: seq<AEvent>): seq<nat> {
    if past == [] then []
    else
      var n := |past| - 1;
      Order(past[..n]) + match past[n]
        case BlockStart(Some(i), block) => if block.OtherBlock? then [] else [i]
        case _ => []
  }

  predicate HeadRecalls(st: R.State, past: seq<AEvent>, draws: seq<string>)
    requires |past| == |draws|
  {
    && st.stopReason == LastStop(past)
    && match LastMessageStart(past)
       case None => st.responseId == None && st.model == None
       case Some(p) => st.responseId == Some("resp_" + draws[p]) && st.model == Some(past[p].message.model)
  }

  ghost predicate StateRecalls(st: R.State, past: seq<AEvent>, draws: seq<string>)
    requires |past| == |draws|
  {
    && BlocksRecall(st.blocks, past, draws)
    && st.order == Order(past)
    && UsageRecalls(st.usage, past)
    && HeadRecalls(st, past, draws)
  }

  lemma IdPrefix(draw: string)
    ensures SynthId("msg", draw) == "msg_" + draw && SynthId("fc", draw) == "fc_" + draw
    ensures SynthId("rs", draw) == "rs_" + draw && SynthId("resp", draw) == "resp_" + draw
  {
    assert "msg" + "_" == "msg_" && "fc" + "_" == "fc_" && "rs" + "_" == "rs_" && "resp" + "_" == "resp_";
  }

  lemma NewRecalls(past: seq<AEvent>, draws: seq<string>, i: nat, block: ABlock, draw: string)
    requires |past| == |draws| && !block.OtherBlock?
    ensures var e := BlockStart(Some(i), block);
      && StartOf(past + [e], i).Some?
      && Recalls(R.NewBlock(block, draw).value, past + [e], draws + [draw], i)
  {
    hide SynthId, StartOf, TextOf;
    IdPrefix(draw);
    StartOfAppend(past, BlockStart(Some(i), block), i);
    TextOfAppend(past, BlockStart(Some(i), block), i);
  }

  lemma OldRecalls(b: R.Open, past: seq<AEvent>, draws: seq<string>, e: AEvent, draw: string, i: nat)
    requires |past| == |draws| && StartOf(past, i).Some? && Recalls(b, past, draws, i) && !StartsBlock(e, i)
    ensures StartOf(past + [e], i) == StartOf(past, i)
    ensures Recalls(b.(buffer := b.buffer + TextFor(e, i)), past + [e], draws + [draw], i)
  {
    hide StartOf, TextOf;
    StartOfAppend(past, e, i);
    TextOfAppend(past, e, i);
  }

  lemma BlockAfter(st: R.State, past: seq<AEvent>, draws: seq<string>, e: AEvent, draw: string, i: nat)
    requires |past| == |draws| && BlocksRecall(st.blocks, past, draws)
    ensures var blocks := R.Step(st, e, draw).0.blocks;
      && (i in blocks <==> StartOf(past + [e], i).Some?)
      && (i in blocks ==> Recalls(blocks[i], past + [e], draws + [draw], i))
  {
    D.StepBlocks(st, e, draw);
    hide StartOf, TextOf, Recalls, R.Step;
    if StartsBlock(e, i) {
      NewRecalls(past, draws, i, e.block, draw);
    } else {
      StartOfAppend(past, e, i);
      if i in st.blocks {
        OldRecalls(st.blocks[i], past, draws, e, draw, i);
        assert st.blocks[i].buffer + "" == st.blocks[i].buffer;
      }
    }
  }

  lemma OrderAfter(st: R.State, past: seq<AEvent>, e: AEvent, draw: string)
    requires st.order == Order(past)
    ensures R.Step(st, e, draw).0.order == Order(past + [e])
  {
    D.StepBlocks(st, e, draw);
    hide R.Step;
    assert (past + [e])[..|past|] == past;
  }

  lemma UsageAfter(st: R.State, past: seq<AEvent>, e: AEvent, draw: string)
    requires UsageRecalls(st.usage, past)
    ensures UsageRecalls(R.Step(st, e, draw).0.usage, past + [e])
  {
    hide R.StartBodies, R.StopBodies, R.DeltaBody, R.Terminal, R.NewBlock, SynthId;
    assert R.Step(st, e, draw).0.usage == R.MergeUsage(st.usage, GivenUsage(e)) by {
      hide R.MergeUsage;
    }
    D.MergeRecalls(st.usage, past, e);
  }

  lemma HeadAfter(st: R.State, past: seq<AEvent>, draws: seq<string>, e: AEvent, draw: string)
    requires |past| == |draws| && HeadRecalls(st, past, draws)
    ensures HeadRecalls(R.Step(st, e, draw).0, past + [e], draws + [draw])
  {
    hide R.StartBodies, R.StopBodies, R.DeltaBody, R.Terminal, R.NewBlock, R.MergeUsage, SynthId;
    IdPrefix(draw);
    assert (past + [e])[..|past|] == past;
    assert LastMessageStart(past + [e]) == if e.MessageStart? then Some(|past|) else LastMessageStart(past);
  }

  lemma StateAfter(st: R.State, past: seq<AEvent>, draws: seq<string>, e: AEvent, draw: string)
    requires |past| == |draws| && StateRecalls(st, past, draws)
    ensures StateRecalls(R.Step(st, e, draw).0, past + [e], draws + [draw])
  {
    forall i ensures
        var blocks := R.Step(st, e, draw).0.blocks;
        && (i in blocks <==> StartOf(past + [e], i).Some?)
        && (i in blocks ==> Recalls(blocks[i], past + [e], draws + [draw], i))
    {
      BlockAfter(st, past, draws, e, draw, i);
    }
    OrderAfter(st, past, e, draw);
    UsageAfter(st, past, e, draw);
    HeadAfter(st, past, draws, e, draw);
    hide R.Step, HeadRecalls, UsageRecalls;
  }

  // ---------- what is emitted is what the history says ----------

  lemma {:induction false} OutputIsListing(blocks: map<nat, R.Open>, past: seq<AEvent>, draws: seq<string>, n: nat)
    requires n <= |past| == |draws| && BlocksRecall(blocks, past, draws)
    ensures R.Output(blocks, Order(past[..n])) == Listing(past, draws, n)
  {
    if n == 0 {
      assert Order(past[..0]) == [];
    } else {
      OutputIsListing(blocks, past, draws, n - 1);
      assert past[..n][..n - 1] == past[..n - 1];
      assert Order(past[..n - 1]) + [] == Order(past[..n - 1]);
      match past[n - 1] {
        case BlockStart(Some(i), block) =>
          if !block.OtherBlock? {
            assert StartsBlock(past[n - 1], i);
            OutputAppend(blocks, Order(past[..n - 1]), i);
            CompleteIs(blocks[i], past, draws, i);
          }
        case _ =>
      }
    }
  }

  lemma {:induction false} OutputAppend(blocks: map<nat, R.Open>, order: seq<nat>, i: nat)
    requires i in blocks
    ensures R.Output(blocks, order + [i]) == R.Output(blocks, order) + [R.CompletedItem(blocks[i])]
    decreases |order|
  {
    if order == [] {
      assert order + [i] == [i] && [i][1..] == [];
    } else {
      assert (order + [i])[1..] == order[1..] + [i];
      OutputAppend(blocks, order[1..], i);
    }
  }

  lemma CompleteIs(b: R.Open, past: seq<AEvent>, draws: seq<string>, i: nat)
    requires |past| == |draws| && StartOf(past, i).Some? && Recalls(b, past, draws, i)
    ensures R.CompletedItem(b) == ItemAt(past, draws, StartOf(past, i).value, TextOf(past, i))
  {
    hide TextOf, StartOf;
  }

  lemma FinalIs(st: R.State, past: seq<AEvent>, draws: seq<string>)
    requires |past| == |draws| && StateRecalls(st, past, draws)
    ensures R.Terminal(st) == FinalEvent(past, draws)
  {
    hide R.Output, Listing, BlocksRecall, Order, LastStop, R.MapUsage, CountedUsage;
    OutputIsListing(st.blocks, past, draws, |past|);
    assert past[..|past|] == past;
    if st.usage.Some? {
      D.RecalledUsage(st.usage.value, past);
    } else {
      assert CountedUsage(past) == NullUsage by { NothingCounted(past); }
    }
  }

  lemma NothingCounted(past: seq<AEvent>)
    requires !GivesUsage(past)
    ensures CountedUsage(past) == NullUsage
  {
  }

  /** What a stop reports, by the kind of its block. */
  lemma StopEmits(b: R.Open, past: seq<AEvent>, draws: seq<string>, i: nat, draw: string)
    requires |past| == |draws| && StartOf(past, i).Some? && Recalls(b, past, draws, i)
    ensures R.StopBodies(b, i) == Emitted(past, draws, BlockStop(Some(i)), draw)
  {
    hide StartOf, TextOf;
    CompleteIs(b, past, draws, i);
  }

  lemma DeltaEmits(b: R.Open, past: seq<AEvent>, draws: seq<string>, i: nat, d: ADelta, draw: string)
    requires |past| == |draws| && StartOf(past, i).Some? && Recalls(b, past, draws, i) && !d.OtherDelta?
    ensures [R.DeltaBody(b.itemId, i, d)] == Emitted(past, draws, BlockDelta(Some(i), d), draw)
  {
    hide StartOf, TextOf;
  }

  lemma StartEmits(past: seq<AEvent>, draws: seq<string>, i: nat, block: ABlock, draw: string)
    requires |past| == |draws| && !block.OtherBlock?
    ensures R.StartBodies(R.NewBlock(block, draw).value, i) == Emitted(past, draws, BlockStart(Some(i), block), draw)
  {
    hide SynthId;
    IdPrefix(draw);
  }

  lemma BlockEmits(st: R.State, past: seq<AEvent>, draws: seq<string>, e: AEvent, draw: string)
    requires |past| == |draws| && BlocksRecall(st.blocks, past, draws)
    requires e.BlockStart? || e.BlockDelta? || e.BlockStop?
    ensures R.Bodies(st, e, draw).1 == Emitted(past, draws, e, draw)
  {
    hide StartOf, SynthId, Recalls, R.StopBodies, R.DeltaBody, R.StartBodies, ItemAt, TextOf;
    match e {
      case BlockStart(Some(i), block) =>
        if !block.OtherBlock? {
          StartEmits(past, draws, i, block, draw);
        }
      case BlockDelta(Some(i), d) =>
        if i in st.blocks && !d.OtherDelta? {
          DeltaEmits(st.blocks[i], past, draws, i, d, draw);
        }
      case BlockStop(Some(i)) =>
        if i in st.blocks {
          StopEmits(st.blocks[i], past, draws, i, draw);
        }
      case _ =>
    }
  }

  lemma StepEmits(st: R.State, past: seq<AEvent>, draws: seq<string>, e: AEvent, draw: string)
    requires |past| == |draws| && StateRecalls(st, past, draws)
    ensures R.Bodies(st, e, draw).1 == Emitted(past, draws, e, draw)
  {
    if e.BlockStart? || e.BlockDelta? || e.BlockStop? {
      BlockEmits(st, past, draws, e, draw);
    } else {
      hide SynthId, R.Terminal, FinalEvent, StateRecalls;
      IdPrefix(draw);
      FinalIs(st, past, draws);
    }
  }

  lemma {:induction false} RunEmits(st: R.State, past: seq<AEvent>, pastDraws: seq<string>, es: seq<AEvent>,
                                    draws: seq<string>)
    requires |past| == |pastDraws| && |es| == |draws| && StateRecalls(st, past, pastDraws)
    ensures var out := R.Run(st, es, draws).1;
      && |out| == |EmittedAfter(past, pastDraws, es, draws)|
      && forall k :: 0 <= k < |out| ==>
           out[k] == REvent(st.seqno + k, EmittedAfter(past, pastDraws, es, draws)[k])
    decreases |es|
  {
    hide StateRecalls, R.Bodies, Emitted;
    if es != [] {
      StepEmits(st, past, pastDraws, es[0], draws[0]);
      StateAfter(st, past, pastDraws, es[0], draws[0]);
      RunEmits(R.Step(st, es[0], draws[0]).0, past + [es[0]], pastDraws + [draws[0]], es[1..], draws[1..]);
    }
  }

  /**
   For every stream: what the translator emits is, event by event and under consecutive numbers, what the
   history of the stream says.
   */
  lemma EmitsItsHistory(es: seq<AEvent>, draws: seq<string>)
    requires |es| == |draws|
    ensures var out := R.Run(R.FRESH, es, draws).1;
      && |out| == |EmittedAfter([], [], es, draws)|
      && forall k :: 0 <= k < |out| ==> out[k] == REvent(k, EmittedAfter([], [], es, draws)[k])
  {
    RunEmits(R.FRESH, [], [], es, draws);
  }
}
