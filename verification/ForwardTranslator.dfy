/** The translator object of the forward direction. */
module ForwardTranslator {
  import opened Common
  import opened Wire
  import opened ForwardStream
  import opened ForwardDiscipline

  class AnthropicToResponses {
    var messageStartEmitted: bool
    var nextBlockIndex: nat
    var blocks: map<string, Slot>
    var sawFunctionCall: bool

    /** What has been emitted so far, as far as the rules of the stream depend on it. */
    ghost var progress: Progress

    function Abs(): State
      reads this`messageStartEmitted, this`nextBlockIndex, this`blocks, this`sawFunctionCall
    {
      State(messageStartEmitted, nextBlockIndex, blocks, sawFunctionCall)
    }

    ghost predicate Valid()
      reads this
    {
      Tracks(Abs(), progress)
    }

    constructor ()
      ensures Valid() && Abs() == FRESH && progress == NOTHING
    {
      messageStartEmitted, nextBlockIndex, blocks, sawFunctionCall := false, 0, map[], false;
      progress := NOTHING;
    }

    method LookupFlatItem(target: Option<string>) returns (block: Option<Slot>)
      ensures block == if target.Some? && target.value in blocks then Some(blocks[target.value]) else None
    {
      if target.None? || target.value !in blocks {
        return None;
      }
      return Some(blocks[target.value]);
    }

    method OpenBlock(id: string) returns (index: nat)
      modifies this`nextBlockIndex, this`blocks
      ensures Abs() == Open(old(Abs()), id) && index == old(nextBlockIndex)
    {
      index := nextBlockIndex;
      nextBlockIndex := nextBlockIndex + 1;
      blocks := blocks[id := Slot(index, false)];
    }

    method OnResponseStarted(response: RResponse, draw: string) returns (out: seq<AEvent>)
      modifies this`messageStartEmitted
      ensures forall e: REvent :: e.body == Created(response) || e.body == InProgress(response)
                ==> (Abs(), out) == Step(old(Abs()), e, draw)
    {
      if messageStartEmitted {
        return [];
      }
      messageStartEmitted := true;
      var message := AMessage(Str(SynthId("msg", draw)), Some(Str("assistant")), response.model,
                              Some(StartUsage(response.usage)));
      return [MessageStart(message)];
    }

    method OnOutputItemAdded(outputIndex: nat, item: RItem) returns (out: seq<AEvent>)
      modifies this`nextBlockIndex, this`blocks, this`sawFunctionCall
      ensures forall e: REvent, draw: string :: e.body == ItemAdded(outputIndex, item)
                ==> (Abs(), out) == Step(old(Abs()), e, draw)
    {
      match item {
        case FunctionCallItem(id, _, callId, name, _) =>
          sawFunctionCall := true;
          var index := OpenBlock(id);
          return [BlockStart(Some(index), ToolUseBlock(callId, name))];
        case ReasoningItem(id, _, _) =>
          var index := OpenBlock(id);
          return [BlockStart(Some(index), ThinkingBlock)];
        case _ => return [];
      }
    }

    method OnContentPartAdded(itemId: string, outputIndex: nat, isOutputText: bool) returns (out: seq<AEvent>)
      modifies this`nextBlockIndex, this`blocks
      ensures forall e: REvent, draw: string :: e.body == PartAdded(itemId, outputIndex, isOutputText)
                ==> (Abs(), out) == Step(old(Abs()), e, draw)
    {
      if !isOutputText {
        return [];
      }
      if itemId in blocks {
        return [];
      }
      var index := OpenBlock(itemId);
      return [BlockStart(Some(index), TextBlock)];
    }

    method OnBlockDone(itemId: string) returns (out: seq<AEvent>)
      modifies this`blocks
      ensures forall e: REvent, draw: string :: IsDone(e.body) && ItemOf(e.body) == itemId
                ==> (Abs(), out) == Step(old(Abs()), e, draw)
    {
      if itemId !in blocks {
        return [];
      }
      var block := blocks[itemId];
      if block.stopped {
        return [];
      }
      blocks := blocks[itemId := block.(stopped := true)];
      return [BlockStop(Some(block.index))];
    }

    method OnOutputTextDelta(target: Option<string>, text: string) returns (out: seq<AEvent>)
      ensures forall e: REvent, draw: string ::
                && IsDelta(e.body) && e.body.OutputTextDelta?
                && e.body.target == target && e.body.delta == text
                ==> (Abs(), out) == Step(Abs(), e, draw)
    {
      var block := LookupFlatItem(target);
      if block.None? {
        return [];
      }
      return [BlockDelta(Some(block.value.index), TextDelta(text))];
    }

    method OnFunctionCallArgumentsDelta(target: Option<string>, text: string) returns (out: seq<AEvent>)
      ensures forall e: REvent, draw: string ::
                && IsDelta(e.body) && e.body.ArgumentsDelta?
                && e.body.target == target && e.body.delta == text
                ==> (Abs(), out) == Step(Abs(), e, draw)
    {
      var block := LookupFlatItem(target);
      if block.None? {
        return [];
      }
      return [BlockDelta(Some(block.value.index), InputJsonDelta(text))];
    }

    method OnReasoningDelta(target: Option<string>, text: string) returns (out: seq<AEvent>)
      ensures forall e: REvent, draw: string ::
                && IsDelta(e.body) && (e.body.SummaryTextDelta? || e.body.ReasoningTextDelta?)
                && e.body.target == target && e.body.delta == text
                ==> (Abs(), out) == Step(Abs(), e, draw)
    {
      var block := LookupFlatItem(target);
      if block.None? {
        return [];
      }
      return [BlockDelta(Some(block.value.index), ThinkingDelta(text))];
    }

    method OnResponseFailed(error: RError) returns (out: seq<AEvent>)
      ensures forall e: REvent, draw: string :: e.body == Failed(error) ==> (Abs(), out) == Step(Abs(), e, draw)
    {
      return [ErrorOf(error)];
    }

    method OnError(code: Option<Json>, message: Option<Json>) returns (out: seq<AEvent>)
      ensures forall e: REvent, draw: string :: e.body == Error(code, message) ==> (Abs(), out) == Step(Abs(), e, draw)
    {
      return [ErrorOf(BareError(code, message))];
    }

    /** Whatever comes in, what goes out obeys the rules, given all that went out before. */
    method TranslateResponseEvent(e: REvent, draw: string) returns (out: seq<AEvent>)
      requires Valid()
      modifies this
      ensures Valid()
      ensures (Abs(), out) == Step(old(Abs()), e, draw)
      ensures Disciplined(old(progress), out, false) && progress == After(old(progress), out)
    {
      hide Tracks, Disciplined, After, Step;
      StepTracks(Abs(), progress, e, draw, false);
      match e.body {
        case Created(response) => out := OnResponseStarted(response, draw);
        case InProgress(response) => out := OnResponseStarted(response, draw);
        case ItemAdded(i, item) => out := OnOutputItemAdded(i, item);
        case PartAdded(id, i, isText) => out := OnContentPartAdded(id, i, isText);
        case OutputTextDelta(target, _, text) => out := OnOutputTextDelta(target, text);
        case ArgumentsDelta(target, _, text) => out := OnFunctionCallArgumentsDelta(target, text);
        case SummaryTextDelta(target, _, text) => out := OnReasoningDelta(target, text);
        case ReasoningTextDelta(target, _, text) => out := OnReasoningDelta(target, text);
        case OutputTextDone(id, _, _) => out := OnBlockDone(id);
        case ArgumentsDone(id, _, _) => out := OnBlockDone(id);
        case SummaryTextDone(id, _, _) => out := OnBlockDone(id);
        case ReasoningTextDone(id, _, _) => out := OnBlockDone(id);
        case PartDone(id, _, _) => out := OnBlockDone(id);
        case ItemDone(_, item) => out := OnBlockDone(item.id);
        case Completed(response) => out := OnResponseCompleted(response);
        case Incomplete(response) => out := OnResponseCompleted(response);
        case Failed(error) => out := OnResponseFailed(error);
        case Error(code, message) => out := OnError(code, message);
        case OtherBody =>
          out := [];
          NothingToDo(Abs(), e, draw);
      }
      progress := After(progress, out);
    }

    method OnResponseCompleted(response: RResponse) returns (out: seq<AEvent>)
      ensures forall e: REvent, draw: string :: e.body == Completed(response) || e.body == Incomplete(response)
                ==> (Abs(), out) == Step(old(Abs()), e, draw)
    {
      var reason := match response.status
        case Some("incomplete") => "max_tokens"
        case _ => if sawFunctionCall then "tool_use" else "end_turn";
      var usage := if response.usage.AbsentUsage? then Obj(map["output_tokens" := Int(0)])
                   else UsageFromOpenAi(response.usage);
      return [MessageDelta(Some(Str(reason)), Some(Null), Some(usage)), MessageStop];
    }
  }

  lemma NothingToDo(st: State, e: REvent, draw: string)
    requires e.body.OtherBody?
    ensures Step(st, e, draw) == (st, [])
  {
  }
}
