/** The translator object of the reverse direction. */
module ReverseTranslator {
  import opened Common
  import opened Wire
  import opened ReverseStream
  import opened ReverseDiscipline

  class ResponsesToAnthropic {
    var seqno: nat
    var responseId: Option<string>
    var model: Option<Json>
    var blocks: map<nat, Open>
    var order: seq<nat>
    var usage: Option<map<string, Json>>
    var stopReason: Option<string>

    /** Everything emitted so far, and the draws that ids were minted from. */
    ghost var sent: seq<REvent>
    ghost var used: set<string>

    function Abs(): State
      reads this`seqno, this`responseId, this`model, this`blocks, this`order, this`usage, this`stopReason
    {
      State(seqno, responseId, model, blocks, order, usage, stopReason)
    }

    /** What was emitted is numbered without gaps. */
    ghost predicate Valid()
      reads this
    {
      seqno == |sent| && forall k :: 0 <= k < |sent| ==> sent[k].sequence == k
    }

    /** Every block stands for an item of its own, and holds the text that was emitted for it. */
    ghost predicate Unmixed()
      reads this
    {
      Faithful(Abs(), sent, used) && Listed(Abs(), AddedIds(sent), used)
    }

    constructor ()
      ensures Valid() && Unmixed() && Abs() == FRESH && sent == [] && used == {}
    {
      seqno, responseId, model, blocks, order, usage, stopReason := 0, None, None, map[], [], None, None;
      sent, used := [], {};
    }

    method NextSeq() returns (sequence: nat)
      modifies this`seqno
      ensures Abs() == old(Abs()).(seqno := old(seqno) + 1) && sequence == old(seqno)
    {
      sequence := seqno;
      seqno := seqno + 1;
    }

    method OnMessageStart(m: AMessage, draw: string) returns (out: seq<REvent>)
      modifies this`seqno, this`responseId, this`model, this`usage
      ensures (Abs(), out) == Step(old(Abs()), MessageStart(m), draw)
    {
      var id := SynthId("resp", draw);
      responseId := Some(id);
      model := Some(m.model);
      usage := MergeUsage(usage, m.usage);
      var response := RResponse(id, Some("in_progress"), m.model, [], NullUsage, None);
      var a := NextSeq();
      var b := NextSeq();
      out := [REvent(a, Created(response)), REvent(b, InProgress(response))];
      assert out == Numbered(old(seqno), [Created(response), InProgress(response)]);
    }

    method OnContentBlockStart(index: Option<nat>, block: ABlock, draw: string) returns (out: seq<REvent>)
      modifies this`seqno, this`blocks, this`order
      ensures (Abs(), out) == Step(old(Abs()), BlockStart(index, block), draw)
    {
      if index.None? {
        return [];
      }
      var i := index.value;
      var state: Open;
      match block {
        case TextBlock => state := Open(Text, SynthId("msg", draw), "", "", "");
        case ToolUseBlock(id, name) => state := Open(ToolUse, SynthId("fc", draw), id, name, "");
        case ThinkingBlock => state := Open(Thinking, SynthId("rs", draw), "", "", "");
        case OtherBlock => return [];
      }
      blocks := blocks[i := state];
      order := order + [i];
      var n := NextSeq();
      out := [REvent(n, ItemAdded(i, StartedItem(state)))];
      if state.kind == Text {
        n := NextSeq();
        out := out + [REvent(n, PartAdded(state.itemId, i, true))];
      }
      assert out == Numbered(old(seqno), StartBodies(state, i));
    }

    method OnContentBlockDelta(index: Option<nat>, delta: ADelta) returns (out: seq<REvent>)
      modifies this`seqno, this`blocks
      ensures forall draw: string :: (Abs(), out) == Step(old(Abs()), BlockDelta(index, delta), draw)
    {
      if index.None? || index.value !in blocks || delta.OtherDelta? {
        return [];
      }
      var i := index.value;
      var block := blocks[i];
      blocks := blocks[i := block.(buffer := block.buffer + delta.text)];
      var n := NextSeq();
      out := [REvent(n, DeltaBody(block.itemId, i, delta))];
      assert out == Numbered(old(seqno), [DeltaBody(block.itemId, i, delta)]);
    }

    method OnContentBlockStop(index: Option<nat>) returns (out: seq<REvent>)
      modifies this`seqno
      ensures forall draw: string :: (Abs(), out) == Step(old(Abs()), BlockStop(index), draw)
    {
      if index.None? || index.value !in blocks {
        return [];
      }
      var i := index.value;
      var block := blocks[i];
      var a := NextSeq();
      var b := NextSeq();
      match block.kind {
        case Text =>
          var c := NextSeq();
          out := [REvent(a, OutputTextDone(block.itemId, i, block.buffer)),
                  REvent(b, PartDone(block.itemId, i, block.buffer)),
                  REvent(c, ItemDone(i, MessageItem(block.itemId, "completed", Some(block.buffer))))];
        case ToolUse =>
          out := [REvent(a, ArgumentsDone(block.itemId, i, block.buffer)),
                  REvent(b, ItemDone(i, CompletedItem(block)))];
        case Thinking =>
          out := [REvent(a, SummaryTextDone(block.itemId, i, block.buffer)),
                  REvent(b, ItemDone(i, CompletedItem(block)))];
      }
      assert out == Numbered(old(seqno), StopBodies(block, i));
    }

    method OnMessageDelta(reason: Option<Json>, sequence: Option<Json>, incoming: Option<Json>)
        returns (out: seq<REvent>)
      modifies this`usage, this`stopReason
      ensures forall draw: string :: (Abs(), out) == Step(old(Abs()), MessageDelta(reason, sequence, incoming), draw)
    {
      if AsStr(reason).Some? {
        stopReason := AsStr(reason);
      }
      usage := MergeUsage(usage, incoming);
      return [];
    }

    method OnMessageStop() returns (out: seq<REvent>)
      modifies this`seqno
      ensures forall draw: string :: (Abs(), out) == Step(old(Abs()), MessageStop, draw)
    {
      var terminal := Terminal(Abs());
      var n := NextSeq();
      out := [REvent(n, terminal)];
      assert out == Numbered(old(seqno), [terminal]);
    }

    /** Whatever comes in, the numbering goes on; with a new draw, so does the tie of blocks to their items. */
    method TranslateResponseEvent(e: AEvent, draw: string) returns (out: seq<REvent>)
      requires Valid()
      modifies this
      ensures Valid()
      ensures (Abs(), out) == Step(old(Abs()), e, draw)
      ensures sent == old(sent) + out && used == old(used) + {draw}
      ensures old(Unmixed()) && draw !in old(used) ==> Unmixed()
    {
      hide Faithful, Listed, AddedIds, Terminal, Output;
      ghost var before, past, seen := Abs(), sent, used;
      match e {
        case MessageStart(m) => out := OnMessageStart(m, draw);
        case BlockStart(index, block) => out := OnContentBlockStart(index, block, draw);
        case BlockDelta(index, delta) => out := OnContentBlockDelta(index, delta);
        case BlockStop(index) => out := OnContentBlockStop(index);
        case MessageDelta(reason, sequence, u) => out := OnMessageDelta(reason, sequence, u);
        case MessageStop => out := OnMessageStop();
        case ErrorEvent(kind, text) =>
          var n := NextSeq();
          var body := Error(Some(Str(kind.GetOr("api_error"))), Some(Str(text.GetOr(""))));
          out := [REvent(n, body)];
          assert out == Numbered(old(seqno), [body]);
        case OtherEvent => out := [];
      }
      sent, used := sent + out, used + {draw};
      NumberedStep(before, e, draw);
      if Faithful(before, past, seen) && Listed(before, AddedIds(past), seen) && draw !in seen {
        StepFaithful(before, past, seen, e, draw);
        StepListed(before, past, seen, e, draw);
      }
    }
  }
}
