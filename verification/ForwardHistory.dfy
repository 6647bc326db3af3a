/**
 The forward translator without its state: what it emits at any moment can be looked up in the stream
 that has come in so far.
 */
module ForwardHistory {
  import opened Common
  import opened Wire
  import F = ForwardStream

  // ---------- looking things up ----------

  /** The item that an event may open a block for. */
  function Opener(b: RBody): Option<string> {
    match b
    case ItemAdded(_, FunctionCallItem(id, _, _, _, _)) => Some(id)
    case ItemAdded(_, ReasoningItem(id, _, _)) => Some(id)
    case PartAdded(id, _, true) => Some(id)
    case _ => None
  }

  /** An added call or reasoning item always opens a block; a text part only if its item has none yet. */
  predicate OpensAt(es: seq<REvent>, p: nat)
    requires p < |es|
  {
    && Opener(es[p].body).Some?
    && (es[p].body.PartAdded? ==> forall q :: 0 <= q < p ==> Opener(es[q].body) != Opener(es[p].body))
  }

  /** How many blocks have been opened. */
  function Openings(es: seq<REvent>): nat {
    if es == [] then 0 else Openings(es[..|es| - 1]) + if OpensAt(es, |es| - 1) then 1 else 0
  }

  /** The position at which the block that `id` stands for opened. */
  function OpeningOf(es: seq<REvent>, id: string): (r: Option<nat>)
    ensures r.Some? ==> r.value < |es| && Opener(es[r.value].body) == Some(id)
  {
    if es == [] then None
    else
      var n := |es| - 1;
      if OpensAt(es, n) && Opener(es[n].body) == Some(id) then Some(n) else OpeningOf(es[..n], id)
  }

  /** The item that an event reports done. */
  function DoneFor(b: RBody): Option<string> {
    match b
    case OutputTextDone(id, _, _) => Some(id)
    case ArgumentsDone(id, _, _) => Some(id)
    case SummaryTextDone(id, _, _) => Some(id)
    case ReasoningTextDone(id, _, _) => Some(id)
    case PartDone(id, _, _) => Some(id)
    case ItemDone(_, item) => Some(item.id)
    case _ => None
  }

  predicate DoneSince(es: seq<REvent>, p: nat, id: string) {
    exists q :: p < q < |es| && DoneFor(es[q].body) == Some(id)
  }

  predicate IsStart(b: RBody) {
    b.Created? || b.InProgress?
  }

  predicate Started(es: seq<REvent>) {
    exists p :: 0 <= p < |es| && IsStart(es[p].body)
  }

  predicate IsCall(b: RBody) {
    b.ItemAdded? && b.item.FunctionCallItem?
  }

  predicate Called(es: seq<REvent>) {
    exists p :: 0 <= p < |es| && IsCall(es[p].body)
  }

  // ---------- what is to be emitted, event by event ----------

  function BlockShown(b: RBody): ABlock
    requires Opener(b).Some?
  {
    match b
    case ItemAdded(_, FunctionCallItem(_, _, callId, name, _)) => ToolUseBlock(callId, name)
    case ItemAdded(_, _) => ThinkingBlock
    case PartAdded(_, _, _) => TextBlock
  }

  /** The text that a delta carries, as the kind of delta it becomes. */
  function DeltaShown(b: RBody): Option<(string, ADelta)> {
    match b
    case OutputTextDelta(Some(id), _, text) => Some((id, TextDelta(text)))
    case ArgumentsDelta(Some(id), _, text) => Some((id, InputJsonDelta(text)))
    case SummaryTextDelta(Some(id), _, text) => Some((id, ThinkingDelta(text)))
    case ReasoningTextDelta(Some(id), _, text) => Some((id, ThinkingDelta(text)))
    case _ => None
  }

  function Field(key: string, count: Option<int>): map<string, Json> {
    if count.Some? then map[key := Int(count.value)] else map[]
  }

  /** The output count is always shown, the others if they were given. */
  function UsageShown(u: RUsage): Json {
    match u
    case Usage(input, output, cached, reasoning, _) =>
      Obj(map["output_tokens" := Int(if output.Some? then output.value else 0)] + Field("input_tokens", input) +
          Field("cache_read_input_tokens", cached) + Field("thinking_tokens", reasoning))
    case _ => Obj(map["output_tokens" := Int(0)])
  }

  function FirstUsageShown(u: RUsage): Json {
    if u.Usage? then UsageShown(u) else Obj(map["input_tokens" := Int(0), "output_tokens" := Int(0)])
  }

  function Text(v: Option<Json>, default: string): string {
    match v
    case Some(Str(s)) => s
    case _ => default
  }

  /** What `e` causes after `past`; `draw` is the drawn part of the message id. */
  function Emitted(past: seq<REvent>, e: REvent, draw: string): seq<AEvent> {
    match e.body
    case Created(r) => if Started(past) then [] else [MessageBegun(r, draw)]
    case InProgress(r) => if Started(past) then [] else [MessageBegun(r, draw)]
    case ItemAdded(_, _) =>
      if Opener(e.body).Some? then [BlockStart(Some(Openings(past)), BlockShown(e.body))] else []
    case PartAdded(_, _, _) =>
      if OpensAt(past + [e], |past|) then [BlockStart(Some(Openings(past)), TextBlock)] else []
    case Completed(r) => MessageEnded(past, r)
    case Incomplete(r) => MessageEnded(past, r)
    case Failed(error) =>
      [ErrorEvent(Some(Text(if error.code.Some? then error.code else error.kind, "api_error")),
                  Some(Text(error.message, "")))]
    case Error(code, message) =>
      [ErrorEvent(Some(if code.Some? then Text(code, "api_error") else "error"), Some(Text(message, "")))]
    case _ =>
      if DeltaShown(e.body).Some? then
        var (id, delta) := DeltaShown(e.body).value;
        match OpeningOf(past, id)
        case Some(p) => [BlockDelta(Some(Openings(past[..p])), delta)]
        case None => []
      else if DoneFor(e.body).Some? then
        var id := DoneFor(e.body).value;
        match OpeningOf(past, id)
        case Some(p) => if DoneSince(past, p, id) then [] else [BlockStop(Some(Openings(past[..p])))]
        case None => []
      else []
  }

  function MessageBegun(r: RResponse, draw: string): AEvent {
    MessageStart(AMessage(Str("msg_" + draw), Some(Str("assistant")), r.model, Some(FirstUsageShown(r.usage))))
  }

  function MessageEnded(past: seq<REvent>, r: RResponse): seq<AEvent> {
    var reason := if r.status == Some("incomplete") then "max_tokens"
                  else if Called(past) then "tool_use" else "end_turn";
    [MessageDelta(Some(Str(reason)), Some(Null), Some(UsageShown(r.usage))), MessageStop]
  }

  function EmittedAfter(past: seq<REvent>, es: seq<REvent>, draw: string): seq<AEvent>
    decreases |es|
  {
    if es == [] then [] else Emitted(past, es[0], draw) + EmittedAfter(past + [es[0]], es[1..], draw)
  }

  // ---------- the state is the history ----------

  ghost predicate SlotsRecall(blocks: map<string, F.Slot>, past: seq<REvent>) {
    && (forall id :: id in blocks <==> OpeningOf(past, id).Some?)
    && forall id :: id in blocks ==>
         var p := OpeningOf(past, id).value;
         blocks[id].index == Openings(past[..p]) && (blocks[id].stopped <==> DoneSince(past, p, id))
  }

  ghost predicate StateRecalls(st: F.State, past: seq<REvent>) {
    && (st.started <==> Started(past)) && (st.sawCall <==> Called(past))
    && st.next == Openings(past) && SlotsRecall(st.blocks, past)
  }

  lemma Appended(past: seq<REvent>, e: REvent, id: string)
    ensures var all := past + [e];
      && Openings(all) == Openings(past) + (if OpensAt(all, |past|) then 1 else 0)
      && OpeningOf(all, id) ==
           (if OpensAt(all, |past|) && Opener(e.body) == Some(id) then Some(|past|) else OpeningOf(past, id))
  {
    assert (past + [e])[..|past|] == past;
  }

  lemma DoneAppended(past: seq<REvent>, e: REvent, p: nat, id: string)
    requires p <= |past|
    ensures DoneSince(past + [e], p, id) <==> DoneSince(past, p, id) || (p < |past| && DoneFor(e.body) == Some(id))
  {
    var all := past + [e];
    if q :| p < q < |past| && DoneFor(past[q].body) == Some(id) {
      assert DoneFor(all[q].body) == Some(id);
    }
    if q :| p < q < |all| && DoneFor(all[q].body) == Some(id) {
      assert q < |past| ==> DoneFor(past[q].body) == Some(id);
    }
    assert all[|past|] == e;
  }

  lemma FlagsAppended(past: seq<REvent>, e: REvent)
    ensures Started(past + [e]) <==> Started(past) || IsStart(e.body)
    ensures Called(past + [e]) <==> Called(past) || IsCall(e.body)
  {
    var all := past + [e];
    if p :| 0 <= p < |past| && IsStart(past[p].body) {
      assert IsStart(all[p].body);
    }
    if p :| 0 <= p < |all| && IsStart(all[p].body) {
      assert p < |past| ==> IsStart(past[p].body);
    }
    if p :| 0 <= p < |past| && IsCall(past[p].body) {
      assert IsCall(all[p].body);
    }
    if p :| 0 <= p < |all| && IsCall(all[p].body) {
      assert p < |past| ==> IsCall(past[p].body);
    }
    assert all[|past|] == e;
  }

  /** An item has a block as soon as some event could open one for it. */
  lemma {:induction false} OpenedIff(past: seq<REvent>, id: string)
    ensures OpeningOf(past, id).Some? <==> exists q :: 0 <= q < |past| && Opener(past[q].body) == Some(id)
  {
    if past != [] {
      var n := |past| - 1;
      var before := past[..n];
      OpenedIff(before, id);
      if q :| 0 <= q < |past| && Opener(past[q].body) == Some(id) {
        if q < n {
          assert Opener(before[q].body) == Some(id);
        } else if !OpensAt(past, n) {
          var r :| 0 <= r < n && Opener(past[r].body) == Opener(past[n].body);
          assert Opener(before[r].body) == Some(id);
        }
      }
    }
  }

  /** A text part opens a block exactly if its item has none. */
  lemma PartOpensIff(past: seq<REvent>, e: REvent)
    requires Opener(e.body).Some?
    ensures OpensAt(past + [e], |past|) <==> e.body.ItemAdded? || OpeningOf(past, Opener(e.body).value).None?
  {
    var all := past + [e];
    OpenedIff(past, Opener(e.body).value);
    assert all[|past|] == e;
    assert forall q :: 0 <= q < |past| ==> all[q] == past[q];
  }

  /** The translator's own reading of the event: what it opens. */
  lemma OpensIs(st: F.State, past: seq<REvent>, e: REvent)
    requires SlotsRecall(st.blocks, past)
    ensures F.Opens(st.blocks.Keys, e.body) ==
      if Opener(e.body).Some? && OpensAt(past + [e], |past|) then Some((Opener(e.body).value, BlockShown(e.body)))
      else None
  {
    if Opener(e.body).Some? {
      hide OpensAt, OpeningOf;
      PartOpensIff(past, e);
    }
  }

  lemma SlotAfter(blocks: map<string, F.Slot>, after: map<string, F.Slot>, past: seq<REvent>, e: REvent)
    requires SlotsRecall(blocks, past)
    requires Opener(e.body).Some? && OpensAt(past + [e], |past|) ==>
      after == blocks[Opener(e.body).value := F.Slot(Openings(past), false)]
    requires !(Opener(e.body).Some? && OpensAt(past + [e], |past|)) ==>
      match DoneFor(e.body)
      case Some(id) => after == if id in blocks then blocks[id := blocks[id].(stopped := true)] else blocks
      case None => after == blocks
    ensures SlotsRecall(after, past + [e])
  {
    hide OpensAt, OpeningOf, Openings, DoneSince;
    var all := past + [e];
    forall id ensures id in after <==> OpeningOf(all, id).Some?
      ensures id in after ==>
        var p := OpeningOf(all, id).value;
        after[id].index == Openings(all[..p]) && (after[id].stopped <==> DoneSince(all, p, id))
    {
      Appended(past, e, id);
      if OpeningOf(all, id).Some? {
        var p := OpeningOf(all, id).value;
        assert all[..p] == past[..p];
        DoneAppended(past, e, p, id);
        NotDoneYet(past, p, id);
        assert past[..|past|] == past;
      }
    }
  }

  lemma NotDoneYet(past: seq<REvent>, p: nat, id: string)
    ensures p >= |past| ==> !DoneSince(past, p, id)
  {
  }

  /** What a step does to the state, in terms of the event alone. */
  lemma StepState(st: F.State, e: REvent, draw: string)
    ensures var (st1, out) := F.Step(st, e, draw);
      && st1.started == (st.started || IsStart(e.body))
      && match F.Opens(st.blocks.Keys, e.body)
         case Some((id, block)) =>
           && st1.next == st.next + 1 && st1.sawCall == (st.sawCall || block.ToolUseBlock?)
           && st1.blocks == st.blocks[id := F.Slot(st.next, false)]
         case None =>
           && st1.next == st.next && st1.sawCall == st.sawCall
           && match DoneFor(e.body)
              case Some(id) =>
                st1.blocks == if id in st.blocks then st.blocks[id := st.blocks[id].(stopped := true)] else st.blocks
              case None => st1.blocks == st.blocks
  {
    hide F.StartUsage, F.UsageFromOpenAi, F.ErrorOf, F.DeltaOf, F.StopReason, SynthId, F.BareError;
    var (st1, out) := F.Step(st, e, draw);
    if DoneFor(e.body).Some? && DoneFor(e.body).value in st.blocks && st.blocks[DoneFor(e.body).value].stopped {
      var id := DoneFor(e.body).value;
      assert st.blocks[id := st.blocks[id].(stopped := true)] == st.blocks;
    }
  }

  lemma StateAfter(st: F.State, past: seq<REvent>, e: REvent, draw: string)
    requires StateRecalls(st, past)
    ensures StateRecalls(F.Step(st, e, draw).0, past + [e])
  {
    StepState(st, e, draw);
    OpensIs(st, past, e);
    Appended(past, e, "");
    FlagsAppended(past, e);
    OpensAnyway(past, e);
    hide F.Step, F.Opens, SlotsRecall, Openings, Started, Called;
    SlotAfter(st.blocks, F.Step(st, e, draw).0.blocks, past, e);
  }

  lemma OpensAnyway(past: seq<REvent>, e: REvent)
    ensures OpensAt(past + [e], |past|) ==> Opener(e.body).Some?
    ensures IsCall(e.body) <==> Opener(e.body).Some? && OpensAt(past + [e], |past|) && BlockShown(e.body).ToolUseBlock?
  {
    assert (past + [e])[|past|] == e;
  }

  // ---------- what is emitted is what the history says ----------

  lemma UsageIs(u: RUsage)
    ensures F.UsageFromOpenAi(u) == UsageShown(u) && F.StartUsage(u) == FirstUsageShown(u)
  {
  }

  lemma PlainEmits(st: F.State, past: seq<REvent>, e: REvent, draw: string)
    requires StateRecalls(st, past)
    requires
      || IsStart(e.body) || e.body.Completed? || e.body.Incomplete?
      || e.body.Failed? || e.body.Error? || e.body.OtherBody?
    ensures F.Step(st, e, draw).1 == Emitted(past, e, draw)
  {
    assert SynthId("msg", draw) == "msg_" + draw by {
      assert "msg" + "_" == "msg_";
    }
    hide F.UsageFromOpenAi, F.StartUsage, UsageShown, FirstUsageShown, SlotsRecall, Openings, Started, Called, SynthId;
    if IsStart(e.body) || e.body.Completed? || e.body.Incomplete? {
      UsageIs(e.body.response.usage);
      NoUsage(e.body.response.usage);
    }
  }

  lemma NoUsage(u: RUsage)
    ensures u.AbsentUsage? ==> UsageShown(u) == Obj(map["output_tokens" := Int(0)])
  {
  }

  lemma OpeningEmits(st: F.State, past: seq<REvent>, e: REvent, draw: string)
    requires StateRecalls(st, past) && (e.body.ItemAdded? || e.body.PartAdded?)
    ensures F.Step(st, e, draw).1 == Emitted(past, e, draw)
  {
    OpensIs(st, past, e);
    OpensAnyway(past, e);
    if Opener(e.body).Some? {
      PartOpensIff(past, e);
    }
    hide F.Opens, SlotsRecall, Openings, OpensAt, OpeningOf, SynthId;
  }

  lemma TextEmits(st: F.State, past: seq<REvent>, e: REvent, draw: string)
    requires StateRecalls(st, past) && (IsDelta(e.body) || DoneFor(e.body).Some?)
    ensures F.Step(st, e, draw).1 == Emitted(past, e, draw)
  {
    hide Openings, OpeningOf, DoneSince, SynthId;
  }

  lemma StepEmits(st: F.State, past: seq<REvent>, e: REvent, draw: string)
    requires StateRecalls(st, past)
    ensures F.Step(st, e, draw).1 == Emitted(past, e, draw)
  {
    hide F.Step, Emitted, StateRecalls;
    if e.body.ItemAdded? || e.body.PartAdded? {
      OpeningEmits(st, past, e, draw);
    } else if IsDelta(e.body) || DoneFor(e.body).Some? {
      TextEmits(st, past, e, draw);
    } else {
      PlainEmits(st, past, e, draw);
    }
  }

  lemma {:induction false} RunEmits(st: F.State, past: seq<REvent>, es: seq<REvent>, draw: string)
    requires StateRecalls(st, past)
    ensures F.Run(st, es, draw).1 == EmittedAfter(past, es, draw)
    decreases |es|
  {
    hide StateRecalls, F.Step, Emitted;
    if es != [] {
      StepEmits(st, past, es[0], draw);
      StateAfter(st, past, es[0], draw);
      RunEmits(F.Step(st, es[0], draw).0, past + [es[0]], es[1..], draw);
    }
  }

  /** For every stream: what the translator emits is, event by event, what the history of the stream says. */
  lemma EmitsItsHistory(es: seq<REvent>, draw: string)
    ensures F.Run(F.FRESH, es, draw).1 == EmittedAfter([], es, draw)
  {
    NothingRecalled();
    RunEmits(F.FRESH, [], es, draw);
  }

  lemma NothingRecalled()
    ensures StateRecalls(F.FRESH, [])
  {
  }

  lemma {:induction false} EmittedAt(past: seq<REvent>, es: seq<REvent>, draw: string, p: nat)
    requires p < |es|
    ensures forall a :: a in Emitted(past + es[..p], es[p], draw) ==> a in EmittedAfter(past, es, draw)
    decreases |es|
  {
    if p == 0 {
      assert past + es[..0] == past;
    } else {
      assert past + [es[0]] + es[1..][..p - 1] == past + es[..p];
      EmittedAt(past + [es[0]], es[1..], draw, p - 1);
    }
  }

  /** Every failed response shows an error: under its code if it has one, else under its type. */
  lemma FailureShows(es: seq<REvent>, draw: string, p: nat)
    requires p < |es| && es[p].body.Failed?
    ensures var error := es[p].body.error;
      var kind := if error.code.Some? then Text(error.code, "api_error") else Text(error.kind, "api_error");
      ErrorEvent(Some(kind), Some(Text(error.message, ""))) in F.Run(F.FRESH, es, draw).1
  {
    hide F.Run;
    EmitsItsHistory(es, draw);
    EmittedAt([], es, draw, p);
    assert [] + es[..p] == es[..p];
    var error := es[p].body.error;
    var shown := Emitted(es[..p], es[p], draw);
    assert shown[0] in shown;
  }
}
