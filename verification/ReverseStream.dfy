/** Messages stream in, Responses stream out. */
module ReverseStream {
  import opened Common
  import opened Wire

  datatype Kind = Text | ToolUse | Thinking

  datatype Open = Open(kind: Kind, itemId: string, callId: string, name: string, buffer: string)

  datatype State = State(
    seqno: nat,
    responseId: Option<string>,
    model: Option<Json>,
    blocks: map<nat, Open>,
    order: seq<nat>,
    usage: Option<map<string, Json>>,
    stopReason: Option<string>
  )

  const FRESH := State(0, None, None, map[], [], None, None)

  function MergeUsage(usage: Option<map<string, Json>>, incoming: Option<Json>): Option<map<string, Json>> {
    match incoming
    case None => usage
    case Some(v) => Some(usage.GetOr(map[]) + if v.Obj? then v.fields else map[])
  }

  function IntOr0(usage: map<string, Json>, key: string): int {
    AsInt(Get(usage, key)).GetOr(0)
  }

  function MapUsage(usage: map<string, Json>): RUsage {
    var input, output := IntOr0(usage, "input_tokens"), IntOr0(usage, "output_tokens");
    Usage(Some(input), Some(output), Some(IntOr0(usage, "cache_read_input_tokens")),
          Some(IntOr0(usage, "thinking_tokens")), Some(input + output))
  }

  function CompletedItem(b: Open): RItem {
    match b.kind
    case Text => MessageItem(b.itemId, "completed", Some(b.buffer))
    case ToolUse => FunctionCallItem(b.itemId, "completed", b.callId, b.name, b.buffer)
    case Thinking => ReasoningItem(b.itemId, "completed", Some(b.buffer))
  }

  function StartedItem(b: Open): RItem {
    match b.kind
    case Text => MessageItem(b.itemId, "in_progress", None)
    case ToolUse => FunctionCallItem(b.itemId, "in_progress", b.callId, b.name, "")
    case Thinking => ReasoningItem(b.itemId, "in_progress", None)
  }

  /** The state of a block just opened, if its type is one the translator knows. */
  function NewBlock(block: ABlock, draw: string): Option<Open> {
    match block
    case TextBlock => Some(Open(Text, SynthId("msg", draw), "", "", ""))
    case ToolUseBlock(id, name) => Some(Open(ToolUse, SynthId("fc", draw), id, name, ""))
    case ThinkingBlock => Some(Open(Thinking, SynthId("rs", draw), "", "", ""))
    case OtherBlock => None
  }

  function DeltaBody(itemId: string, index: nat, d: ADelta): RBody
    requires !d.OtherDelta?
  {
    match d
    case TextDelta(text) => OutputTextDelta(Some(itemId), index, text)
    case InputJsonDelta(text) => ArgumentsDelta(Some(itemId), index, text)
    case ThinkingDelta(text) => SummaryTextDelta(Some(itemId), index, text)
  }

  function StartBodies(b: Open, index: nat): seq<RBody> {
    [ItemAdded(index, StartedItem(b))] + if b.kind.Text? then [PartAdded(b.itemId, index, true)] else []
  }

  function StopBodies(b: Open, index: nat): seq<RBody> {
    (match b.kind
     case Text => [OutputTextDone(b.itemId, index, b.buffer), PartDone(b.itemId, index, b.buffer)]
     case ToolUse => [ArgumentsDone(b.itemId, index, b.buffer)]
     case Thinking => [SummaryTextDone(b.itemId, index, b.buffer)]) + [ItemDone(index, CompletedItem(b))]
  }

  /** The items of the opened blocks, in opening order. */
  function Output(blocks: map<nat, Open>, order: seq<nat>): seq<RItem> {
    if order == [] then []
    else if order[0] in blocks then [CompletedItem(blocks[order[0]])] + Output(blocks, order[1..])
    else Output(blocks, order[1..])
  }

  function Terminal(st: State): RBody {
    var incomplete := st.stopReason == Some("max_tokens");
    var usage := match st.usage
      case Some(u) => MapUsage(u)
      case None => NullUsage;
    var response := RResponse(st.responseId.GetOr(""), Some(if incomplete then "incomplete" else "completed"),
                              st.model.GetOr(Null), Output(st.blocks, st.order), usage,
                              if incomplete then Some("max_output_tokens") else None);
    if incomplete then Incomplete(response) else Completed(response)
  }

  /** The bodies of the events that one event causes; `draw` is the drawn part of a minted id. */
  function Bodies(st: State, e: AEvent, draw: string): (State, seq<RBody>) {
    match e
    case MessageStart(m) =>
      var id := SynthId("resp", draw);
      var response := RResponse(id, Some("in_progress"), m.model, [], NullUsage, None);
      (st.(responseId := Some(id), model := Some(m.model), usage := MergeUsage(st.usage, m.usage)),
       [Created(response), InProgress(response)])
    case BlockStart(Some(i), block) =>
      (match NewBlock(block, draw)
       case Some(b) => (st.(blocks := st.blocks[i := b], order := st.order + [i]), StartBodies(b, i))
       case None => (st, []))
    case BlockDelta(Some(i), d) =>
      if i in st.blocks && !d.OtherDelta? then
        var b := st.blocks[i];
        (st.(blocks := st.blocks[i := b.(buffer := b.buffer + d.text)]), [DeltaBody(b.itemId, i, d)])
      else (st, [])
    case BlockStop(Some(i)) =>
      if i in st.blocks then (st, StopBodies(st.blocks[i], i)) else (st, [])
    case MessageDelta(reason, _, usage) =>
      var stop := AsStr(reason);
      (st.(stopReason := if stop.Some? then stop else st.stopReason, usage := MergeUsage(st.usage, usage)), [])
    case MessageStop => (st, [Terminal(st)])
    case ErrorEvent(kind, text) =>
      (st, [Error(Some(Str(kind.GetOr("api_error"))), Some(Str(text.GetOr(""))))])
    case _ => (st, [])
  }

  function Numbered(from: nat, bodies: seq<RBody>): (es: seq<REvent>)
    ensures |es| == |bodies|
    ensures forall k :: 0 <= k < |es| ==> es[k] == REvent(from + k, bodies[k])
  {
    seq(|bodies|, k requires 0 <= k < |bodies| => REvent(from + k, bodies[k]))
  }

  function Step(st: State, e: AEvent, draw: string): (State, seq<REvent>) {
    var (st1, bodies) := Bodies(st, e, draw);
    (st1.(seqno := st.seqno + |bodies|), Numbered(st.seqno, bodies))
  }

  function Run(st: State, es: seq<AEvent>, draws: seq<string>): (State, seq<REvent>)
    requires |draws| == |es|
    decreases |es|
  {
    if es == [] then (st, [])
    else
      var (st1, out) := Step(st, es[0], draws[0]);
      var (st2, rest) := Run(st1, es[1..], draws[1..]);
      (st2, out + rest)
  }
}
