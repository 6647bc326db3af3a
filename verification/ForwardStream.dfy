/** Responses stream in, Messages stream out. */
module ForwardStream {
  import opened Common
  import opened Wire

  datatype Slot = Slot(index: nat, stopped: bool)

  datatype State = State(started: bool, next: nat, blocks: map<string, Slot>, sawCall: bool)

  const FRESH := State(false, 0, map[], false)

  function Open(st: State, id: string): State {
    st.(next := st.next + 1, blocks := st.blocks[id := Slot(st.next, false)])
  }

  function IntField(key: string, v: Option<int>): map<string, Json> {
    match v
    case Some(n) => map[key := Int(n)]
    case None => map[]
  }

  function UsageFromOpenAi(u: RUsage): Json {
    if u.Usage? then
      Obj(map["output_tokens" := Int(u.output.GetOr(0))] + IntField("input_tokens", u.input) +
          IntField("cache_read_input_tokens", u.cached) + IntField("thinking_tokens", u.reasoning))
    else
      Obj(map["output_tokens" := Int(0)])
  }

  function StartUsage(u: RUsage): Json {
    if u.Usage? then UsageFromOpenAi(u) else Obj(map["input_tokens" := Int(0), "output_tokens" := Int(0)])
  }

  /** A bare error event, read as an error: its type is that of the event. */
  function BareError(code: Option<Json>, message: Option<Json>): RError {
    RError(code, Some(Str("error")), message)
  }

  function ErrorOf(e: RError): AEvent {
    var kind := if e.code.Some? then e.code else e.kind;
    ErrorEvent(Some(AsStr(kind).GetOr("api_error")), Some(AsStr(e.message).GetOr("")))
  }

  function DeltaOf(b: RBody): ADelta
    requires IsDelta(b)
  {
    match b
    case OutputTextDelta(_, _, d) => TextDelta(d)
    case ArgumentsDelta(_, _, d) => InputJsonDelta(d)
    case SummaryTextDelta(_, _, d) => ThinkingDelta(d)
    case ReasoningTextDelta(_, _, d) => ThinkingDelta(d)
  }

  /** The content block that an event asks to open, if any, and for which item, when those of `known` have one. */
  function Opens(known: set<string>, b: RBody): Option<(string, ABlock)> {
    match b
    case ItemAdded(_, FunctionCallItem(id, _, callId, name, _)) => Some((id, ToolUseBlock(callId, name)))
    case ItemAdded(_, ReasoningItem(id, _, _)) => Some((id, ThinkingBlock))
    case PartAdded(id, _, true) => if id in known then None else Some((id, TextBlock))
    case _ => None
  }

  function StopReason(st: State, status: Option<string>): string {
    if status == Some("incomplete") then "max_tokens" else if st.sawCall then "tool_use" else "end_turn"
  }

  /** One event; `draw` is the drawn part of the message id, used by the first start only. */
  function Step(st: State, e: REvent, draw: string): (State, seq<AEvent>) {
    var b := e.body;
    if b.Created? || b.InProgress? then
      if st.started then (st, [])
      else
        (st.(started := true),
         [MessageStart(AMessage(Str(SynthId("msg", draw)), Some(Str("assistant")), b.response.model,
                                Some(StartUsage(b.response.usage))))])
    else if Opens(st.blocks.Keys, b).Some? then
      var (id, block) := Opens(st.blocks.Keys, b).value;
      (Open(st, id).(sawCall := st.sawCall || block.ToolUseBlock?), [BlockStart(Some(st.next), block)])
    else if IsDelta(b) then
      if IsDeltaFor(b, st.blocks.Keys) then (st, [BlockDelta(Some(st.blocks[b.target.value].index), DeltaOf(b))])
      else (st, [])
    else if IsDone(b) then
      var id := ItemOf(b);
      if id in st.blocks && !st.blocks[id].stopped then
        (st.(blocks := st.blocks[id := st.blocks[id].(stopped := true)]), [BlockStop(Some(st.blocks[id].index))])
      else (st, [])
    else if b.Completed? || b.Incomplete? then
      var usage := if b.response.usage.AbsentUsage? then Obj(map["output_tokens" := Int(0)])
                   else UsageFromOpenAi(b.response.usage);
      (st, [MessageDelta(Some(Str(StopReason(st, b.response.status))), Some(Null), Some(usage)), MessageStop])
    else if b.Failed? then (st, [ErrorOf(b.error)])
    else if b.Error? then (st, [ErrorOf(BareError(b.code, b.message))])
    else (st, [])
  }

  function Run(st: State, es: seq<REvent>, draw: string): (State, seq<AEvent>)
    decreases |es|
  {
    if es == [] then (st, [])
    else
      var (st1, out) := Step(st, es[0], draw);
      var (st2, rest) := Run(st1, es[1..], draw);
      (st2, out + rest)
  }

  lemma {:induction false} RunConcat(st: State, a: seq<REvent>, b: seq<REvent>, draw: string)
    ensures var (st1, out1) := Run(st, a, draw);
      var (st2, out2) := Run(st1, b, draw);
      Run(st, a + b, draw) == (st2, out1 + out2)
    decreases |a|
  {
    if a == [] {
      assert a + b == b;
      assert Run(st, b, draw).1 == [] + Run(st, b, draw).1;
    } else {
      assert (a + b)[1..] == a[1..] + b;
      var (st1, out) := Step(st, a[0], draw);
      RunConcat(st1, a[1..], b, draw);
      var (st2, rest) := Run(st1, a[1..], draw);
      assert out + (rest + Run(st2, b, draw).1) == (out + rest) + Run(st2, b, draw).1;
    }
  }
}
