/** The two event streams, as far as the translators read or write them. */
module Wire {
  import opened Common

  datatype Json =
    | Null
    | Bool(b: bool)
    | Int(n: int)
    | Str(s: string)
    | Arr(items: seq<Json>)
    | Obj(fields: map<string, Json>)

  function AsInt(v: Option<Json>): Option<int> {
    if v.Some? && v.value.Int? then Some(v.value.n) else None
  }

  function AsStr(v: Option<Json>): Option<string> {
    if v.Some? && v.value.Str? then Some(v.value.s) else None
  }

  function Get(m: map<string, Json>, key: string): Option<Json> {
    if key in m then Some(m[key]) else None
  }

  /** A minted id: a prefix and the drawn part. */
  function SynthId(prefix: string, draw: string): string {
    prefix + "_" + draw
  }

  // ---------- Anthropic Messages ----------

  datatype ABlock = TextBlock | ThinkingBlock | ToolUseBlock(id: string, name: string) | OtherBlock

  datatype ADelta = TextDelta(text: string) | InputJsonDelta(text: string) | ThinkingDelta(text: string) | OtherDelta

  datatype AMessage = AMessage(id: Json, role: Option<Json>, model: Json, usage: Option<Json>)

  /** An index that is missing or not a number reads as `None`, a missing string as empty. */
  datatype AEvent =
    | MessageStart(message: AMessage)
    | BlockStart(index: Option<nat>, block: ABlock)
    | BlockDelta(index: Option<nat>, delta: ADelta)
    | BlockStop(index: Option<nat>)
    | MessageDelta(stopReason: Option<Json>, stopSequence: Option<Json>, usage: Option<Json>)
    | MessageStop
    | ErrorEvent(kind: Option<string>, text: Option<string>)
    | OtherEvent

  // ---------- OpenAI Responses ----------

  /** `text` and `summary` are `None` while the item is in progress. */
  datatype RItem =
    | MessageItem(id: string, status: string, text: Option<string>)
    | FunctionCallItem(id: string, status: string, callId: string, name: string, arguments: string)
    | ReasoningItem(id: string, status: string, summary: Option<string>)
    | OtherItem(id: string)

  datatype RUsage =
    | AbsentUsage
    | NullUsage
    | Usage(input: Option<int>, output: Option<int>, cached: Option<int>, reasoning: Option<int>, total: Option<int>)

  datatype RResponse = RResponse(
    id: string,
    status: Option<string>,
    model: Json,
    output: seq<RItem>,
    usage: RUsage,
    incompleteReason: Option<string>
  )

  /** The error of a failed response. A bare error event has a code and a message of its own. */
  datatype RError = RError(code: Option<Json>, kind: Option<Json>, message: Option<Json>)

  /** A delta without an item id has no target; in the other events a missing id reads as empty. */
  datatype RBody =
    | Created(response: RResponse)
    | InProgress(response: RResponse)
    | ItemAdded(outputIndex: nat, item: RItem)
    | PartAdded(itemId: string, outputIndex: nat, isOutputText: bool)
    | OutputTextDelta(target: Option<string>, outputIndex: nat, delta: string)
    | ArgumentsDelta(target: Option<string>, outputIndex: nat, delta: string)
    | SummaryTextDelta(target: Option<string>, outputIndex: nat, delta: string)
    | ReasoningTextDelta(target: Option<string>, outputIndex: nat, delta: string)
    | OutputTextDone(itemId: string, outputIndex: nat, text: string)
    | ArgumentsDone(itemId: string, outputIndex: nat, text: string)
    | SummaryTextDone(itemId: string, outputIndex: nat, text: string)
    | ReasoningTextDone(itemId: string, outputIndex: nat, text: string)
    | PartDone(itemId: string, outputIndex: nat, text: string)
    | ItemDone(outputIndex: nat, item: RItem)
    | Completed(response: RResponse)
    | Incomplete(response: RResponse)
    | Failed(error: RError)
    | Error(code: Option<Json>, message: Option<Json>)
    | OtherBody

  datatype REvent = REvent(sequence: nat, body: RBody)

  predicate IsDelta(b: RBody) {
    b.OutputTextDelta? || b.ArgumentsDelta? || b.SummaryTextDelta? || b.ReasoningTextDelta?
  }

  predicate IsDone(b: RBody) {
    b.OutputTextDone? || b.ArgumentsDone? || b.SummaryTextDone? || b.ReasoningTextDone? || b.PartDone? || b.ItemDone?
  }

  /** The item that a done event belongs to. */
  function ItemOf(b: RBody): string
    requires IsDone(b)
  {
    if b.ItemDone? then b.item.id else b.itemId
  }

  /** A delta for one of the items. A delta that names no item is for none of them. */
  predicate IsDeltaFor(b: RBody, items: set<string>) {
    IsDelta(b) && b.target.Some? && b.target.value in items
  }
}
