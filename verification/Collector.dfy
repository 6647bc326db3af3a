/** Folds a Messages stream into one message. */
module Collector {
  import opened Common
  import opened Wire

  datatype Block =
    | Text(text: string)
    | Thinking(text: string)
    | ToolUse(id: string, name: string, input: string)
    | Done(value: Json)

  /** The JSON reader that the collector is given: `None` when a text does not parse. */
  type Parser = string -> Option<Json>

  function FinalizeBlock(parse: Parser, b: Block): Json {
    match b
    case Text(text) => Obj(map["type" := Str("text"), "text" := Str(text)])
    case Thinking(text) => Obj(map["type" := Str("thinking"), "thinking" := Str(text)])
    case ToolUse(id, name, input) =>
      var parsed := parse(input);
      Obj(map["type" := Str("tool_use"), "id" := Str(id), "name" := Str(name),
              "input" := if parsed.Some? && parsed.value.Obj? then parsed.value else Obj(map[])])
    case Done(value) => value
  }

  datatype State = State(message: map<string, Json>, blocks: seq<Option<Block>>)

  const FRESH := State(map[], [])

  function BaseMessage(m: AMessage): map<string, Json> {
    map["id" := m.id, "type" := Str("message"), "role" := m.role.GetOr(Str("assistant")), "model" := m.model,
        "content" := Arr([]), "stop_reason" := Null, "stop_sequence" := Null, "usage" := m.usage.GetOr(Obj(map[]))]
  }

  function NewBlock(b: ABlock): Option<Block> {
    match b
    case TextBlock => Some(Text(""))
    case ThinkingBlock => Some(Thinking(""))
    case ToolUseBlock(id, name) => Some(ToolUse(id, name, ""))
    case OtherBlock => None
  }

  /** A delta of the wrong kind for its block is ignored. */
  function Append(b: Block, d: ADelta): Block {
    match (b, d)
    case (Text(text), TextDelta(x)) => Text(text + x)
    case (ToolUse(id, name, input), InputJsonDelta(x)) => ToolUse(id, name, input + x)
    case (Thinking(text), ThinkingDelta(x)) => Thinking(text + x)
    case _ => b
  }

  function SetBlock(blocks: seq<Option<Block>>, index: nat, b: Block): seq<Option<Block>> {
    if |blocks| <= index then blocks + seq(index - |blocks|, _ => None) + [Some(b)] else blocks[index := Some(b)]
  }

  function SetIf(message: map<string, Json>, key: string, v: Option<Json>): map<string, Json> {
    if v.Some? then message[key := v.value] else message
  }

  predicate IsOpen(blocks: seq<Option<Block>>, i: Option<nat>) {
    i.Some? && i.value < |blocks| && blocks[i.value].Some?
  }

  function Step(parse: Parser, st: State, e: AEvent): State {
    match e
    case MessageStart(m) => st.(message := BaseMessage(m))
    case BlockStart(i, b) =>
      if i.Some? && NewBlock(b).Some? then st.(blocks := SetBlock(st.blocks, i.value, NewBlock(b).value)) else st
    case BlockDelta(i, d) =>
      if IsOpen(st.blocks, i) then
        st.(blocks := st.blocks[i.value := Some(Append(st.blocks[i.value].value, d))])
      else st
    case BlockStop(i) =>
      if IsOpen(st.blocks, i) then
        st.(blocks := st.blocks[i.value := Some(Done(FinalizeBlock(parse, st.blocks[i.value].value)))])
      else st
    case MessageDelta(reason, sequence, usage) =>
      st.(message := SetIf(SetIf(SetIf(st.message, "stop_reason", reason), "stop_sequence", sequence), "usage", usage))
    case _ => st
  }

  function Run(parse: Parser, st: State, es: seq<AEvent>): State
    decreases |es|
  {
    if es == [] then st else Run(parse, Step(parse, st, es[0]), es[1..])
  }

  /** The slots that hold a block, in ascending order of index. */
  function Present(blocks: seq<Option<Block>>): seq<Block> {
    if blocks == [] then []
    else
      var n := |blocks| - 1;
      Present(blocks[..n]) + if blocks[n].Some? then [blocks[n].value] else []
  }

  function FinalizeAll(parse: Parser, blocks: seq<Block>): (r: seq<Json>)
    ensures |r| == |blocks|
    ensures forall k :: 0 <= k < |r| ==> r[k] == FinalizeBlock(parse, blocks[k])
  {
    seq(|blocks|, k requires 0 <= k < |blocks| => FinalizeBlock(parse, blocks[k]))
  }

  function Content(parse: Parser, blocks: seq<Option<Block>>): seq<Json> {
    FinalizeAll(parse, Present(blocks))
  }

  function Finish(parse: Parser, st: State): map<string, Json> {
    st.message["content" := Arr(Content(parse, st.blocks))]
  }

  /** The message that a whole stream folds into. */
  function Collect(parse: Parser, es: seq<AEvent>): map<string, Json> {
    Finish(parse, Run(parse, FRESH, es))
  }

  // ---------- the collector object ----------

  class MessageCollector {
    const parse: Parser
    var message: map<string, Json>
    var blocks: seq<Option<Block>>

    function Abs(): State
      reads this
    {
      State(message, blocks)
    }

    constructor (parse: Parser)
      ensures Abs() == FRESH && this.parse == parse
    {
      this.parse := parse;
      message, blocks := map[], [];
    }

    method SetBlockAt(index: nat, b: Block)
      modifies this`blocks
      ensures blocks == SetBlock(old(blocks), index, b)
    {
      if |blocks| <= index {
        blocks := blocks + seq(index + 1 - |blocks|, _ => None);
      }
      blocks := blocks[index := Some(b)];
      assert blocks == SetBlock(old(blocks), index, b);
    }

    method Push(e: AEvent)
      modifies this
      ensures Abs() == Step(parse, old(Abs()), e)
    {
      match e {
        case MessageStart(m) => message := BaseMessage(m);
        case BlockStart(index, b) =>
          if index.None? {
            return;
          }
          match b {
            case TextBlock => SetBlockAt(index.value, Text(""));
            case ThinkingBlock => SetBlockAt(index.value, Thinking(""));
            case ToolUseBlock(id, name) => SetBlockAt(index.value, ToolUse(id, name, ""));
            case OtherBlock =>
          }
        case BlockDelta(index, d) =>
          if index.None? || index.value >= |blocks| || blocks[index.value].None? {
            return;
          }
          blocks := blocks[index.value := Some(Append(blocks[index.value].value, d))];
        case BlockStop(index) =>
          if index.None? || index.value >= |blocks| || blocks[index.value].None? {
            return;
          }
          var finished := FinalizeBlock(parse, blocks[index.value].value);
          blocks := blocks[index.value := Some(Done(finished))];
        case MessageDelta(reason, sequence, usage) =>
          if reason.Some? {
            message := message["stop_reason" := reason.value];
          }
          if sequence.Some? {
            message := message["stop_sequence" := sequence.value];
          }
          if usage.Some? {
            message := message["usage" := usage.value];
          }
        case _ =>
      }
    }

    method FinishMessage() returns (r: map<string, Json>)
      modifies this
      ensures r == old(Finish(parse, Abs()))
    {
      var content: seq<Json> := [];
      for i := 0 to |blocks|
        invariant blocks == old(blocks) && message == old(message)
        invariant content == Content(parse, blocks[..i])
      {
        assert blocks[..i + 1][..i] == blocks[..i];
        if blocks[i].Some? {
          content := content + [FinalizeBlock(parse, blocks[i].value)];
        }
      }
      assert blocks[..|blocks|] == blocks;
      message := message["content" := Arr(content)];
      r := message;
    }
  }
}
