/** The two request mappers: Messages history to Responses input items, and input items to history. */
module RequestMap {
  import opened Common
  import Wire

  type Json = Wire.Json

  // ---------- the two histories ----------

  datatype Source =
    | Base64(mediaType: Option<string>, data: Option<string>)
    | Url(url: Option<string>)
    | OtherSource

  datatype Block =
    | Text(text: Option<string>)
    | Image(source: Source)
    | ToolUse(id: string, name: string, input: Json)
    | ToolResult(toolUseId: string, result: ResultContent, isError: bool)
    | Thinking
    | OtherBlock

  datatype ResultContent = Plain(text: string) | Blocks(blocks: seq<Block>) | NoResult

  datatype Content = TextContent(text: string) | BlockContent(blocks: seq<Block>) | NoContent

  /** A message without a role counts as the user's. */
  datatype Message = Message(role: Option<string>, content: Content) {
    function Role(): string {
      role.GetOr("user")
    }
  }

  datatype Part = InputText(text: string) | OutputText(text: string) | InputImage(url: string) | OtherPart

  datatype ItemContent = ItemText(text: string) | ItemParts(parts: seq<Part>) | NoItemContent

  datatype ToolOutput = OutputString(text: string) | OutputParts(parts: seq<Part>) | NoOutput

  datatype Item =
    | MessageItem(role: string, content: ItemContent)
    | FunctionCall(callId: string, name: string, arguments: Option<string>)
    | FunctionCallOutput(callId: string, output: ToolOutput)
    | OtherItem

  /** The JSON writer and reader. */
  datatype Codec = Codec(write: Json -> string, parse: string -> Option<Json>)

  ghost predicate Inverse(codec: Codec) {
    forall v: Json :: codec.parse(codec.write(v)) == Some(v)
  }

  // ---------- images and data: URLs (RFC 2397, section 3) ----------

  function ImageUrl(source: Source): Option<string> {
    match source
    case Base64(mediaType, Some(data)) => Some("data:" + mediaType.GetOr("image/png") + ";base64," + data)
    case Url(url) => url
    case _ => None
  }

  /** The position of the first comma, or the length if there is none. */
  function FirstComma(s: string): (k: nat)
    ensures k <= |s|
    ensures forall j :: 0 <= j < k ==> s[j] != ','
    ensures k < |s| ==> s[k] == ','
  {
    if s == "" || s[0] == ',' then 0 else 1 + FirstComma(s[1..])
  }

  function StripSuffix(s: string, suffix: string): Option<string> {
    if |suffix| <= |s| && s[|s| - |suffix|..] == suffix then Some(s[..|s| - |suffix|]) else None
  }

  function SourceOfUrl(url: string): Option<Source> {
    if "data:" <= url then
      var rest := url[|"data:"|..];
      var k := FirstComma(rest);
      if k == |rest| then None
      else
        match StripSuffix(rest[..k], ";base64")
        case Some(mediaType) => Some(Base64(Some(mediaType), Some(rest[k + 1..])))
        case None => None
    else Some(Url(Some(url)))
  }

  // ---------- Messages history to input items ----------

  function TextPart(role: string, text: string): Part {
    if role == "assistant" then OutputText(text) else InputText(text)
  }

  function PartOf(role: string, b: Block): Option<Part> {
    match b
    case Text(text) => Some(TextPart(role, text.GetOr("")))
    case Image(source) =>
      (match ImageUrl(source)
       case Some(url) => Some(InputImage(url))
       case None => None)
    case _ => None
  }

  /** Inside a tool result a text block without text is dropped, not read as empty. */
  function ResultPart(b: Block): Option<Part> {
    match b
    case Text(Some(text)) => Some(InputText(text))
    case Text(None) => None
    case _ => PartOf("user", b)
  }

  function ResultParts(blocks: seq<Block>): seq<Part> {
    if blocks == [] then []
    else
      var n := |blocks| - 1;
      ResultParts(blocks[..n]) +
      match ResultPart(blocks[n])
      case Some(p) => [p]
      case None => []
  }

  function CallItem(codec: Codec, id: string, name: string, input: Json): Item {
    FunctionCall(id, name, Some(codec.write(input)))
  }

  function OutputItem(id: string, result: ResultContent): Item {
    FunctionCallOutput(id,
      match result
      case Plain(text) => OutputString(text)
      case Blocks(blocks) => OutputParts(ResultParts(blocks))
      case NoResult => OutputString(""))
  }

  function Flush(items: seq<Item>, buffer: seq<Part>, role: string): seq<Item> {
    if buffer == [] then items else items + [MessageItem(role, ItemParts(buffer))]
  }

  /** The items made and the parts still buffered after some blocks of one message. */
  function FoldBlocks(codec: Codec, role: string, blocks: seq<Block>): (seq<Item>, seq<Part>) {
    if blocks == [] then ([], [])
    else
      var n := |blocks| - 1;
      var (items, buffer) := FoldBlocks(codec, role, blocks[..n]);
      match blocks[n]
      case ToolUse(id, name, input) => (Flush(items, buffer, role) + [CallItem(codec, id, name, input)], [])
      case ToolResult(id, result, _) => (Flush(items, buffer, role) + [OutputItem(id, result)], [])
      case b =>
        match PartOf(role, b)
        case Some(p) => (items, buffer + [p])
        case None => (items, buffer)
  }

  function MessageItems(codec: Codec, m: Message): seq<Item> {
    match m.content
    case TextContent(text) => [MessageItem(m.Role(), ItemParts([TextPart(m.Role(), text)]))]
    case BlockContent(blocks) =>
      var (items, buffer) := FoldBlocks(codec, m.Role(), blocks);
      Flush(items, buffer, m.Role())
    case NoContent => []
  }

  function Items(codec: Codec, messages: seq<Message>): seq<Item> {
    if messages == [] then []
    else
      var n := |messages| - 1;
      Items(codec, messages[..n]) + MessageItems(codec, messages[n])
  }

  method FlushMessageBuffer(items: seq<Item>, buffer: seq<Part>, role: string)
      returns (items': seq<Item>, buffer': seq<Part>)
    ensures items' == Flush(items, buffer, role) && buffer' == []
  {
    items', buffer' := items, buffer;
    if buffer' != [] {
      items' := items' + [MessageItem(role, ItemParts(buffer'))];
      buffer' := [];
    }
  }

  /** The blocks of one message: parts gather in a buffer, tool blocks flush it and stand alone. */
  method MapBlocks(codec: Codec, role: string, blocks: seq<Block>, before: seq<Item>) returns (items: seq<Item>)
    ensures items == before + MessageItems(codec, Message(Some(role), BlockContent(blocks)))
  {
    items := before;
    var buffer: seq<Part> := [];
    for j := 0 to |blocks|
      invariant items == before + FoldBlocks(codec, role, blocks[..j]).0
      invariant buffer == FoldBlocks(codec, role, blocks[..j]).1
    {
      assert blocks[..j + 1][..j] == blocks[..j];
      match blocks[j] {
        case Text(text) => buffer := buffer + [TextPart(role, text.GetOr(""))];
        case Image(source) =>
          var url := ImageUrl(source);
          if url.Some? {
            buffer := buffer + [InputImage(url.value)];
          }
        case ToolUse(id, name, input) =>
          items, buffer := FlushMessageBuffer(items, buffer, role);
          items := items + [CallItem(codec, id, name, input)];
        case ToolResult(id, result, _) =>
          items, buffer := FlushMessageBuffer(items, buffer, role);
          items := items + [OutputItem(id, result)];
        case _ =>
      }
    }
    assert blocks[..|blocks|] == blocks;
    items, buffer := FlushMessageBuffer(items, buffer, role);
  }

  method MapMessages(codec: Codec, messages: seq<Message>) returns (items: seq<Item>)
    ensures items == Items(codec, messages)
  {
    items := [];
    for i := 0 to |messages|
      invariant items == Items(codec, messages[..i])
    {
      var message := messages[i];
      var role := message.Role();
      assert messages[..i + 1][..i] == messages[..i];
      match message.content {
        case TextContent(text) => items := items + [MessageItem(role, ItemParts([TextPart(role, text)]))];
        case BlockContent(blocks) => items := MapBlocks(codec, role, blocks, items);
        case NoContent =>
      }
    }
    assert messages[..|messages|] == messages;
  }

  // ---------- input items to Messages history ----------

  function BlockOf(p: Part): Option<Block> {
    match p
    case InputText(text) => Some(Text(Some(text)))
    case OutputText(text) => Some(Text(Some(text)))
    case InputImage(url) =>
      (match SourceOfUrl(url)
       case Some(source) => Some(Image(source))
       case None => None)
    case OtherPart => None
  }

  function BlocksOf(parts: seq<Part>): seq<Block> {
    if parts == [] then []
    else
      var n := |parts| - 1;
      BlocksOf(parts[..n]) +
      match BlockOf(parts[n])
      case Some(b) => [b]
      case None => []
  }

  /** The history knows two roles: everybody known but the assistant speaks as the user. */
  function HistoryRole(role: string): Option<string> {
    if role == "assistant" then Some("assistant")
    else if role == "user" || role == "system" || role == "developer" then Some("user")
    else None
  }

  function ContentBlocks(content: ItemContent): seq<Block> {
    match content
    case ItemText(text) => [Text(Some(text))]
    case ItemParts(parts) => BlocksOf(parts)
    case NoItemContent => []
  }

  function BackInput(codec: Codec, arguments: Option<string>): Json {
    match arguments
    case Some(text) => codec.parse(text).GetOr(Wire.Obj(map[]))
    case None => Wire.Obj(map[])
  }

  function BackOutput(output: ToolOutput): ResultContent {
    match output
    case OutputString(text) => Plain(text)
    case OutputParts(parts) => Blocks(BlocksOf(parts))
    case NoOutput => Plain("")
  }

  function BackItem(codec: Codec, item: Item): seq<Message> {
    match item
    case MessageItem(role, content) =>
      var blocks := ContentBlocks(content);
      if HistoryRole(role).None? || blocks == [] then [] else [Message(HistoryRole(role), BlockContent(blocks))]
    case FunctionCall(id, name, arguments) =>
      [Message(Some("assistant"), BlockContent([ToolUse(id, name, BackInput(codec, arguments))]))]
    case FunctionCallOutput(id, output) =>
      [Message(Some("user"), BlockContent([ToolResult(id, BackOutput(output), false)]))]
    case OtherItem => []
  }

  function Back(codec: Codec, items: seq<Item>): seq<Message> {
    if items == [] then []
    else
      var n := |items| - 1;
      Back(codec, items[..n]) + BackItem(codec, items[n])
  }

  method MapContentParts(parts: seq<Part>) returns (blocks: seq<Block>)
    ensures blocks == BlocksOf(parts)
  {
    blocks := [];
    for i := 0 to |parts|
      invariant blocks == BlocksOf(parts[..i])
    {
      assert parts[..i + 1][..i] == parts[..i];
      var b := BlockOf(parts[i]);
      if b.Some? {
        blocks := blocks + [b.value];
      }
    }
    assert parts[..|parts|] == parts;
  }

  method MapInputItem(codec: Codec, item: Item, messages: seq<Message>) returns (r: seq<Message>)
    ensures r == messages + BackItem(codec, item)
  {
    r := messages;
    match item {
      case MessageItem(role, content) =>
        var known := role in ["user", "assistant", "system", "developer"];
        if known {
          var blocks: seq<Block>;
          match content {
            case ItemText(text) => blocks := [Text(Some(text))];
            case ItemParts(parts) => blocks := MapContentParts(parts);
            case NoItemContent => blocks := [];
          }
          if blocks != [] {
            r := r + [Message(Some(if role == "assistant" then "assistant" else "user"), BlockContent(blocks))];
          }
        }
      case FunctionCall(id, name, arguments) =>
        r := r + [Message(Some("assistant"), BlockContent([ToolUse(id, name, BackInput(codec, arguments))]))];
      case FunctionCallOutput(id, output) =>
        r := r + [Message(Some("user"), BlockContent([ToolResult(id, BackOutput(output), false)]))];
      case OtherItem =>
    }
  }

  method MapInput(codec: Codec, items: seq<Item>) returns (messages: seq<Message>)
    ensures messages == Back(codec, items)
  {
    messages := [];
    for i := 0 to |items|
      invariant messages == Back(codec, items[..i])
    {
      assert items[..i + 1][..i] == items[..i];
      messages := MapInputItem(codec, items[i], messages);
    }
    assert items[..|items|] == items;
  }
}
