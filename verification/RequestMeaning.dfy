/** What each of the two request mappers says, block by block and part by part, in order. */
module RequestMeaning {
  import opened Common
  import opened RequestMap
  import RT = RequestRoundTrip
  import Wire

  // ---------- history to items ----------

  /** One thing said: a part of a message item under its role, or a call or output item. */
  datatype Saying = SaysPart(role: string, part: Part) | SaysItem(item: Item)

  function PartSayings(role: string, parts: seq<Part>): (r: seq<Saying>)
    ensures |r| == |parts| && forall k :: 0 <= k < |r| ==> r[k] == SaysPart(role, parts[k])
  {
    seq(|parts|, k requires 0 <= k < |parts| => SaysPart(role, parts[k]))
  }

  function ItemSayings(item: Item): seq<Saying> {
    match item
    case MessageItem(role, ItemParts(parts)) => PartSayings(role, parts)
    case _ => [SaysItem(item)]
  }

  function Sayings(items: seq<Item>): seq<Saying> {
    if items == [] then []
    else
      var n := |items| - 1;
      Sayings(items[..n]) + ItemSayings(items[n])
  }

  function ImageParts(source: Source): seq<Part> {
    match source
    case Base64(Some(mediaType), Some(data)) => [InputImage("data:" + mediaType + ";base64," + data)]
    case Base64(None, Some(data)) => [InputImage("data:image/png;base64," + data)]
    case Url(Some(url)) => [InputImage(url)]
    case _ => []
  }

  function ResultPartsOf(blocks: seq<Block>): seq<Part> {
    if blocks == [] then []
    else
      var n := |blocks| - 1;
      ResultPartsOf(blocks[..n]) + match blocks[n]
        case Text(Some(text)) => [InputText(text)]
        case Image(source) => ImageParts(source)
        case _ => []
  }

  /** What a block of a role's message is to say. */
  function BlockSayings(codec: Codec, role: string, b: Block): seq<Saying> {
    match b
    case Text(text) =>
      var said := if text.Some? then text.value else "";
      [SaysPart(role, if role == "assistant" then OutputText(said) else InputText(said))]
    case Image(source) => PartSayings(role, ImageParts(source))
    case ToolUse(id, name, input) => [SaysItem(FunctionCall(id, name, Some(codec.write(input))))]
    case ToolResult(id, Plain(text), _) => [SaysItem(FunctionCallOutput(id, OutputString(text)))]
    case ToolResult(id, Blocks(blocks), _) => [SaysItem(FunctionCallOutput(id, OutputParts(ResultPartsOf(blocks))))]
    case ToolResult(id, NoResult, _) => [SaysItem(FunctionCallOutput(id, OutputString("")))]
    case _ => []
  }

  function BlocksSayings(codec: Codec, role: string, blocks: seq<Block>): seq<Saying> {
    if blocks == [] then []
    else
      var n := |blocks| - 1;
      BlocksSayings(codec, role, blocks[..n]) + BlockSayings(codec, role, blocks[n])
  }

  function MessageSayings(codec: Codec, m: Message): seq<Saying> {
    var role := if m.role.Some? then m.role.value else "user";
    match m.content
    case TextContent(text) => BlockSayings(codec, role, Text(Some(text)))
    case BlockContent(blocks) => BlocksSayings(codec, role, blocks)
    case NoContent => []
  }

  function HistorySayings(codec: Codec, messages: seq<Message>): seq<Saying> {
    if messages == [] then []
    else
      var n := |messages| - 1;
      HistorySayings(codec, messages[..n]) + MessageSayings(codec, messages[n])
  }

  lemma {:induction false} SayingsConcat(a: seq<Item>, b: seq<Item>)
    ensures Sayings(a + b) == Sayings(a) + Sayings(b)
  {
    if b == [] {
      assert a + b == a;
    } else {
      var n := |b| - 1;
      assert (a + b)[..|a + b| - 1] == a + b[..n];
      SayingsConcat(a, b[..n]);
      Associate(Sayings(a), Sayings(b[..n]), ItemSayings(b[n]));
    }
  }

  lemma SayingsOne(item: Item)
    ensures Sayings([item]) == ItemSayings(item)
  {
    assert [item][..0] == [];
  }

  lemma FlushSays(items: seq<Item>, buffer: seq<Part>, role: string)
    ensures Sayings(Flush(items, buffer, role)) == Sayings(items) + PartSayings(role, buffer)
  {
    if buffer != [] {
      SayingsConcat(items, [MessageItem(role, ItemParts(buffer))]);
      SayingsOne(MessageItem(role, ItemParts(buffer)));
    } else {
      assert PartSayings(role, buffer) == [];
    }
  }

  lemma ImageIs(source: Source)
    ensures ImageParts(source) == if ImageUrl(source).Some? then [InputImage(ImageUrl(source).value)] else []
  {
    assert "data:" + "image/png" + ";base64," == "data:image/png;base64,";
  }

  lemma {:induction false} ResultPartsAre(blocks: seq<Block>)
    ensures ResultParts(blocks) == ResultPartsOf(blocks)
  {
    if blocks != [] {
      var n := |blocks| - 1;
      ResultPartsAre(blocks[..n]);
      if blocks[n].Image? {
        ImageIs(blocks[n].source);
      }
      hide ImageUrl, ImageParts;
    }
  }

  /** The part that a block becomes is what it is to say. */
  lemma PartIs(codec: Codec, role: string, b: Block)
    requires !b.ToolUse? && !b.ToolResult?
    ensures BlockSayings(codec, role, b) ==
      PartSayings(role, if PartOf(role, b).Some? then [PartOf(role, b).value] else [])
  {
    if b.Image? {
      ImageIs(b.source);
      hide ImageUrl, ImageParts;
    }
  }

  lemma ToolIs(codec: Codec, role: string, b: Block)
    ensures b.ToolUse? ==> BlockSayings(codec, role, b) == [SaysItem(CallItem(codec, b.id, b.name, b.input))]
    ensures b.ToolResult? ==> BlockSayings(codec, role, b) == [SaysItem(OutputItem(b.toolUseId, b.result))]
  {
    if b.ToolResult? && b.result.Blocks? {
      ResultPartsAre(b.result.blocks);
    }
  }

  lemma PartSayingsConcat(role: string, a: seq<Part>, b: seq<Part>)
    ensures PartSayings(role, a + b) == PartSayings(role, a) + PartSayings(role, b)
  {
  }

  lemma {:induction false} BlocksSay(codec: Codec, role: string, blocks: seq<Block>)
    ensures var (items, buffer) := FoldBlocks(codec, role, blocks);
      Sayings(items) + PartSayings(role, buffer) == BlocksSayings(codec, role, blocks)
  {
    hide BlockSayings, PartOf, Flush, PartSayings;
    if blocks == [] {
      assert PartSayings(role, []) == [];
    } else {
      var n := |blocks| - 1;
      var b := blocks[n];
      BlocksSay(codec, role, blocks[..n]);
      var (items, buffer) := FoldBlocks(codec, role, blocks[..n]);
      if b.ToolUse? || b.ToolResult? {
        var item := if b.ToolUse? then CallItem(codec, b.id, b.name, b.input) else OutputItem(b.toolUseId, b.result);
        ToolIs(codec, role, b);
        FlushSays(items, buffer, role);
        SayingsConcat(Flush(items, buffer, role), [item]);
        SayingsOne(item);
        assert PartSayings(role, []) == [];
      } else {
        PartIs(codec, role, b);
        var more := if PartOf(role, b).Some? then [PartOf(role, b).value] else [];
        PartSayingsConcat(role, buffer, more);
        Associate(Sayings(items), PartSayings(role, buffer), PartSayings(role, more));
        assert buffer + [] == buffer;
      }
    }
  }

  lemma MessageSays(codec: Codec, m: Message)
    ensures Sayings(MessageItems(codec, m)) == MessageSayings(codec, m)
  {
    match m.content {
      case TextContent(text) =>
        SayingsOne(MessageItem(m.Role(), ItemParts([TextPart(m.Role(), text)])));
      case BlockContent(blocks) =>
        var (items, buffer) := FoldBlocks(codec, m.Role(), blocks);
        BlocksSay(codec, m.Role(), blocks);
        FlushSays(items, buffer, m.Role());
      case NoContent =>
    }
  }

  /** For every history: its items say exactly what its blocks are to say, in order. */
  lemma {:induction false} ItemsSay(codec: Codec, messages: seq<Message>)
    ensures Sayings(Items(codec, messages)) == HistorySayings(codec, messages)
  {
    hide MessageItems, MessageSayings;
    if messages != [] {
      var n := |messages| - 1;
      ItemsSay(codec, messages[..n]);
      SayingsConcat(Items(codec, messages[..n]), MessageItems(codec, messages[n]));
      MessageSays(codec, messages[n]);
    }
  }

  /** A message item is never empty, and is never followed by another one of the same message. */
  predicate Grouped(items: seq<Item>) {
    && (forall k :: 0 <= k < |items| ==> items[k].MessageItem? ==>
          items[k].content.ItemParts? && items[k].content.parts != [])
    && forall k :: 0 < k < |items| ==> !(items[k - 1].MessageItem? && items[k].MessageItem?)
  }

  predicate EndsInTool(items: seq<Item>) {
    items == [] || !items[|items| - 1].MessageItem?
  }

  lemma FlushGroups(items: seq<Item>, buffer: seq<Part>, role: string)
    requires Grouped(items) && EndsInTool(items)
    ensures Grouped(Flush(items, buffer, role))
  {
  }

  lemma {:induction false} FoldGroups(codec: Codec, role: string, blocks: seq<Block>)
    ensures Grouped(FoldBlocks(codec, role, blocks).0) && EndsInTool(FoldBlocks(codec, role, blocks).0)
  {
    if blocks != [] {
      var n := |blocks| - 1;
      FoldGroups(codec, role, blocks[..n]);
      var (items, buffer) := FoldBlocks(codec, role, blocks[..n]);
      FlushGroups(items, buffer, role);
      hide Flush, PartOf;
      var b := blocks[n];
      if b.ToolUse? || b.ToolResult? {
        var item := if b.ToolUse? then CallItem(codec, b.id, b.name, b.input) else OutputItem(b.toolUseId, b.result);
        ToolGroups(Flush(items, buffer, role), item);
      }
    }
  }

  lemma ToolGroups(items: seq<Item>, item: Item)
    requires Grouped(items) && !item.MessageItem?
    ensures Grouped(items + [item]) && EndsInTool(items + [item])
  {
  }

  /** The parts of a message stay together up to its next tool block. */
  lemma PartsStayTogether(codec: Codec, m: Message)
    ensures Grouped(MessageItems(codec, m))
  {
    if m.content.BlockContent? {
      var (items, buffer) := FoldBlocks(codec, m.Role(), m.content.blocks);
      FoldGroups(codec, m.Role(), m.content.blocks);
      FlushGroups(items, buffer, m.Role());
    }
  }

  /** No kind of text part goes out under the wrong role: `OutputText` is the assistant's alone. */
  predicate RightKind(s: Saying) {
    match s
    case SaysPart(role, part) => if role == "assistant" then !part.InputText? else !part.OutputText?
    case SaysItem(FunctionCallOutput(_, OutputParts(parts))) => forall k :: 0 <= k < |parts| ==> !parts[k].OutputText?
    case SaysItem(_) => true
  }

  lemma {:induction false} ResultKinds(blocks: seq<Block>)
    ensures forall k :: 0 <= k < |ResultPartsOf(blocks)| ==> !ResultPartsOf(blocks)[k].OutputText?
  {
    if blocks != [] {
      ResultKinds(blocks[..|blocks| - 1]);
    }
  }

  lemma {:induction false} BlocksKinds(codec: Codec, role: string, blocks: seq<Block>)
    ensures forall k :: 0 <= k < |BlocksSayings(codec, role, blocks)| ==>
      RightKind(BlocksSayings(codec, role, blocks)[k])
  {
    if blocks != [] {
      var n := |blocks| - 1;
      BlocksKinds(codec, role, blocks[..n]);
      if blocks[n].ToolResult? && blocks[n].result.Blocks? {
        ResultKinds(blocks[n].result.blocks);
      }
    }
  }

  lemma {:induction false} TextKinds(codec: Codec, messages: seq<Message>)
    ensures forall k :: 0 <= k < |Sayings(Items(codec, messages))| ==> RightKind(Sayings(Items(codec, messages))[k])
  {
    hide Items, BlocksSayings, RightKind;
    ItemsSay(codec, messages);
    if messages != [] {
      var n := |messages| - 1;
      TextKinds(codec, messages[..n]);
      ItemsSay(codec, messages[..n]);
      MessageKinds(codec, messages[n]);
    }
  }

  lemma MessageKinds(codec: Codec, m: Message)
    ensures forall k :: 0 <= k < |MessageSayings(codec, m)| ==> RightKind(MessageSayings(codec, m)[k])
  {
    if m.content.BlockContent? {
      BlocksKinds(codec, if m.role.Some? then m.role.value else "user", m.content.blocks);
    }
  }

  // ---------- items to history ----------

  function PartBlocks(part: Part): seq<Block> {
    match part
    case InputText(text) => [Text(Some(text))]
    case OutputText(text) => [Text(Some(text))]
    case InputImage(url) => if SourceOfUrl(url).Some? then [Image(SourceOfUrl(url).value)] else []
    case OtherPart => []
  }

  function PartsBlocks(parts: seq<Part>): seq<Block> {
    if parts == [] then []
    else
      var n := |parts| - 1;
      PartsBlocks(parts[..n]) + PartBlocks(parts[n])
  }

  /** The message that an item is to become, if any. */
  function MessagesOf(codec: Codec, item: Item): seq<Message> {
    match item
    case MessageItem(role, content) =>
      var blocks := match content
        case ItemText(text) => [Text(Some(text))]
        case ItemParts(parts) => PartsBlocks(parts)
        case NoItemContent => [];
      if blocks == [] then []
      else if role == "assistant" then [Message(Some("assistant"), BlockContent(blocks))]
      else if role == "user" || role == "system" || role == "developer" then
        [Message(Some("user"), BlockContent(blocks))]
      else []
    case FunctionCall(id, name, arguments) =>
      var parsed := if arguments.Some? then codec.parse(arguments.value) else None;
      var input := if parsed.Some? then parsed.value else Wire.Obj(map[]);
      [Message(Some("assistant"), BlockContent([ToolUse(id, name, input)]))]
    case FunctionCallOutput(id, OutputString(text)) =>
      [Message(Some("user"), BlockContent([ToolResult(id, Plain(text), false)]))]
    case FunctionCallOutput(id, OutputParts(parts)) =>
      [Message(Some("user"), BlockContent([ToolResult(id, Blocks(PartsBlocks(parts)), false)]))]
    case FunctionCallOutput(id, NoOutput) =>
      [Message(Some("user"), BlockContent([ToolResult(id, Plain(""), false)]))]
    case OtherItem => []
  }

  function AllMessagesOf(codec: Codec, items: seq<Item>): seq<Message> {
    if items == [] then [] else MessagesOf(codec, items[0]) + AllMessagesOf(codec, items[1..])
  }

  lemma {:induction false} PartsAre(parts: seq<Part>)
    ensures BlocksOf(parts) == PartsBlocks(parts)
  {
    if parts != [] {
      hide SourceOfUrl;
      PartsAre(parts[..|parts| - 1]);
    }
  }

  lemma ItemIs(codec: Codec, item: Item)
    ensures BackItem(codec, item) == MessagesOf(codec, item)
  {
    hide BlocksOf, PartsBlocks;
    match item {
      case MessageItem(_, ItemParts(parts)) => PartsAre(parts);
      case FunctionCallOutput(_, OutputParts(parts)) => PartsAre(parts);
      case _ =>
    }
  }

  /** For every list of items: the history is that of the items, one message each at most. */
  lemma {:induction false} HistorySays(codec: Codec, items: seq<Item>)
    ensures Back(codec, items) == AllMessagesOf(codec, items)
    decreases |items|
  {
    hide BackItem, MessagesOf;
    if items != [] {
      assert items == [items[0]] + items[1..];
      RT.BackConcat(codec, [items[0]], items[1..]);
      RT.HeardOne(codec, items[0]);
      ItemIs(codec, items[0]);
      HistorySays(codec, items[1..]);
    }
  }

  /** Exactly which URLs read as what: base64 data under a media type without a comma, or any other URL. */
  lemma UrlReadsIff(url: string, mediaType: string, data: string)
    ensures SourceOfUrl(url) == Some(Base64(Some(mediaType), Some(data)))
      <==> url == "data:" + mediaType + ";base64," + data && ',' !in mediaType
    ensures SourceOfUrl(url) == Some(Url(Some(url))) <==> !("data:" <= url)
    ensures SourceOfUrl(url).Some? ==>
      || SourceOfUrl(url).value == Url(Some(url))
      || (SourceOfUrl(url).value.Base64? && SourceOfUrl(url).value.mediaType.Some? && SourceOfUrl(url).value.data.Some?)
  {
    if url == "data:" + mediaType + ";base64," + data && ',' !in mediaType {
      RT.Base64RoundTrip(mediaType, data);
    }
    if SourceOfUrl(url) == Some(Base64(Some(mediaType), Some(data))) {
      var rest := url[|"data:"|..];
      var k := FirstComma(rest);
      assert rest == rest[..k] + [','] + rest[k + 1..];
      assert rest[..k] == mediaType + ";base64";
      assert url == "data:" + rest;
      assert "data:" + (mediaType + ";base64" + "," + data) == "data:" + mediaType + ";base64," + data;
      assert forall j :: 0 <= j < |mediaType| ==> mediaType[j] == rest[j];
    }
  }
}
