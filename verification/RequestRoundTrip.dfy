/** Messages history to input items and back: what exactly survives. */
module RequestRoundTrip {
  import opened Common
  import opened RequestMap

  /** Who says what, message boundaries forgotten. */
  type Turn = (string, Block)

  function Said(role: string, blocks: seq<Block>): seq<Turn> {
    if blocks == [] then []
    else
      var n := |blocks| - 1;
      Said(role, blocks[..n]) + [(role, blocks[n])]
  }

  function SaidIn(m: Message): seq<Turn> {
    match m.content
    case TextContent(text) => [(m.Role(), Text(Some(text)))]
    case BlockContent(blocks) => Said(m.Role(), blocks)
    case NoContent => []
  }

  function Flatten(messages: seq<Message>): seq<Turn> {
    if messages == [] then []
    else
      var n := |messages| - 1;
      Flatten(messages[..n]) + SaidIn(messages[n])
  }

  // ---------- images ----------

  /** An image source after printing it as a URL and reading that URL. */
  function Reread(source: Source): Option<Source> {
    match ImageUrl(source)
    case Some(url) => SourceOfUrl(url)
    case None => None
  }

  predicate CleanSource(source: Source) {
    match source
    case Base64(mediaType, data) => mediaType.Some? && data.Some? && ',' !in mediaType.value
    case Url(url) => url.Some? && !("data:" <= url.value)
    case OtherSource => false
  }

  lemma FirstCommaAt(s: string, t: string)
    ensures FirstComma(s + "," + t) == FirstComma(s)
  {
    var u := s + "," + t;
    var k := FirstComma(s);
    if k < |s| {
      assert u[k] == ',' && forall j :: 0 <= j < k ==> u[j] == s[j];
    } else {
      assert u[k] == ',' && forall j :: 0 <= j < k ==> u[j] == s[j];
    }
  }

  /** Reading a printed base64 source: the text before the first comma must end in `;base64`. */
  lemma RereadBase64(mediaType: string, data: string)
    ensures var meta := mediaType + ";base64";
      var k := FirstComma(meta);
      Reread(Base64(Some(mediaType), Some(data))) ==
      match StripSuffix(meta[..k], ";base64")
      case Some(m) => Some(Base64(Some(m), Some((meta + "," + data)[k + 1..])))
      case None => None
  {
    var meta := mediaType + ";base64";
    var url := "data:" + mediaType + ";base64," + data;
    var rest := url[|"data:"|..];
    assert rest == meta + "," + data;
    FirstCommaAt(meta, data);
    assert rest[..FirstComma(meta)] == meta[..FirstComma(meta)];
  }

  /** A printed base64 source reads back as itself exactly when its media type has no comma. */
  lemma Base64RoundTrip(mediaType: string, data: string)
    ensures Reread(Base64(Some(mediaType), Some(data))) == Some(Base64(Some(mediaType), Some(data)))
      <==> ',' !in mediaType
  {
    hide Reread;
    RereadBase64(mediaType, data);
    var meta := mediaType + ";base64";
    var k := FirstComma(meta);
    if ',' in mediaType {
      var j :| 0 <= j < |mediaType| && mediaType[j] == ',';
      assert meta[j] == ',' && k <= j;
    } else {
      assert ',' !in meta;
      assert k == |meta| && meta[..k] == meta && (meta + "," + data)[k + 1..] == data;
      assert meta[|mediaType|..] == ";base64" && meta[..|mediaType|] == mediaType;
    }
  }

  /** In general: an image survives exactly when its source is clean. */
  lemma ImageRoundTrip(source: Source)
    ensures Reread(source) == Some(source) <==> CleanSource(source)
  {
    match source {
      case Base64(Some(mediaType), Some(data)) => Base64RoundTrip(mediaType, data);
      case Base64(None, Some(data)) =>
        var r := Reread(source);
        assert r.Some? ==> r.value.Url? || r.value.mediaType.Some?;
      case _ =>
    }
  }

  // ---------- what one block of a role becomes ----------

  function Survivor(role: string, b: Block): seq<Turn> {
    match b
    case Text(text) =>
      if HistoryRole(role).Some? then [(HistoryRole(role).value, Text(Some(text.GetOr(""))))] else []
    case Image(source) =>
      if HistoryRole(role).Some? && Reread(source).Some? then [(HistoryRole(role).value, Image(Reread(source).value))]
      else []
    case ToolUse(_, _, _) => [("assistant", b)]
    case ToolResult(id, result, _) => [("user", ToolResult(id, ResultSurvivor(result), false))]
    case _ => []
  }

  function ResultSurvivor(result: ResultContent): ResultContent {
    match result
    case Plain(text) => Plain(text)
    case Blocks(blocks) => Blocks(InnerSurvivors(blocks))
    case NoResult => Plain("")
  }

  function InnerSurvivor(b: Block): seq<Block> {
    match b
    case Text(Some(_)) => [b]
    case Image(source) => if Reread(source).Some? then [Image(Reread(source).value)] else []
    case _ => []
  }

  function InnerSurvivors(blocks: seq<Block>): seq<Block> {
    if blocks == [] then []
    else
      var n := |blocks| - 1;
      InnerSurvivors(blocks[..n]) + InnerSurvivor(blocks[n])
  }

  function Survivors(turns: seq<Turn>): seq<Turn> {
    if turns == [] then []
    else
      var n := |turns| - 1;
      Survivors(turns[..n]) + Survivor(turns[n].0, turns[n].1)
  }

  // ---------- concatenation ----------

  lemma {:induction false} SurvivorsConcat(a: seq<Turn>, b: seq<Turn>)
    ensures Survivors(a + b) == Survivors(a) + Survivors(b)
  {
    if b == [] {
      assert a + b == a;
    } else {
      var n := |b| - 1;
      assert (a + b)[..|a + b| - 1] == a + b[..n];
      SurvivorsConcat(a, b[..n]);
      Associate(Survivors(a), Survivors(b[..n]), Survivor(b[n].0, b[n].1));
    }
  }

  lemma {:induction false} FlattenConcat(a: seq<Message>, b: seq<Message>)
    ensures Flatten(a + b) == Flatten(a) + Flatten(b)
  {
    if b == [] {
      assert a + b == a;
    } else {
      var n := |b| - 1;
      assert (a + b)[..|a + b| - 1] == a + b[..n];
      FlattenConcat(a, b[..n]);
      Associate(Flatten(a), Flatten(b[..n]), SaidIn(b[n]));
    }
  }

  lemma {:induction false} BackConcat(codec: Codec, a: seq<Item>, b: seq<Item>)
    ensures Back(codec, a + b) == Back(codec, a) + Back(codec, b)
  {
    if b == [] {
      assert a + b == a;
    } else {
      var n := |b| - 1;
      assert (a + b)[..|a + b| - 1] == a + b[..n];
      BackConcat(codec, a, b[..n]);
      Associate(Back(codec, a), Back(codec, b[..n]), BackItem(codec, b[n]));
    }
  }

  /** What a list of items says once it is history again. */
  function Heard(codec: Codec, items: seq<Item>): seq<Turn> {
    Flatten(Back(codec, items))
  }

  lemma HeardConcat(codec: Codec, a: seq<Item>, b: seq<Item>)
    ensures Heard(codec, a + b) == Heard(codec, a) + Heard(codec, b)
  {
    BackConcat(codec, a, b);
    FlattenConcat(Back(codec, a), Back(codec, b));
  }

  lemma HeardOne(codec: Codec, item: Item)
    ensures Back(codec, [item]) == BackItem(codec, item)
    ensures BackItem(codec, item) == [] ==> Heard(codec, [item]) == []
    ensures |BackItem(codec, item)| == 1 ==> Heard(codec, [item]) == SaidIn(BackItem(codec, item)[0])
  {
    hide BackItem;
    assert [item][..0] == [];
    assert [] + BackItem(codec, item) == BackItem(codec, item);
    if |BackItem(codec, item)| == 1 {
      var m := BackItem(codec, item)[0];
      assert BackItem(codec, item) == [m];
      FlattenOne(m);
    }
  }

  lemma FlattenOne(m: Message)
    ensures Flatten([m]) == SaidIn(m)
  {
    assert [m][..0] == [];
    assert [] + SaidIn(m) == SaidIn(m);
  }

  /** What a buffer of parts says when it is flushed. */
  function HeardParts(role: string, parts: seq<Part>): seq<Turn> {
    if HistoryRole(role).Some? then Said(HistoryRole(role).value, BlocksOf(parts)) else []
  }

  lemma HeardMessage(codec: Codec, role: string, parts: seq<Part>)
    ensures Heard(codec, [MessageItem(role, ItemParts(parts))]) == HeardParts(role, parts)
  {
    HeardOne(codec, MessageItem(role, ItemParts(parts)));
  }

  lemma HeardPartsAppend(role: string, parts: seq<Part>, p: Part)
    ensures HeardParts(role, parts + [p]) == HeardParts(role, parts) +
      (if HistoryRole(role).Some? && BlockOf(p).Some? then [(HistoryRole(role).value, BlockOf(p).value)] else [])
  {
    var all := parts + [p];
    assert all[..|all| - 1] == parts;
    if HistoryRole(role).Some? && BlockOf(p).Some? {
      var blocks := BlocksOf(parts) + [BlockOf(p).value];
      assert BlocksOf(all) == blocks && blocks[..|blocks| - 1] == BlocksOf(parts);
    } else {
      assert BlockOf(p).None? ==> BlocksOf(all) == BlocksOf(parts);
    }
  }

  lemma HeardFlush(codec: Codec, items: seq<Item>, buffer: seq<Part>, role: string)
    ensures Heard(codec, Flush(items, buffer, role)) == Heard(codec, items) + HeardParts(role, buffer)
  {
    if buffer != [] {
      HeardConcat(codec, items, [MessageItem(role, ItemParts(buffer))]);
      HeardMessage(codec, role, buffer);
    } else {
      assert HeardParts(role, buffer) == [];
    }
  }

  lemma BlocksOfAppend(parts: seq<Part>, p: Part)
    ensures BlocksOf(parts + [p]) == BlocksOf(parts) + (if BlockOf(p).Some? then [BlockOf(p).value] else [])
  {
    assert (parts + [p])[..|parts|] == parts;
  }

  lemma InnerStep(b: Block)
    ensures InnerSurvivor(b) ==
      if ResultPart(b).Some? && BlockOf(ResultPart(b).value).Some? then [BlockOf(ResultPart(b).value).value] else []
  {
  }

  lemma {:induction false} InnerRoundTrip(blocks: seq<Block>)
    ensures BlocksOf(ResultParts(blocks)) == InnerSurvivors(blocks)
  {
    if blocks != [] {
      hide BlockOf, ResultPart, InnerSurvivor, BlocksOf;
      var n := |blocks| - 1;
      InnerRoundTrip(blocks[..n]);
      InnerStep(blocks[n]);
      var before := ResultParts(blocks[..n]);
      if ResultPart(blocks[n]).Some? {
        BlocksOfAppend(before, ResultPart(blocks[n]).value);
      } else {
        assert before + [] == before;
      }
    }
  }

  lemma ToolItems(codec: Codec, role: string, b: Block)
    requires Inverse(codec)
    ensures b.ToolUse? ==> Heard(codec, [CallItem(codec, b.id, b.name, b.input)]) == Survivor(role, b)
    ensures b.ToolResult? ==> Heard(codec, [OutputItem(b.toolUseId, b.result)]) == Survivor(role, b)
  {
    if b.ToolUse? {
      HeardOne(codec, CallItem(codec, b.id, b.name, b.input));
      assert codec.parse(codec.write(b.input)) == Some(b.input);
      SaidOne("assistant", b);
    } else if b.ToolResult? {
      var item := OutputItem(b.toolUseId, b.result);
      HeardOne(codec, item);
      if b.result.Blocks? {
        InnerRoundTrip(b.result.blocks);
      }
      SaidOne("user", ToolResult(b.toolUseId, ResultSurvivor(b.result), false));
    }
  }

  lemma SaidOne(role: string, b: Block)
    ensures Said(role, [b]) == [(role, b)]
  {
    assert [b][..0] == [];
  }

  /** Across every flush, the blocks of one message come back in order. */
  lemma {:induction false} BlocksRoundTrip(codec: Codec, role: string, blocks: seq<Block>)
    requires Inverse(codec)
    ensures var (items, buffer) := FoldBlocks(codec, role, blocks);
      Heard(codec, items) + HeardParts(role, buffer) == Survivors(Said(role, blocks))
  {
    hide Heard, HeardParts, Survivor, Flush, BlocksOf, Inverse;
    if blocks == [] {
      EmptyHeard(codec, role);
    } else {
      var n := |blocks| - 1;
      var b := blocks[n];
      BlocksRoundTrip(codec, role, blocks[..n]);
      var (items, buffer) := FoldBlocks(codec, role, blocks[..n]);
      var said := Said(role, blocks[..n]);
      assert Said(role, blocks)[..|said|] == said;
      assert Survivors(Said(role, blocks)) == Survivors(said) + Survivor(role, b);
      EmptyHeard(codec, role);
      if b.ToolUse? || b.ToolResult? {
        var item := if b.ToolUse? then CallItem(codec, b.id, b.name, b.input) else OutputItem(b.toolUseId, b.result);
        HeardFlush(codec, items, buffer, role);
        HeardConcat(codec, Flush(items, buffer, role), [item]);
        ToolItems(codec, role, b);
      } else if PartOf(role, b).Some? {
        HeardPartsAppend(role, buffer, PartOf(role, b).value);
        PartSurvives(role, b);
        Associate(Heard(codec, items), HeardParts(role, buffer), Survivor(role, b));
      } else {
        PartSurvives(role, b);
      }
    }
  }

  lemma EmptyHeard(codec: Codec, role: string)
    ensures Heard(codec, []) == [] && HeardParts(role, []) == []
  {
  }

  lemma PartSurvives(role: string, b: Block)
    requires !b.ToolUse? && !b.ToolResult?
    ensures Survivor(role, b) ==
      match PartOf(role, b)
      case None => []
      case Some(p) =>
        if HistoryRole(role).Some? && BlockOf(p).Some? then [(HistoryRole(role).value, BlockOf(p).value)] else []
  {
  }

  lemma TextRoundTrip(codec: Codec, role: string, text: string)
    ensures Heard(codec, [MessageItem(role, ItemParts([TextPart(role, text)]))]) ==
      Survivors([(role, Text(Some(text)))])
  {
    var p := TextPart(role, text);
    assert BlockOf(p) == Some(Text(Some(text)));
    hide Heard, HeardParts, BlockOf, TextPart;
    HeardMessage(codec, role, [p]);
    EmptyHeard(codec, role);
    HeardPartsAppend(role, [], p);
    assert [] + [p] == [p];
    assert [(role, Text(Some(text)))][..0] == [];
  }

  lemma MessageRoundTrip(codec: Codec, m: Message)
    requires Inverse(codec)
    ensures Heard(codec, MessageItems(codec, m)) == Survivors(SaidIn(m))
  {
    hide Inverse, Heard, HeardParts, FoldBlocks, Flush, Survivors, Said;
    match m.content {
      case TextContent(text) => TextRoundTrip(codec, m.Role(), text);
      case BlockContent(blocks) =>
        var (items, buffer) := FoldBlocks(codec, m.Role(), blocks);
        BlocksRoundTrip(codec, m.Role(), blocks);
        HeardFlush(codec, items, buffer, m.Role());
      case NoContent => NothingSurvives(codec);
    }
  }

  lemma NothingSurvives(codec: Codec)
    ensures Heard(codec, []) == [] && Survivors([]) == []
  {
  }

  /** For every history: what comes back is, block by block and in order, what survives. */
  lemma {:induction false} HistoryRoundTrip(codec: Codec, messages: seq<Message>)
    requires Inverse(codec)
    ensures Flatten(Back(codec, Items(codec, messages))) == Survivors(Flatten(messages))
  {
    hide Inverse, MessageItems, SaidIn;
    if messages != [] {
      var n := |messages| - 1;
      HistoryRoundTrip(codec, messages[..n]);
      MessageRoundTrip(codec, messages[n]);
      HeardConcat(codec, Items(codec, messages[..n]), MessageItems(codec, messages[n]));
      SurvivorsConcat(Flatten(messages[..n]), SaidIn(messages[n]));
    }
  }

  // ---------- when nothing is lost ----------

  predicate CleanInner(b: Block) {
    match b
    case Text(text) => text.Some?
    case Image(source) => CleanSource(source)
    case _ => false
  }

  /** Nothing about this block of this role is lost. */
  predicate Clean(role: string, b: Block) {
    match b
    case Text(text) => text.Some? && (role == "user" || role == "assistant")
    case Image(source) => CleanSource(source) && (role == "user" || role == "assistant")
    case ToolUse(_, _, _) => role == "assistant"
    case ToolResult(_, result, isError) =>
      && role == "user" && !isError
      && (match result
          case Plain(_) => true
          case Blocks(blocks) => forall k :: 0 <= k < |blocks| ==> CleanInner(blocks[k])
          case NoResult => false)
    case _ => false
  }

  lemma InnerOne(b: Block)
    ensures |InnerSurvivor(b)| <= 1
    ensures InnerSurvivor(b) == [b] <==> CleanInner(b)
  {
    hide Reread, CleanSource;
    if b.Image? {
      ImageRoundTrip(b.source);
    }
  }

  lemma {:induction false} InnerSame(blocks: seq<Block>)
    ensures |InnerSurvivors(blocks)| <= |blocks|
    ensures InnerSurvivors(blocks) == blocks <==> forall k :: 0 <= k < |blocks| ==> CleanInner(blocks[k])
  {
    if blocks != [] {
      var n := |blocks| - 1;
      var b := blocks[n];
      hide InnerSurvivor, CleanInner, Reread;
      InnerSame(blocks[..n]);
      InnerOne(b);
      var s := InnerSurvivors(blocks[..n]);
      assert blocks == blocks[..n] + [b];
      if InnerSurvivors(blocks) == blocks {
        assert |InnerSurvivor(b)| == 1 && |s| == n;
        assert InnerSurvivors(blocks)[..n] == s && InnerSurvivors(blocks)[n] == InnerSurvivor(b)[0];
        assert s == blocks[..n];
      }
      if forall k :: 0 <= k < |blocks| ==> CleanInner(blocks[k]) {
        assert forall k :: 0 <= k < n ==> CleanInner(blocks[..n][k]);
      }
    }
  }

  lemma SurvivesIffClean(role: string, b: Block)
    ensures |Survivor(role, b)| <= 1
    ensures Survivor(role, b) == [(role, b)] <==> Clean(role, b)
  {
    match b {
      case Image(source) => ImageRoundTrip(source);
      case ToolResult(_, Blocks(blocks), _) => InnerSame(blocks);
      case _ =>
    }
  }

  lemma {:induction false} SurvivorsSame(turns: seq<Turn>)
    ensures |Survivors(turns)| <= |turns|
    ensures Survivors(turns) == turns <==> forall k :: 0 <= k < |turns| ==> Clean(turns[k].0, turns[k].1)
  {
    hide Survivor, Clean;
    if turns != [] {
      var n := |turns| - 1;
      var (role, b) := turns[n];
      SurvivorsSame(turns[..n]);
      SurvivesIffClean(role, b);
      var s := Survivors(turns[..n]);
      assert turns == turns[..n] + [(role, b)];
      if Survivors(turns) == turns {
        assert |Survivor(role, b)| == 1 && |s| == n;
        assert Survivors(turns)[..n] == s && Survivors(turns)[n] == Survivor(role, b)[0];
        assert s == turns[..n];
        assert Survivor(role, b) == [(role, b)];
      }
      if forall k :: 0 <= k < |turns| ==> Clean(turns[k].0, turns[k].1) {
        assert forall k :: 0 <= k < n ==> Clean(turns[..n][k].0, turns[..n][k].1);
        assert Clean(turns[n].0, turns[n].1);
      }
    }
  }

  /** A history comes back saying the same exactly when every block in it is clean. */
  lemma SameHistoryIffClean(codec: Codec, messages: seq<Message>)
    requires Inverse(codec)
    ensures var turns := Flatten(messages);
      Flatten(Back(codec, Items(codec, messages))) == turns
      <==> forall k :: 0 <= k < |turns| ==> Clean(turns[k].0, turns[k].1)
  {
    HistoryRoundTrip(codec, messages);
    SurvivorsSame(Flatten(messages));
  }
}
