/** What every Responses stream coming out of the reverse translator obeys. */
module ReverseDiscipline {
  import opened Common
  import opened Wire
  import opened ReverseStream
  import E = StreamEcho
  import Scan

  // ---------- numbering ----------

  /** Events are numbered without gaps, for every incoming stream. */
  lemma {:induction false} NumberedRun(st: State, es: seq<AEvent>, draws: seq<string>)
    requires |draws| == |es|
    ensures var (st1, out) := Run(st, es, draws);
      && st1.seqno == st.seqno + |out|
      && forall k :: 0 <= k < |out| ==> out[k].sequence == st.seqno + k
    decreases |es|
  {
    if es != [] {
      hide Bodies;
      NumberedRun(Step(st, es[0], draws[0]).0, es[1..], draws[1..]);
    }
  }

  lemma NumberedStep(st: State, e: AEvent, draw: string)
    ensures var (st1, out) := Step(st, e, draw);
      st1.seqno == st.seqno + |out| && forall k :: 0 <= k < |out| ==> out[k].sequence == st.seqno + k
  {
    hide Bodies;
  }

  // ---------- reading the outgoing stream ----------

  function AddedBy(b: RBody): seq<string> {
    if b.ItemAdded? then [b.item.id] else []
  }

  /** The ids of the items added, in order. */
  function AddedIds(out: seq<REvent>): seq<string> {
    if out == [] then [] else AddedIds(out[..|out| - 1]) + AddedBy(out[|out| - 1].body)
  }

  function DeltaBy(b: RBody, id: string): string {
    if IsDelta(b) && b.target == Some(id) then b.delta else ""
  }

  /** All the delta text that names the item, put together. */
  function DeltaText(out: seq<REvent>, id: string): string {
    if out == [] then "" else DeltaText(out[..|out| - 1], id) + DeltaBy(out[|out| - 1].body, id)
  }

  ghost predicate ReportedDone(out: seq<REvent>, item: RItem) {
    exists k :: 0 <= k < |out| && out[k].body.ItemDone? && out[k].body.item == item
  }

  function TextOf(item: RItem): string {
    match item
    case MessageItem(_, _, text) => text.GetOr("")
    case FunctionCallItem(_, _, _, _, arguments) => arguments
    case ReasoningItem(_, _, summary) => summary.GetOr("")
    case OtherItem(_) => ""
  }

  lemma {:induction false} AddedConcat(a: seq<REvent>, b: seq<REvent>)
    ensures AddedIds(a + b) == AddedIds(a) + AddedIds(b)
  {
    if b == [] {
      assert a + b == a;
    } else {
      var n := |b| - 1;
      assert (a + b)[..|a + b| - 1] == a + b[..n];
      AddedConcat(a, b[..n]);
      Associate(AddedIds(a), AddedIds(b[..n]), AddedBy(b[n].body));
    }
  }

  lemma {:induction false} DeltaConcat(a: seq<REvent>, b: seq<REvent>, id: string)
    ensures DeltaText(a + b, id) == DeltaText(a, id) + DeltaText(b, id)
  {
    if b == [] {
      assert a + b == a;
    } else {
      var n := |b| - 1;
      assert (a + b)[..|a + b| - 1] == a + b[..n];
      DeltaConcat(a, b[..n], id);
      Associate(DeltaText(a, id), DeltaText(b[..n], id), DeltaBy(b[n].body, id));
    }
  }

  lemma DoneConcat(a: seq<REvent>, b: seq<REvent>, item: RItem)
    ensures ReportedDone(a + b, item) <==> ReportedDone(a, item) || ReportedDone(b, item)
  {
    var c := a + b;
    if ReportedDone(c, item) {
      var k :| 0 <= k < |c| && c[k].body.ItemDone? && c[k].body.item == item;
      if k >= |a| {
        assert b[k - |a|] == c[k];
      }
    }
    if ReportedDone(b, item) {
      var k :| 0 <= k < |b| && b[k].body.ItemDone? && b[k].body.item == item;
      assert c[|a| + k] == b[k];
    }
    if ReportedDone(a, item) {
      var k :| 0 <= k < |a| && a[k].body.ItemDone? && a[k].body.item == item;
      assert c[k] == a[k];
    }
  }

  /** Events that add no item and carry no delta contribute to neither reading. */
  lemma {:induction false} Mute(out: seq<REvent>, id: string)
    requires forall k :: 0 <= k < |out| ==> !out[k].body.ItemAdded? && !IsDelta(out[k].body)
    ensures AddedIds(out) == [] && DeltaText(out, id) == ""
  {
    if out != [] {
      Mute(out[..|out| - 1], id);
    }
  }

  lemma FirstSpeaks(out: seq<REvent>, id: string)
    requires out != [] && forall k :: 1 <= k < |out| ==> !out[k].body.ItemAdded? && !IsDelta(out[k].body)
    ensures AddedIds(out) == AddedBy(out[0].body) && DeltaText(out, id) == DeltaBy(out[0].body, id)
  {
    var head := out[..1];
    assert out == head + out[1..] && head[..0] == [];
    AddedConcat(head, out[1..]);
    DeltaConcat(head, out[1..], id);
    Mute(out[1..], id);
  }

  /** What one step contributes to each reading. */
  lemma StepReadings(st: State, e: AEvent, draw: string, id: string)
    ensures var out := Step(st, e, draw).1;
      && AddedIds(out) == (if Opening(e).Some? then [NewBlock(e.block, draw).value.itemId] else [])
      && DeltaText(out, id) ==
           (if Extending(st, e).Some? && st.blocks[Extending(st, e).value].itemId == id then e.delta.text else "")
  {
    hide AddedIds, DeltaText, SynthId, CompletedItem;
    var out := Step(st, e, draw).1;
    if out == [] || (Opening(e).None? && Extending(st, e).None?) {
      Mute(out, id);
    } else {
      FirstSpeaks(out, id);
    }
  }

  lemma StepDone(st: State, e: AEvent, draw: string, item: RItem)
    ensures ReportedDone(Step(st, e, draw).1, item) <==>
      Closing(st, e).Some? && item == CompletedItem(st.blocks[Closing(st, e).value])
  {
    var out := Step(st, e, draw).1;
    if Closing(st, e).Some? {
      var b := st.blocks[Closing(st, e).value];
      assert out[|out| - 1].body == ItemDone(e.index.value, CompletedItem(b));
    }
  }

  function Opening(e: AEvent): (r: Option<nat>)
    ensures r.Some? ==> e.BlockStart? && !e.block.OtherBlock?
  {
    if e.BlockStart? && !e.block.OtherBlock? then e.index else None
  }

  function Extending(st: State, e: AEvent): (r: Option<nat>)
    ensures r.Some? ==> r.value in st.blocks && e.BlockDelta? && !e.delta.OtherDelta?
  {
    if e.BlockDelta? && !e.delta.OtherDelta? && e.index.Some? && e.index.value in st.blocks then e.index else None
  }

  function Closing(st: State, e: AEvent): (r: Option<nat>)
    ensures r.Some? ==> r.value in st.blocks
  {
    if e.BlockStop? && e.index.Some? && e.index.value in st.blocks then e.index else None
  }

  lemma StepBlocks(st: State, e: AEvent, draw: string)
    ensures var st1 := Step(st, e, draw).0;
      match Opening(e)
      case Some(i) => st1.blocks == st.blocks[i := NewBlock(e.block, draw).value] && st1.order == st.order + [i]
      case None =>
        && st1.order == st.order
        && st1.blocks == match Extending(st, e)
           case Some(i) => st.blocks[i := st.blocks[i].(buffer := st.blocks[i].buffer + e.delta.text)]
           case None => st.blocks
  {
  }

  // ---------- every listed item carries the deltas that were sent for it ----------

  ghost predicate Faithful(st: State, past: seq<REvent>, used: set<string>) {
    && (forall i :: i in st.blocks ==>
          && E.Minted(st.blocks[i].itemId, used)
          && st.blocks[i].buffer == DeltaText(past, st.blocks[i].itemId))
    && (forall i, j :: i in st.blocks && j in st.blocks && i != j ==> st.blocks[i].itemId != st.blocks[j].itemId)
    && (forall id :: !E.Minted(id, used) ==> DeltaText(past, id) == "")
    && (forall i :: i in st.blocks <==> i in st.order)
  }

  lemma MintedMore(used: set<string>, draw: string)
    ensures forall id :: E.Minted(id, used) ==> E.Minted(id, used + {draw})
  {
    forall id | E.Minted(id, used) ensures E.Minted(id, used + {draw}) {
      var d :| d in used && E.IsId(id, d);
      assert d in used + {draw};
    }
  }

  lemma NewIsMinted(block: ABlock, draw: string, used: set<string>)
    requires !block.OtherBlock? && draw !in used
    ensures var id := NewBlock(block, draw).value.itemId;
      !E.Minted(id, used) && E.Minted(id, used + {draw})
  {
    var id := NewBlock(block, draw).value.itemId;
    assert E.IsId(id, draw) && draw in used + {draw};
    E.FreshId(id, draw, used);
  }

  lemma StepFaithful(st: State, past: seq<REvent>, used: set<string>, e: AEvent, draw: string)
    requires Faithful(st, past, used) && draw !in used
    ensures var (st1, out) := Step(st, e, draw);
      Faithful(st1, past + out, used + {draw})
  {
    hide Step, DeltaText, NewBlock, E.Minted;
    var (st1, out) := Step(st, e, draw);
    StepBlocks(st, e, draw);
    MintedMore(used, draw);
    if Opening(e).Some? {
      NewIsMinted(e.block, draw, used);
      FreshBuffer(e.block, draw);
    }
    forall id ensures DeltaText(past + out, id) == DeltaText(past, id) +
        (if Extending(st, e).Some? && st.blocks[Extending(st, e).value].itemId == id then e.delta.text else "")
    {
      DeltaConcat(past, out, id);
      StepReadings(st, e, draw, id);
    }
  }

  lemma FreshBuffer(block: ABlock, draw: string)
    requires !block.OtherBlock?
    ensures NewBlock(block, draw).Some? && NewBlock(block, draw).value.buffer == ""
  {
  }

  function UsedUp(used: set<string>, draws: seq<string>): set<string> {
    used + set d | d in draws
  }

  lemma UsedUpTail(used: set<string>, draws: seq<string>)
    ensures draws == [] ==> UsedUp(used, draws) == used
    ensures draws != [] ==> UsedUp(used, draws) == UsedUp(used + {draws[0]}, draws[1..])
  {
    if draws != [] {
      assert draws == [draws[0]] + draws[1..];
    }
  }

  lemma {:induction false} RunFaithful(st: State, past: seq<REvent>, used: set<string>, es: seq<AEvent>,
                                       draws: seq<string>)
    requires Faithful(st, past, used) && |draws| == |es| && E.AllNew(draws, used)
    ensures var (st1, out) := Run(st, es, draws);
      Faithful(st1, past + out, UsedUp(used, draws))
    decreases |es|
  {
    hide Step, Faithful;
    if es == [] {
      assert past + [] == past;
      UsedUpTail(used, draws);
    } else {
      UsedUpTail(used, draws);
      StepFaithful(st, past, used, es[0], draws[0]);
      var (st1, out) := Step(st, es[0], draws[0]);
      RunFaithful(st1, past + out, used + {draws[0]}, es[1..], draws[1..]);
      var rest := Run(st1, es[1..], draws[1..]).1;
      assert past + (out + rest) == (past + out) + rest;
      assert Run(st, es, draws) == (Run(st1, es[1..], draws[1..]).0, out + rest);
    }
  }

  lemma {:induction false} OutputAt(blocks: map<nat, Open>, order: seq<nat>)
    requires forall k :: 0 <= k < |order| ==> order[k] in blocks
    ensures |Output(blocks, order)| == |order|
    ensures forall k :: 0 <= k < |order| ==> Output(blocks, order)[k] == CompletedItem(blocks[order[k]])
    decreases |order|
  {
    if order != [] {
      OutputAt(blocks, order[1..]);
    }
  }

  lemma BlocksCarryDeltas(es: seq<AEvent>, draws: seq<string>)
    requires |draws| == |es| && E.AllNew(draws, {})
    ensures var (st, out) := Run(FRESH, es, draws);
      forall k :: 0 <= k < |Output(st.blocks, st.order)| ==>
        var item := Output(st.blocks, st.order)[k];
        TextOf(item) == DeltaText(out, item.id)
  {
    RunFaithful(FRESH, [], {}, es, draws);
    var (st, out) := Run(FRESH, es, draws);
    assert [] + out == out;
    FaithfulMeans(st, out, UsedUp({}, draws));
  }

  lemma FaithfulMeans(st: State, out: seq<REvent>, used: set<string>)
    requires Faithful(st, out, used)
    ensures forall k :: 0 <= k < |Output(st.blocks, st.order)| ==>
      TextOf(Output(st.blocks, st.order)[k]) == DeltaText(out, Output(st.blocks, st.order)[k].id)
  {
    hide DeltaText, E.Minted, Output;
    OutputAt(st.blocks, st.order);
  }

  // ---------- the order of the listed items ----------

  /** The indices under which blocks of known types start, in order. */
  function StartedIndices(es: seq<AEvent>): seq<nat> {
    if es == [] then []
    else (if Opening(es[0]).Some? then [Opening(es[0]).value] else []) + StartedIndices(es[1..])
  }

  predicate Distinct<T(==)>(s: seq<T>) {
    forall j, k :: 0 <= j < k < |s| ==> s[j] != s[k]
  }

  /** The last start of an index decides which item it stands for. */
  ghost predicate Listed(st: State, added: seq<string>, used: set<string>) {
    && |st.order| == |added|
    && (forall k :: 0 <= k < |added| ==> st.order[k] in st.blocks && E.Minted(added[k], used))
    && (forall k :: 0 <= k < |added| && (forall j :: k < j < |added| ==> st.order[j] != st.order[k])
          ==> st.blocks[st.order[k]].itemId == added[k])
    && Distinct(added)
  }

  lemma StepListed(st: State, past: seq<REvent>, used: set<string>, e: AEvent, draw: string)
    requires Listed(st, AddedIds(past), used) && draw !in used
    ensures var (st1, out) := Step(st, e, draw);
      && Listed(st1, AddedIds(past + out), used + {draw})
      && st1.order == st.order + (if Opening(e).Some? then [Opening(e).value] else [])
  {
    hide Step, AddedIds, NewBlock, E.Minted;
    var (st1, out) := Step(st, e, draw);
    StepBlocks(st, e, draw);
    MintedMore(used, draw);
    AddedConcat(past, out);
    StepReadings(st, e, draw, "");
    if Opening(e).Some? {
      NewIsMinted(e.block, draw, used);
      FreshBuffer(e.block, draw);
      ListedOpen(st, AddedIds(past), used, Opening(e).value, NewBlock(e.block, draw).value, st1, used + {draw});
    }
  }

  lemma ListedOpen(st: State, added: seq<string>, used: set<string>, i: nat, b: Open, st1: State, used1: set<string>)
    requires Listed(st, added, used) && !E.Minted(b.itemId, used) && E.Minted(b.itemId, used1)
    requires forall id :: E.Minted(id, used) ==> E.Minted(id, used1)
    requires st1.blocks == st.blocks[i := b] && st1.order == st.order + [i]
    ensures Listed(st1, added + [b.itemId], used1)
  {
    hide E.Minted;
    var added1 := added + [b.itemId];
    var n := |added|;
    forall k | 0 <= k < |added1| && (forall j :: k < j < |added1| ==> st1.order[j] != st1.order[k])
      ensures st1.blocks[st1.order[k]].itemId == added1[k]
    {
      if k < n {
        assert st1.order[n] != st1.order[k];
        forall j | k < j < n ensures st.order[j] != st.order[k] {
          assert st1.order[j] != st1.order[k];
        }
      }
    }
  }

  lemma {:induction false} RunListed(st: State, past: seq<REvent>, used: set<string>, es: seq<AEvent>,
                                     draws: seq<string>)
    requires Listed(st, AddedIds(past), used) && |draws| == |es| && E.AllNew(draws, used)
    ensures var (st1, out) := Run(st, es, draws);
      && st1.order == st.order + StartedIndices(es)
      && Listed(st1, AddedIds(past + out), UsedUp(used, draws))
    decreases |es|
  {
    hide Step, Listed, AddedIds, UsedUp;
    UsedUpTail(used, draws);
    if es == [] {
      assert past + [] == past;
    } else {
      StepListed(st, past, used, es[0], draws[0]);
      var (st1, out) := Step(st, es[0], draws[0]);
      RunListed(st1, past + out, used + {draws[0]}, es[1..], draws[1..]);
      var rest := Run(st1, es[1..], draws[1..]).1;
      Associate(past, out, rest);
      Associate(st.order, if Opening(es[0]).Some? then [Opening(es[0]).value] else [], StartedIndices(es[1..]));
    }
  }

  function Ids(items: seq<RItem>): (r: seq<string>)
    ensures |r| == |items| && forall k :: 0 <= k < |r| ==> r[k] == items[k].id
  {
    seq(|items|, k requires 0 <= k < |items| => items[k].id)
  }

  lemma LastOccurrence(s: seq<nat>, k: nat) returns (j: nat)
    requires k < |s|
    ensures k <= j < |s| && s[j] == s[k] && forall l :: j < l < |s| ==> s[l] != s[j]
    decreases |s| - k
  {
    if l :| k < l < |s| && s[l] == s[k] {
      j := LastOccurrence(s, l);
    } else {
      j := k;
    }
  }

  lemma BlocksAreAddedItems(es: seq<AEvent>, draws: seq<string>)
    requires |draws| == |es| && E.AllNew(draws, {})
    ensures var (st, out) := Run(FRESH, es, draws);
      Ids(Output(st.blocks, st.order)) == AddedIds(out) <==> Distinct(StartedIndices(es))
  {
    assert AddedIds([]) == [];
    RunListed(FRESH, [], {}, es, draws);
    hide Listed, AddedIds;
    var (st, out) := Run(FRESH, es, draws);
    assert [] + out == out && [] + StartedIndices(es) == StartedIndices(es);
    ListedMeans(st, AddedIds(out), UsedUp({}, draws));
  }

  lemma ListedMeans(st: State, added: seq<string>, used: set<string>)
    requires Listed(st, added, used)
    ensures Ids(Output(st.blocks, st.order)) == added <==> Distinct(st.order)
  {
    hide Output, E.Minted;
    OutputAt(st.blocks, st.order);
    var ids := Ids(Output(st.blocks, st.order));
    assert forall k :: 0 <= k < |ids| ==> ids[k] == st.blocks[st.order[k]].itemId;
    if Distinct(st.order) {
      assert ids == added;
    } else {
      var k, l :| 0 <= k < l < |st.order| && st.order[k] == st.order[l];
      var j := LastOccurrence(st.order, l);
      assert ids[k] == added[j] && added[j] != added[k];
    }
  }

  // ---------- done events and the terminal output ----------

  /** The indices that stand for a block. */
  function Live(e: AEvent, live: set<nat>): set<nat> {
    if Opening(e).Some? then live + {Opening(e).value} else live
  }

  /** The indices whose block has been reported done. */
  function Done(e: AEvent, live: set<nat>, done: set<nat>): set<nat> {
    if e.BlockStop? && e.index.Some? && e.index.value in live then done + {e.index.value} else done
  }

  predicate Disturbs(e: AEvent, done: set<nat>) {
    || (Opening(e).Some? && Opening(e).value in done)
    || (e.BlockDelta? && !e.delta.OtherDelta? && e.delta.text != "" && e.index.Some? && e.index.value in done)
  }

  /** Once reported done, an index neither starts anew nor receives further text. */
  predicate Settled(es: seq<AEvent>, live: set<nat>, done: set<nat>) {
    es != [] ==> !Disturbs(es[0], done) && Settled(es[1..], Live(es[0], live), Done(es[0], live, done))
  }

  /** The items reported done are those of the blocks under `done`, as they are now. */
  ghost predicate AsReported(st: State, past: seq<REvent>, live: set<nat>, done: set<nat>) {
    && st.blocks.Keys == live && done <= live
    && (forall i :: i in done ==> ReportedDone(past, CompletedItem(st.blocks[i])))
    && (forall item :: ReportedDone(past, item) ==> exists i :: i in done && item == CompletedItem(st.blocks[i]))
  }

  /** An item that no block stands for any more, and none ever will. */
  ghost predicate Lost(st: State, item: RItem, used: set<string>) {
    && E.Minted(item.id, used)
    && forall i :: i in st.blocks && st.blocks[i].itemId == item.id ==> |st.blocks[i].buffer| > |TextOf(item)|
  }

  /** Every item reported done is listed as it was reported. */
  ghost predicate AllListed(st: State, out: seq<REvent>) {
    forall item :: ReportedDone(out, item) ==> item in Output(st.blocks, st.order)
  }

  lemma StepLost(st: State, e: AEvent, draw: string, item: RItem, used: set<string>)
    requires Lost(st, item, used) && draw !in used
    ensures Lost(Step(st, e, draw).0, item, used + {draw})
  {
    hide Step, E.Minted, NewBlock;
    StepBlocks(st, e, draw);
    MintedMore(used, draw);
    if Opening(e).Some? {
      NewIsMinted(e.block, draw, used);
    }
  }

  lemma {:induction false} RunLost(st: State, es: seq<AEvent>, draws: seq<string>, item: RItem, used: set<string>)
    requires Lost(st, item, used) && |draws| == |es| && E.AllNew(draws, used)
    ensures Lost(Run(st, es, draws).0, item, UsedUp(used, draws))
    decreases |es|
  {
    hide Step, Lost;
    UsedUpTail(used, draws);
    if es != [] {
      StepLost(st, es[0], draws[0], item, used);
      RunLost(Step(st, es[0], draws[0]).0, es[1..], draws[1..], item, used + {draws[0]});
    }
  }

  lemma LostIsNotListed(st: State, item: RItem, used: set<string>)
    requires Lost(st, item, used) && forall k :: 0 <= k < |st.order| ==> st.order[k] in st.blocks
    ensures item !in Output(st.blocks, st.order)
  {
    OutputAt(st.blocks, st.order);
  }

  lemma StepReported(st: State, past: seq<REvent>, live: set<nat>, done: set<nat>, e: AEvent, draw: string)
    requires AsReported(st, past, live, done) && !Disturbs(e, done)
    ensures var (st1, out) := Step(st, e, draw);
      AsReported(st1, past + out, Live(e, live), Done(e, live, done))
  {
    hide Step, ReportedDone, NewBlock;
    var (st1, out) := Step(st, e, draw);
    StepBlocks(st, e, draw);
    forall i | i in done ensures st1.blocks[i] == st.blocks[i] {
      EmptyDelta(st.blocks[i].buffer);
    }
    forall item ensures ReportedDone(past + out, item) <==>
        ReportedDone(past, item) || (Closing(st, e).Some? && item == CompletedItem(st.blocks[Closing(st, e).value]))
    {
      DoneConcat(past, out, item);
      StepDone(st, e, draw, item);
    }
  }

  lemma EmptyDelta(buffer: string)
    ensures buffer + "" == buffer
  {
  }

  lemma Disturbed(st: State, past: seq<REvent>, live: set<nat>, done: set<nat>, used: set<string>, e: AEvent,
                  draw: string)
      returns (item: RItem)
    requires AsReported(st, past, live, done) && Faithful(st, past, used) && draw !in used && Disturbs(e, done)
    ensures ReportedDone(past, item) && Lost(Step(st, e, draw).0, item, used + {draw})
  {
    hide Step, ReportedDone, NewBlock, E.Minted, DeltaText;
    StepBlocks(st, e, draw);
    MintedMore(used, draw);
    if Opening(e).Some? {
      NewIsMinted(e.block, draw, used);
    }
    item := CompletedItem(st.blocks[e.index.value]);
  }

  lemma {:induction false} RunReported(st: State, past: seq<REvent>, live: set<nat>, done: set<nat>, used: set<string>,
                                       es: seq<AEvent>, draws: seq<string>)
    requires AsReported(st, past, live, done) && Faithful(st, past, used)
    requires |draws| == |es| && E.AllNew(draws, used)
    ensures var (st1, out) := Run(st, es, draws);
      AllListed(st1, past + out) <==> Settled(es, live, done)
    decreases |es|
  {
    hide Step, AsReported, Faithful, ReportedDone, Lost, Disturbs, Live, Done, Output;
    var (st1, out) := Run(st, es, draws);
    if es == [] {
      assert past + [] == past;
      AllReportedListed(st, past, live, done, used);
    } else {
      var (st2, out2) := Step(st, es[0], draws[0]);
      var rest := Run(st2, es[1..], draws[1..]).1;
      assert (st1, out) == (Run(st2, es[1..], draws[1..]).0, out2 + rest);
      assert past + out == (past + out2) + rest;
      StepFaithful(st, past, used, es[0], draws[0]);
      if Disturbs(es[0], done) {
        var item := Disturbed(st, past, live, done, used, es[0], draws[0]);
        RunLost(st2, es[1..], draws[1..], item, used + {draws[0]});
        DoneConcat(past, out, item);
        RunFaithful(st, past, used, es, draws);
        UsedUpTail(used, draws);
        OrderIsLive(st1, past + out, UsedUp(used, draws));
        LostIsNotListed(st1, item, UsedUp(used, draws));
      } else {
        StepReported(st, past, live, done, es[0], draws[0]);
        assert Settled(es, live, done) <==> Settled(es[1..], Live(es[0], live), Done(es[0], live, done));
        RunReported(st2, past + out2, Live(es[0], live), Done(es[0], live, done), used + {draws[0]},
                    es[1..], draws[1..]);
      }
    }
  }

  lemma OrderIsLive(st: State, past: seq<REvent>, used: set<string>)
    requires Faithful(st, past, used)
    ensures forall k :: 0 <= k < |st.order| ==> st.order[k] in st.blocks
  {
  }

  lemma AllReportedListed(st: State, past: seq<REvent>, live: set<nat>, done: set<nat>, used: set<string>)
    requires AsReported(st, past, live, done) && Faithful(st, past, used)
    ensures AllListed(st, past)
  {
    hide ReportedDone;
    OutputAt(st.blocks, st.order);
    forall item | ReportedDone(past, item) ensures item in Output(st.blocks, st.order) {
      var i :| i in done && item == CompletedItem(st.blocks[i]);
      var k :| 0 <= k < |st.order| && st.order[k] == i;
      assert Output(st.blocks, st.order)[k] == item;
    }
  }

  lemma BlocksAreDoneItems(es: seq<AEvent>, draws: seq<string>)
    requires |draws| == |es| && E.AllNew(draws, {})
    ensures var (st, out) := Run(FRESH, es, draws);
      AllListed(st, out) <==> Settled(es, {}, {})
  {
    hide Step, Settled;
    RunReported(FRESH, [], {}, {}, {}, es, draws);
    assert [] + Run(FRESH, es, draws).1 == Run(FRESH, es, draws).1;
  }

  // ---------- the terminal event ----------

  /** The stream ends with a message stop. */
  predicate Ends(es: seq<AEvent>) {
    es != [] && es[|es| - 1].MessageStop?
  }

  predicate IsTerminal(b: RBody) {
    b.Completed? || b.Incomplete?
  }

  /** What the last event of an outgoing stream lists, if it is terminal. */
  function FinalOutput(out: seq<REvent>): seq<RItem> {
    if out != [] && IsTerminal(out[|out| - 1].body) then out[|out| - 1].body.response.output else []
  }

  /** A stream that ends comes out with a terminal event last, made from the final state. */
  lemma {:induction false} EndsInTerminal(st: State, es: seq<AEvent>, draws: seq<string>)
    requires |draws| == |es| && Ends(es)
    ensures var (st1, out) := Run(st, es, draws);
      && out != [] && out[|out| - 1].body == Terminal(st1) && IsTerminal(Terminal(st1))
      && FinalOutput(out) == Output(st1.blocks, st1.order)
    decreases |es|
  {
    hide Output, MapUsage;
    if |es| == 1 {
      assert es[1..] == [] && Run(Step(st, es[0], draws[0]).0, es[1..], draws[1..]).1 == [];
    } else {
      hide Step;
      EndsInTerminal(Step(st, es[0], draws[0]).0, es[1..], draws[1..]);
    }
  }

  /** Merging keeps, under every key, what was given last. */
  lemma MergeRecalls(usage: Option<map<string, Json>>, es: seq<AEvent>, e: AEvent)
    requires Scan.UsageRecalls(usage, es)
    ensures Scan.UsageRecalls(MergeUsage(usage, Scan.GivenUsage(e)), es + [e])
  {
    var merged := MergeUsage(usage, Scan.GivenUsage(e));
    Scan.GivesUsageAppend(es, e);
    forall key | merged.Some? ensures Get(merged.value, key) == Scan.LastUnder(es + [e], key) {
      assert (es + [e])[..|es|] == es;
      if usage.None? {
        Scan.NothingUnder(es, key);
      }
    }
  }

  /** The counts that a translator reports are the last ones given. */
  lemma RecalledCount(usage: map<string, Json>, es: seq<AEvent>, key: string)
    requires Scan.UsageRecalls(Some(usage), es)
    ensures IntOr0(usage, key) == Scan.LastCount(es, key)
  {
    assert Get(usage, key) == Scan.LastUnder(es, key);
  }

  lemma RecalledUsage(usage: map<string, Json>, es: seq<AEvent>)
    requires Scan.UsageRecalls(Some(usage), es)
    ensures MapUsage(usage) == Scan.CountedUsage(es)
  {
    hide IntOr0, Scan.LastCount;
    RecalledCount(usage, es, "input_tokens");
    RecalledCount(usage, es, "output_tokens");
    RecalledCount(usage, es, "cache_read_input_tokens");
    RecalledCount(usage, es, "thinking_tokens");
  }

  /** The response announced last. */
  function LastCreated(out: seq<REvent>): Option<RResponse> {
    if out == [] then None
    else if out[|out| - 1].body.Created? then Some(out[|out| - 1].body.response)
    else LastCreated(out[..|out| - 1])
  }

  lemma {:induction false} CreatedConcat(a: seq<REvent>, b: seq<REvent>)
    ensures LastCreated(a + b) == if LastCreated(b).Some? then LastCreated(b) else LastCreated(a)
  {
    if b == [] {
      assert a + b == a;
    } else {
      var n := |b| - 1;
      assert (a + b)[..|a + b| - 1] == a + b[..n];
      CreatedConcat(a, b[..n]);
    }
  }

  lemma {:induction false} NoneCreated(out: seq<REvent>)
    requires forall k :: 0 <= k < |out| ==> !out[k].body.Created?
    ensures LastCreated(out).None?
  {
    if out != [] {
      NoneCreated(out[..|out| - 1]);
    }
  }

  /** What the translator remembers is what was said last. */
  ghost predicate Remembers(st: State, es: seq<AEvent>, out: seq<REvent>) {
    && st.stopReason == Scan.LastStop(es) && Scan.UsageRecalls(st.usage, es)
    && match LastCreated(out)
       case None => st.responseId.None? && st.model.None?
       case Some(r) => st.responseId == Some(r.id) && st.model == Some(r.model)
  }

  lemma CreatedByStep(st: State, e: AEvent, draw: string)
    ensures var (st1, out) := Step(st, e, draw);
      match LastCreated(out)
      case None => st1.responseId == st.responseId && st1.model == st.model
      case Some(r) => st1.responseId == Some(r.id) && st1.model == Some(r.model)
  {
    var (st1, out) := Step(st, e, draw);
    hide SynthId, Terminal, CompletedItem, StartedItem;
    if e.MessageStart? {
      assert out == out[..1] + out[1..] && out[..1][..0] == [];
      CreatedConcat(out[..1], out[1..]);
      NoneCreated(out[1..]);
    } else {
      TerminalIsLast(st);
      NoneCreated(out);
    }
  }

  lemma TerminalIsLast(st: State)
    ensures IsTerminal(Terminal(st))
  {
  }

  lemma StepRemembers(st: State, es: seq<AEvent>, out: seq<REvent>, e: AEvent, draw: string)
    requires Remembers(st, es, out)
    ensures var (st1, more) := Step(st, e, draw);
      Remembers(st1, es + [e], out + more)
  {
    var (st1, more) := Step(st, e, draw);
    assert (es + [e])[..|es|] == es;
    assert st1.stopReason == Scan.LastStop(es + [e]) && st1.usage == MergeUsage(st.usage, Scan.GivenUsage(e)) by {
      hide Terminal, StartBodies, StopBodies, DeltaBody, NewBlock, SynthId, MergeUsage;
    }
    hide LastCreated, MergeUsage, Step, Scan.UsageRecalls, Scan.LastStop;
    MergeRecalls(st.usage, es, e);
    CreatedByStep(st, e, draw);
    CreatedConcat(out, more);
  }

  lemma {:induction false} RunRemembers(st: State, past: seq<AEvent>, sent: seq<REvent>, es: seq<AEvent>,
                                        draws: seq<string>)
    requires Remembers(st, past, sent) && |draws| == |es|
    ensures var (st1, out) := Run(st, es, draws);
      Remembers(st1, past + es, sent + out)
    decreases |es|
  {
    hide Step, Remembers;
    if es == [] {
      assert past + [] == past && sent + [] == sent;
    } else {
      StepRemembers(st, past, sent, es[0], draws[0]);
      var (st1, out) := Step(st, es[0], draws[0]);
      RunRemembers(st1, past + [es[0]], sent + out, es[1..], draws[1..]);
      assert past + [es[0]] + es[1..] == past + es;
      Associate(sent, out, Run(st1, es[1..], draws[1..]).1);
    }
  }

  /**
   The terminal event of a stream: incomplete exactly if max_tokens was the last stop reason given, with the
   id and the model that were announced last, and all the usage given on the way.
   */
  lemma TerminalEvent(es: seq<AEvent>, draws: seq<string>)
    requires |draws| == |es| && Ends(es)
    ensures var out := Run(FRESH, es, draws).1;
      && out != []
      && var b := out[|out| - 1].body;
      && IsTerminal(b)
      && (b.Incomplete? <==> Scan.LastStop(es) == Some("max_tokens"))
      && b.response.status == Some(if b.Incomplete? then "incomplete" else "completed")
      && b.response.incompleteReason == (if b.Incomplete? then Some("max_output_tokens") else None)
      && (match LastCreated(out)
          case None => b.response.id == "" && b.response.model == Null
          case Some(r) => b.response.id == r.id && b.response.model == r.model)
      && b.response.usage == Scan.CountedUsage(es)
  {
    hide Run, Output, LastCreated, MapUsage, Scan.LastStop, Scan.UsageRecalls, Scan.CountedUsage;
    EndsInTerminal(FRESH, es, draws);
    NothingRemembered();
    RunRemembers(FRESH, [], [], es, draws);
    var out := Run(FRESH, es, draws).1;
    assert [] + es == es && [] + out == out;
    FinalCounts(Run(FRESH, es, draws).0, es, out);
  }

  lemma FinalCounts(st: State, es: seq<AEvent>, out: seq<REvent>)
    requires Remembers(st, es, out)
    ensures Terminal(st).response.usage == Scan.CountedUsage(es)
  {
    hide MapUsage, Output;
    if st.usage.Some? {
      RecalledUsage(st.usage.value, es);
    }
  }

  lemma NothingRemembered()
    ensures Remembers(FRESH, [], [])
  {
  }

  /** Every item of the terminal output carries exactly the text that its deltas carried. */
  lemma OutputCarriesDeltas(es: seq<AEvent>, draws: seq<string>)
    requires |draws| == |es| && E.AllNew(draws, {}) && Ends(es)
    ensures var out := Run(FRESH, es, draws).1;
      forall k :: 0 <= k < |FinalOutput(out)| ==> TextOf(FinalOutput(out)[k]) == DeltaText(out, FinalOutput(out)[k].id)
  {
    EndsInTerminal(FRESH, es, draws);
    hide Run, Output;
    BlocksCarryDeltas(es, draws);
  }

  /**
   The terminal output lists exactly the items that were added, in that order, if and only if no
   block of a known type starts under an index that has been used before.
   */
  lemma OutputListsAddedItems(es: seq<AEvent>, draws: seq<string>)
    requires |draws| == |es| && E.AllNew(draws, {}) && Ends(es)
    ensures var out := Run(FRESH, es, draws).1;
      Ids(FinalOutput(out)) == AddedIds(out) <==> Distinct(StartedIndices(es))
  {
    EndsInTerminal(FRESH, es, draws);
    hide Run, Output;
    BlocksAreAddedItems(es, draws);
  }

  /** Every item reported done is in the terminal output as it was reported. */
  ghost predicate RepeatsDone(out: seq<REvent>) {
    forall item :: ReportedDone(out, item) ==> item in FinalOutput(out)
  }

  /**
   The terminal output repeats every item that a done event reported, word for word, if and only if
   no block that was reported done starts anew or receives further text.
   */
  lemma OutputRepeatsDoneItems(es: seq<AEvent>, draws: seq<string>)
    requires |draws| == |es| && E.AllNew(draws, {}) && Ends(es)
    ensures RepeatsDone(Run(FRESH, es, draws).1) <==> Settled(es, {}, {})
  {
    EndsInTerminal(FRESH, es, draws);
    hide Run, Output, Settled, ReportedDone, FinalOutput;
    BlocksAreDoneItems(es, draws);
  }

  // ---------- streams whose output goes wrong ----------

  /** Index 0 starts twice. */
  const RESTARTED := [BlockStart(Some(0), TextBlock), BlockStart(Some(0), TextBlock), MessageStop]

  /** A block goes on after its stop. */
  const WENT_ON := [
    BlockStart(Some(0), TextBlock),
    BlockStop(Some(0)),
    BlockDelta(Some(0), TextDelta("a")),
    MessageStop]

  /** A restarted index is listed twice with its latest block, and its first item not at all. */
  lemma RestartHidesItem(draws: seq<string>)
    requires |draws| == |RESTARTED| && E.AllNew(draws, {})
    ensures var out := Run(FRESH, RESTARTED, draws).1;
      Ids(FinalOutput(out)) != AddedIds(out)
  {
    hide Run;
    assert RESTARTED[1..] == [RESTARTED[1], MessageStop] && RESTARTED[1..][1..] == [MessageStop];
    assert StartedIndices([MessageStop]) == [];
    assert StartedIndices([RESTARTED[1], MessageStop]) == [0];
    var started := StartedIndices(RESTARTED);
    assert started == [0] + [0];
    assert started[0] == started[1] && !Distinct(started);
    OutputListsAddedItems(RESTARTED, draws);
  }

  /** A late delta changes the listed item after it was reported done. */
  lemma LateDeltaChangesItem(draws: seq<string>)
    requires |draws| == |WENT_ON| && E.AllNew(draws, {})
    ensures !RepeatsDone(Run(FRESH, WENT_ON, draws).1)
  {
    hide Run, RepeatsDone, Settled;
    var e0, e1, e2 := WENT_ON[0], WENT_ON[1], WENT_ON[2];
    assert WENT_ON[1..] == [e1, e2, MessageStop] && WENT_ON[1..][1..] == [e2, MessageStop];
    assert Live(e0, {}) == {0} && Done(e0, {}, {}) == {} && Done(e1, {0}, {}) == {0} && Live(e1, {0}) == {0};
    assert Disturbs(e2, {0});
    SettledStep([e2, MessageStop], {0}, {0});
    SettledStep(WENT_ON[1..], {0}, {});
    SettledStep(WENT_ON, {}, {});
    OutputRepeatsDoneItems(WENT_ON, draws);
  }

  lemma SettledStep(es: seq<AEvent>, live: set<nat>, done: set<nat>)
    requires es != []
    ensures Settled(es, live, done) <==>
      !Disturbs(es[0], done) && Settled(es[1..], Live(es[0], live), Done(es[0], live, done))
  {
  }
}
