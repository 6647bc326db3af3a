/** What a Messages stream says up to some point, read off its events. */
module Scan {
  import opened Common
  import opened Wire

  /** The event starts a block of a known type under `i`. */
  predicate StartsBlock(e: AEvent, i: nat) {
    e.BlockStart? && e.index == Some(i) && !e.block.OtherBlock?
  }

  /** The position at which the block that `i` stands for started. */
  function StartOf(es: seq<AEvent>, i: nat): (r: Option<nat>)
    ensures r.Some? ==> r.value < |es| && StartsBlock(es[r.value], i)
    ensures r.Some? ==> forall p :: r.value < p < |es| ==> !StartsBlock(es[p], i)
    ensures r.None? ==> forall p :: 0 <= p < |es| ==> !StartsBlock(es[p], i)
  {
    if es == [] then None
    else
      var n := |es| - 1;
      if StartsBlock(es[n], i) then Some(n) else StartOf(es[..n], i)
  }

  /** The text that an event sends to the block under `i`, whatever its kind. */
  function TextFor(e: AEvent, i: nat): string {
    if e.BlockDelta? && e.index == Some(i) && !e.delta.OtherDelta? then e.delta.text else ""
  }

  /** All text sent to `i`, put together. */
  function AllText(es: seq<AEvent>, i: nat): string {
    if es == [] then ""
    else
      var n := |es| - 1;
      AllText(es[..n], i) + TextFor(es[n], i)
  }

  /** All text sent to the block that `i` stands for. */
  function TextOf(es: seq<AEvent>, i: nat): string {
    match StartOf(es, i)
    case Some(p) => AllText(es[p + 1..], i)
    case None => ""
  }

  lemma StartOfAppend(es: seq<AEvent>, e: AEvent, i: nat)
    ensures StartOf(es + [e], i) == if StartsBlock(e, i) then Some(|es|) else StartOf(es, i)
  {
    assert (es + [e])[..|es|] == es;
  }

  lemma TextOfAppend(es: seq<AEvent>, e: AEvent, i: nat)
    ensures StartsBlock(e, i) ==> TextOf(es + [e], i) == ""
    ensures !StartsBlock(e, i) && StartOf(es, i).Some? ==> TextOf(es + [e], i) == TextOf(es, i) + TextFor(e, i)
  {
    StartOfAppend(es, e, i);
    if StartsBlock(e, i) {
      assert (es + [e])[|es| + 1..] == [];
    } else if StartOf(es, i).Some? {
      var p := StartOf(es, i).value;
      var rest := es[p + 1..];
      assert (es + [e])[p + 1..] == rest + [e];
      assert (rest + [e])[..|rest|] == rest;
    }
  }

  // ---------- text of a block's own kind ----------

  /** A block takes deltas of its own kind. */
  predicate Takes(block: ABlock, d: ADelta) {
    match block
    case TextBlock => d.TextDelta?
    case ThinkingBlock => d.ThinkingDelta?
    case ToolUseBlock(_, _) => d.InputJsonDelta?
    case OtherBlock => false
  }

  function OwnTextOf(e: AEvent, i: nat, block: ABlock): string {
    if e.BlockDelta? && e.index == Some(i) && Takes(block, e.delta) then e.delta.text else ""
  }

  /** The text of its own kind that a block under `i` is sent in `es`, up to the first stop. */
  function OwnText(es: seq<AEvent>, i: nat, block: ABlock): string {
    if es == [] || es[0] == BlockStop(Some(i)) then ""
    else OwnTextOf(es[0], i, block) + OwnText(es[1..], i, block)
  }

  predicate Stops(es: seq<AEvent>, i: nat) {
    BlockStop(Some(i)) in es
  }

  lemma {:induction false} OwnTextAppend(es: seq<AEvent>, e: AEvent, i: nat, block: ABlock)
    ensures OwnText(es + [e], i, block) == OwnText(es, i, block) + if Stops(es, i) then "" else OwnTextOf(e, i, block)
  {
    if es == [] {
      assert es + [e] == [e] && [e][1..] == [];
    } else {
      assert (es + [e])[1..] == es[1..] + [e];
      OwnTextAppend(es[1..], e, i, block);
    }
  }

  // ---------- usage ----------

  /** The usage that an event gives, if any. */
  function GivenUsage(e: AEvent): Option<Json> {
    match e
    case MessageStart(m) => m.usage
    case MessageDelta(_, _, usage) => usage
    case _ => None
  }

  /** The value under `key` in the last usage object that has that key. */
  function LastUnder(es: seq<AEvent>, key: string): Option<Json> {
    if es == [] then None
    else
      var n := |es| - 1;
      match GivenUsage(es[n])
      case Some(Obj(fields)) => if key in fields then Some(fields[key]) else LastUnder(es[..n], key)
      case _ => LastUnder(es[..n], key)
  }

  /** The token count under `key`: zero if it was never given, or was given last as something else. */
  function LastCount(es: seq<AEvent>, key: string): int {
    match LastUnder(es, key)
    case Some(Int(n)) => n
    case _ => 0
  }

  predicate GivesUsage(es: seq<AEvent>) {
    exists p :: 0 <= p < |es| && GivenUsage(es[p]).Some?
  }

  lemma GivesUsageAppend(es: seq<AEvent>, e: AEvent)
    ensures GivesUsage(es + [e]) <==> GivesUsage(es) || GivenUsage(e).Some?
  {
    var all := es + [e];
    if p :| 0 <= p < |es| && GivenUsage(es[p]).Some? {
      assert GivenUsage(all[p]).Some?;
    }
    if p :| 0 <= p < |all| && GivenUsage(all[p]).Some? {
      assert p < |es| ==> GivenUsage(es[p]).Some?;
    }
    assert all[|es|] == e;
  }

  lemma {:induction false} NothingUnder(es: seq<AEvent>, key: string)
    requires !GivesUsage(es)
    ensures LastUnder(es, key) == None
  {
    if es != [] {
      var n := |es| - 1;
      assert es == es[..n] + [es[n]];
      GivesUsageAppend(es[..n], es[n]);
      NothingUnder(es[..n], key);
    }
  }

  /** `usage` holds, under every key, what was given last. */
  ghost predicate UsageRecalls(usage: Option<map<string, Json>>, es: seq<AEvent>) {
    && (usage.Some? <==> GivesUsage(es))
    && (usage.Some? ==> forall key :: Get(usage.value, key) == LastUnder(es, key))
  }

  /** The usage of a response: the last counts given, and input and output added up. */
  function CountedUsage(es: seq<AEvent>): RUsage {
    if !GivesUsage(es) then NullUsage
    else
      var input, output := LastCount(es, "input_tokens"), LastCount(es, "output_tokens");
      Usage(Some(input), Some(output), Some(LastCount(es, "cache_read_input_tokens")),
            Some(LastCount(es, "thinking_tokens")), Some(input + output))
  }

  // ---------- the last of something ----------

  /** The position of the last message start. */
  function LastMessageStart(es: seq<AEvent>): (r: Option<nat>)
    ensures r.Some? ==> r.value < |es| && es[r.value].MessageStart?
    ensures r.Some? ==> forall p :: r.value < p < |es| ==> !es[p].MessageStart?
    ensures r.None? ==> forall p :: 0 <= p < |es| ==> !es[p].MessageStart?
  {
    if es == [] then None
    else
      var n := |es| - 1;
      if es[n].MessageStart? then Some(n) else LastMessageStart(es[..n])
  }

  /** The last stop reason given, if any. */
  function LastStop(es: seq<AEvent>): Option<string> {
    if es == [] then None
    else
      var n := |es| - 1;
      match es[n]
      case MessageDelta(Some(Str(reason)), _, _) => Some(reason)
      case _ => LastStop(es[..n])
  }

  /** The last message delta's stop reason, as it was given. */
  function LastReason(es: seq<AEvent>): Option<Json> {
    if es == [] then None
    else
      var n := |es| - 1;
      if es[n].MessageDelta? && es[n].stopReason.Some? then es[n].stopReason else LastReason(es[..n])
  }

  function LastSequence(es: seq<AEvent>): Option<Json> {
    if es == [] then None
    else
      var n := |es| - 1;
      if es[n].MessageDelta? && es[n].stopSequence.Some? then es[n].stopSequence else LastSequence(es[..n])
  }

  /** The last message delta's usage, as it was given. */
  function LastUsage(es: seq<AEvent>): Option<Json> {
    if es == [] then None
    else
      var n := |es| - 1;
      if es[n].MessageDelta? && es[n].usage.Some? then es[n].usage else LastUsage(es[..n])
  }
}
