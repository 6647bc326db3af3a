/** The round trip of well-formed streams: which come back unchanged, and what a turn folds into. */
module StreamTurn {
  import opened Common
  import opened Wire
  import F = ForwardStream
  import R = ReverseStream
  import E = StreamEcho
  import C = Collector
  import S = StreamContent
  import D = ReverseDiscipline
  import Scan

  predicate IsBlockEvent(e: AEvent) {
    e.BlockStart? || e.BlockDelta? || e.BlockStop?
  }

  function BlockEvents(es: seq<AEvent>): seq<AEvent> {
    if es == [] then []
    else if IsBlockEvent(es[0]) then [es[0]] + BlockEvents(es[1..])
    else BlockEvents(es[1..])
  }

  /** After `count` starts and the stops of `stopped`: may this event come next in a tidy stream? */
  predicate TidyEvent(e: AEvent, count: nat, stopped: set<nat>) {
    match e
    case BlockStart(i, b) => i == Some(count) && S.Known(b)
    case BlockDelta(i, d) => i.Some? && i.value < count && !d.OtherDelta?
    case BlockStop(i) => i.Some? && i.value < count && i.value !in stopped
    case _ => true
  }

  function CountAfter(e: AEvent, count: nat): nat {
    if e.BlockStart? then count + 1 else count
  }

  function StoppedAfter(e: AEvent, stopped: set<nat>): set<nat> {
    if e.BlockStop? && e.index.Some? then stopped + {e.index.value} else stopped
  }

  /**
   Blocks of known types start under 0, 1, 2, ...; deltas of known types and stops name a block that
   has started, and each block stops at most once.
   */
  predicate Tidy(es: seq<AEvent>, count: nat, stopped: set<nat>) {
    es != [] ==>
      && TidyEvent(es[0], count, stopped)
      && Tidy(es[1..], CountAfter(es[0], count), StoppedAfter(es[0], stopped))
  }

  ghost predicate Identity(n: E.Echo, count: nat, stopped: set<nat>) {
    && n.count == count
    && (forall i :: i in n.live <==> 0 <= i < count)
    && (forall i :: i in n.live ==> n.live[i] == F.Slot(i, i in stopped))
    && (forall i :: i in stopped ==> i < count)
  }

  lemma {:induction false} BlockEventsConcat(a: seq<AEvent>, b: seq<AEvent>)
    ensures BlockEvents(a + b) == BlockEvents(a) + BlockEvents(b)
    decreases |a|
  {
    if a == [] {
      assert a + b == b;
    } else {
      assert (a + b)[1..] == a[1..] + b;
      BlockEventsConcat(a[1..], b);
    }
  }

  /** The block event that an event echoes as: itself renumbered, or nothing. */
  lemma StepBlockEvents(n: E.Echo, e: AEvent, mid: string)
    ensures var out := E.Step(n, e, mid).1;
      && |BlockEvents(out)| <= |BlockEvents([e])| <= 1
      && (IsBlockEvent(e) ==> BlockEvents(out) == out)
      && (!IsBlockEvent(e) ==> BlockEvents(out) == [])
      && BlockEvents([e]) == if IsBlockEvent(e) then [e] else []
  {
    var out := E.Step(n, e, mid).1;
    assert [e][1..] == [];
    if |out| == 2 {
      assert out[1..] == [out[1]];
      assert out[1..][1..] == [];
    } else if |out| == 1 {
      assert out[1..] == [];
    }
  }

  lemma {:induction false} NoMoreBlockEvents(n: E.Echo, es: seq<AEvent>, mid: string)
    ensures |BlockEvents(E.Run(n, es, mid).1)| <= |BlockEvents(es)|
    decreases |es|
  {
    hide E.Step;
    if es != [] {
      var (n1, out) := E.Step(n, es[0], mid);
      NoMoreBlockEvents(n1, es[1..], mid);
      StepBlockEvents(n, es[0], mid);
      BlockEventsConcat(out, E.Run(n1, es[1..], mid).1);
      BlockEventsConcat([es[0]], es[1..]);
      assert [es[0]] + es[1..] == es;
    }
  }

  /** A tidy event comes back as it went and leaves the numbering the identity; an untidy one does not. */
  lemma StepIdentity(n: E.Echo, e: AEvent, count: nat, stopped: set<nat>, mid: string)
    requires Identity(n, count, stopped)
    ensures var (n1, out) := E.Step(n, e, mid);
      if TidyEvent(e, count, stopped) then
        && BlockEvents(out) == BlockEvents([e])
        && Identity(n1, CountAfter(e, count), StoppedAfter(e, stopped))
      else IsBlockEvent(e) && (out == [] || (|out| == 1 && out[0] != e))
  {
    StepBlockEvents(n, e, mid);
  }

  lemma {:induction false} TidyIffSame(n: E.Echo, es: seq<AEvent>, count: nat, stopped: set<nat>, mid: string)
    requires Identity(n, count, stopped)
    ensures BlockEvents(E.Run(n, es, mid).1) == BlockEvents(es) <==> Tidy(es, count, stopped)
    decreases |es|
  {
    hide E.Step, Identity, TidyEvent;
    if es != [] {
      var e := es[0];
      var (n1, out) := E.Step(n, e, mid);
      var rest := E.Run(n1, es[1..], mid).1;
      StepBlockEvents(n, e, mid);
      StepIdentity(n, e, count, stopped, mid);
      BlockEventsConcat(out, rest);
      BlockEventsConcat([e], es[1..]);
      assert [e] + es[1..] == es;
      if TidyEvent(e, count, stopped) {
        TidyIffSame(n1, es[1..], CountAfter(e, count), StoppedAfter(e, stopped), mid);
        SameTails(BlockEvents(out), BlockEvents(rest), BlockEvents(es[1..]));
      } else if out == [] {
        NoMoreBlockEvents(n1, es[1..], mid);
      } else {
        assert (out + BlockEvents(rest))[0] == out[0] && ([e] + BlockEvents(es[1..]))[0] == e;
      }
    }
  }

  lemma SameTails(a: seq<AEvent>, b: seq<AEvent>, c: seq<AEvent>)
    ensures a + b == a + c <==> b == c
  {
    assert (a + b)[|a|..] == b && (a + c)[|a|..] == c;
  }

  /**
   Exactly the tidy streams come back with every block start, delta and stop as it was: one for one,
   in order, under the same index.
   */
  lemma SameBlocksIffTidy(es: seq<AEvent>, draws: seq<string>, mid: string)
    requires |draws| == |es| && E.AllNew(draws, {})
    ensures var back := F.Run(F.FRESH, R.Run(R.FRESH, es, draws).1, mid).1;
      BlockEvents(back) == BlockEvents(es) <==> Tidy(es, 0, {})
  {
    E.RoundTripIsEcho(es, draws, mid);
    TidyIffSame(E.SILENT, es, 0, {}, mid);
  }

  // ---------- one whole turn ----------

  predicate IsBody(es: seq<AEvent>) {
    forall k :: 0 <= k < |es| ==> !es[k].MessageStart? && !es[k].MessageStop?
  }

  predicate OpensTool(e: AEvent) {
    e.BlockStart? && e.index.Some? && e.block.ToolUseBlock?
  }

  predicate CallsTool(es: seq<AEvent>) {
    exists k :: 0 <= k < |es| && OpensTool(es[k])
  }

  /** The token counts that a stream gave last, as the message shows them. */
  function CountsShown(es: seq<AEvent>): Json {
    if !Scan.GivesUsage(es) then Obj(map["output_tokens" := Int(0)])
    else
      Obj(map["output_tokens" := Int(Scan.LastCount(es, "output_tokens")),
              "input_tokens" := Int(Scan.LastCount(es, "input_tokens")),
              "cache_read_input_tokens" := Int(Scan.LastCount(es, "cache_read_input_tokens")),
              "thinking_tokens" := Int(Scan.LastCount(es, "thinking_tokens"))])
  }

  lemma RecalledIsShown(usage: Option<map<string, Json>>, es: seq<AEvent>)
    requires Scan.UsageRecalls(usage, es)
    ensures E.EchoUsage(usage) == CountsShown(es)
  {
    hide R.IntOr0, Scan.LastCount;
    if usage.Some? {
      D.RecalledCount(usage.value, es, "input_tokens");
      D.RecalledCount(usage.value, es, "output_tokens");
      D.RecalledCount(usage.value, es, "cache_read_input_tokens");
      D.RecalledCount(usage.value, es, "thinking_tokens");
    }
  }

  lemma ShownOfTurn(m: AMessage, body: seq<AEvent>)
    ensures CountsShown(Turn(m, body)) == CountsShown([MessageStart(m)] + body)
  {
    var es := [MessageStart(m)] + body;
    assert Turn(m, body)[..|es|] == es;
    Scan.GivesUsageAppend(es, MessageStop);
  }

  predicate Quiet(es: seq<AEvent>) {
    forall k :: 0 <= k < |es| ==> IsBlockEvent(es[k]) || es[k].ErrorEvent?
  }

  lemma {:induction false} QuietKeepsMessage(parse: C.Parser, st: C.State, es: seq<AEvent>)
    requires Quiet(es)
    ensures C.Run(parse, st, es).message == st.message
    decreases |es|
  {
    if es != [] {
      QuietKeepsMessage(parse, C.Step(parse, st, es[0]), es[1..]);
    }
  }

  lemma {:induction false} EchoConcat(n: E.Echo, a: seq<AEvent>, b: seq<AEvent>, mid: string)
    ensures var (n1, out1) := E.Run(n, a, mid);
      var (n2, out2) := E.Run(n1, b, mid);
      E.Run(n, a + b, mid) == (n2, out1 + out2)
    decreases |a|
  {
    hide E.Step;
    if a == [] {
      assert a + b == b;
      assert [] + E.Run(n, b, mid).1 == E.Run(n, b, mid).1;
    } else {
      assert (a + b)[1..] == a[1..] + b;
      var (n1, out) := E.Step(n, a[0], mid);
      EchoConcat(n1, a[1..], b, mid);
      var (n2, rest) := E.Run(n1, a[1..], mid);
      assert out + (rest + E.Run(n2, b, mid).1) == (out + rest) + E.Run(n2, b, mid).1;
    }
  }

  lemma EchoOne(n: E.Echo, e: AEvent, mid: string)
    ensures E.Run(n, [e], mid) == E.Step(n, e, mid)
  {
    hide E.Step;
    assert E.Step(n, e, mid).1 + [] == E.Step(n, e, mid).1;
  }

  /** What one event inside a turn shows and leaves behind. */
  lemma BodyStep(n: E.Echo, e: AEvent, mid: string)
    requires !e.MessageStart? && !e.MessageStop?
    ensures var (n1, out) := E.Step(n, e, mid);
      && Quiet(out)
      && n1.stop == (if e.MessageDelta? && AsStr(e.stopReason).Some? then AsStr(e.stopReason) else n.stop)
      && n1.sawTool == (n.sawTool || OpensTool(e))
      && n1.usage == R.MergeUsage(n.usage, Scan.GivenUsage(e))
  {
  }

  lemma CallsToolAppend(es: seq<AEvent>, e: AEvent)
    ensures CallsTool(es + [e]) <==> CallsTool(es) || OpensTool(e)
  {
    var all := es + [e];
    if k :| 0 <= k < |all| && OpensTool(all[k]) {
      assert k < |es| ==> all[k] == es[k];
    }
    if k :| 0 <= k < |es| && OpensTool(es[k]) {
      assert all[k] == es[k];
    }
    assert all[|es|] == e;
  }

  lemma StartRecalls(m: AMessage)
    ensures Scan.UsageRecalls(R.MergeUsage(None, m.usage), [MessageStart(m)])
  {
    D.MergeRecalls(None, [], MessageStart(m));
    assert [] + [MessageStart(m)] == [MessageStart(m)];
  }

  lemma {:induction false} EchoOfBody(n: E.Echo, m: AMessage, es: seq<AEvent>, mid: string)
    requires IsBody(es) && n == E.Step(E.SILENT, MessageStart(m), mid).0
    ensures var (n1, out) := E.Run(n, es, mid);
      && Quiet(out)
      && n1.stop == Scan.LastStop(es) && n1.sawTool == CallsTool(es)
      && Scan.UsageRecalls(n1.usage, [MessageStart(m)] + es)
    decreases |es|
  {
    if es == [] {
      StartRecalls(m);
      assert [MessageStart(m)] + [] == [MessageStart(m)];
    } else {
      hide E.Step, E.Run, CallsTool, R.MergeUsage, Scan.UsageRecalls;
      var k := |es| - 1;
      var (n1, out) := E.Run(n, es[..k], mid);
      EchoOfBody(n, m, es[..k], mid);
      assert es == es[..k] + [es[k]];
      EchoConcat(n, es[..k], [es[k]], mid);
      EchoOne(n1, es[k], mid);
      BodyStep(n1, es[k], mid);
      CallsToolAppend(es[..k], es[k]);
      D.MergeRecalls(n1.usage, [MessageStart(m)] + es[..k], es[k]);
      assert [MessageStart(m)] + es == [MessageStart(m)] + es[..k] + [es[k]];
    }
  }

  /** A turn: one start, then anything but starts and stops, then one stop. */
  function Turn(m: AMessage, body: seq<AEvent>): seq<AEvent> {
    [MessageStart(m)] + body + [MessageStop]
  }

  /**
   The message that the round trip of a turn folds into: its own model, every block in the order of its
   start, an assistant's role, a stop reason of three, no stop sequence, and the four token counts.
   */
  lemma TurnComesBackAs(parse: C.Parser, m: AMessage, body: seq<AEvent>, draws: seq<string>, mid: string)
    requires IsBody(body)
    requires |draws| == |Turn(m, body)| && E.AllNew(draws, {})
    ensures var es := Turn(m, body);
      var back := F.Run(F.FRESH, R.Run(R.FRESH, es, draws).1, mid).1;
      C.Collect(parse, back) == map[
        "id" := Str(SynthId("msg", mid)),
        "type" := Str("message"),
        "role" := Str("assistant"),
        "model" := m.model,
        "content" := Arr(S.InStartOrder(parse, es)),
        "stop_reason" := Str(E.EchoStop(Scan.LastStop(body), CallsTool(body))),
        "stop_sequence" := Null,
        "usage" := CountsShown(Turn(m, body))]
    ensures "model" in C.Collect(parse, Turn(m, body)) && C.Collect(parse, Turn(m, body))["model"] == m.model
  {
    hide E.Run, F.Run, R.Run, C.Run, C.Content;
    var es := Turn(m, body);
    S.RoundTripListsByStart(parse, es, draws, mid);
    E.RoundTripIsEcho(es, draws, mid);
    var back := E.Run(E.SILENT, es, mid).1;
    EchoOfTurn(parse, m, body, mid);
    ModelOfTurn(parse, m, body);
  }

  /** The closing pair of an echoed turn. */
  function Closing(m: AMessage, body: seq<AEvent>): seq<AEvent> {
    [MessageDelta(Some(Str(E.EchoStop(Scan.LastStop(body), CallsTool(body)))), Some(Null),
                  Some(CountsShown(Turn(m, body)))),
     MessageStop]
  }

  /** A turn echoes as a start, quiet events, and the closing pair. */
  lemma TurnEchoes(m: AMessage, body: seq<AEvent>, mid: string) returns (quiet: seq<AEvent>)
    requires IsBody(body)
    ensures Quiet(quiet)
    ensures E.Run(E.SILENT, Turn(m, body), mid).1 == [E.EchoStart(m, mid)] + quiet + Closing(m, body)
  {
    hide E.Run, Quiet, IsBody, E.EchoStart, E.EchoStop, E.EchoUsage, CountsShown, CallsTool;
    hide Scan.UsageRecalls, Scan.LastStop;
    var start, stop := [MessageStart(m)], [MessageStop];
    var (n1, out1) := E.Step(E.SILENT, MessageStart(m), mid);
    EchoOne(E.SILENT, MessageStart(m), mid);
    EchoOfBody(n1, m, body, mid);
    var (n2, out2) := E.Run(n1, body, mid);
    quiet := out2;
    EchoConcat(E.SILENT, start, body, mid);
    EchoConcat(E.SILENT, start + body, stop, mid);
    EchoOne(n2, MessageStop, mid);
    RecalledIsShown(n2.usage, start + body);
    ShownOfTurn(m, body);
  }

  lemma EchoOfTurn(parse: C.Parser, m: AMessage, body: seq<AEvent>, mid: string)
    requires IsBody(body)
    ensures var back := E.Run(E.SILENT, Turn(m, body), mid).1;
      C.Run(parse, C.FRESH, back).message == map[
        "id" := Str(SynthId("msg", mid)),
        "type" := Str("message"),
        "role" := Str("assistant"),
        "model" := m.model,
        "content" := Arr([]),
        "stop_reason" := Str(E.EchoStop(Scan.LastStop(body), CallsTool(body))),
        "stop_sequence" := Null,
        "usage" := CountsShown(Turn(m, body))]
  {
    hide E.Run, C.Run, Quiet, IsBody, E.EchoStop, E.EchoUsage, CountsShown, CallsTool, SynthId;
    hide Scan.UsageRecalls, Scan.LastStop;
    var quiet := TurnEchoes(m, body, mid);
    var start := [E.EchoStart(m, mid)];
    S.CollectConcat(parse, C.FRESH, start + quiet, Closing(m, body));
    S.CollectConcat(parse, C.FRESH, start, quiet);
    S.Collected(parse, C.FRESH, start);
    var st1 := C.Run(parse, C.FRESH, start);
    QuietKeepsMessage(parse, st1, quiet);
    S.Collected(parse, C.Run(parse, st1, quiet), Closing(m, body));
  }

  lemma ModelOfTurn(parse: C.Parser, m: AMessage, body: seq<AEvent>)
    requires IsBody(body)
    ensures "model" in C.Run(parse, C.FRESH, Turn(m, body)).message
    ensures C.Run(parse, C.FRESH, Turn(m, body)).message["model"] == m.model
  {
    assert Turn(m, body)[1..] == body + [MessageStop];
    KeepsModel(parse, C.Step(parse, C.FRESH, MessageStart(m)), body + [MessageStop]);
  }

  lemma {:induction false} KeepsModel(parse: C.Parser, st: C.State, es: seq<AEvent>)
    requires "model" in st.message && forall k :: 0 <= k < |es| ==> !es[k].MessageStart?
    ensures "model" in C.Run(parse, st, es).message
    ensures C.Run(parse, st, es).message["model"] == st.message["model"]
    decreases |es|
  {
    if es != [] {
      KeepsModel(parse, C.Step(parse, st, es[0]), es[1..]);
    }
  }
}
