/**
 Nothing the provider says is lost, doubled or reordered: text, thinking and tool calls of
 a whole session against what the client receives, whatever blocks they end up in.
 */
module Conservation {
  import opened Wrappers
  import opened JsonValues
  import opened Events
  import opened StopMatching
  import opened StopFiltering
  import opened Translation
  import opened Sessions

  /** A tool call as sent, without its block index. */
  datatype ToolPiece = Begin(callId: string, name: string) | Arguments(partial: string)

  /** What a stretch of output says. */
  datatype Said = Said(text: string, thinking: string, tools: seq<ToolPiece>)

  const NOTHING := Said("", "", [])

  function Join(a: Said, b: Said): Said {
    Said(a.text + b.text, a.thinking + b.thinking, a.tools + b.tools)
  }

  function Saying(e: WireEvent): Said {
    match e
    case BlockStart(_, ToolUseBlock(callId, name)) => Said("", "", [Begin(callId, name)])
    case BlockDelta(_, Text(text)) => Said(text, "", [])
    case BlockDelta(_, Thinking(thinking)) => Said("", thinking, [])
    case BlockDelta(_, InputJson(partial)) => Said("", "", [Arguments(partial)])
    case _ => NOTHING
  }

  function SaidIn(out: seq<WireEvent>): Said {
    if out == [] then NOTHING else Join(SaidIn(out[..|out| - 1]), Saying(out[|out| - 1]))
  }

  lemma JoinNothing(a: Said)
    ensures Join(a, NOTHING) == a && Join(NOTHING, a) == a
  {
  }

  lemma {:induction false} SaidConcat(a: seq<WireEvent>, b: seq<WireEvent>)
    ensures SaidIn(a + b) == Join(SaidIn(a), SaidIn(b))
  {
    if b == [] {
      assert a + b == a;
      JoinNothing(SaidIn(a));
    } else {
      var init, last := b[..|b| - 1], b[|b| - 1];
      assert (a + b)[..|a + b| - 1] == a + init;
      SaidConcat(a, init);
      JoinAgain(SaidIn(a), SaidIn(init), Saying(last));
    }
  }

  lemma JoinAgain(a: Said, b: Said, c: Said)
    ensures Join(Join(a, b), c) == Join(a, Join(b, c))
  {
    assert a.text + b.text + c.text == a.text + (b.text + c.text);
    assert a.thinking + b.thinking + c.thinking == a.thinking + (b.thinking + c.thinking);
    assert a.tools + b.tools + c.tools == a.tools + (b.tools + c.tools);
  }

  lemma SaidOne(e: WireEvent)
    ensures SaidIn([e]) == Saying(e)
  {
    assert [e][..0] == [];
    JoinNothing(Saying(e));
  }

  // One call of the translator at a time.

  /** Text is held back only inside an open text block. */
  predicate Held(t: Translator) {
    t.text.buffer == "" || (t.open.Some? && t.open.value.kind.TextKind?)
  }

  lemma SaidClosed(t: Translator)
    requires Held(t)
    ensures var (c, out) := Closed(t); SaidIn(out) == Said(t.text.buffer, "", []) && c.text == t.text.(buffer := "") && Held(c)
  {
    if t.open.Some? {
      var i := t.open.value.index;
      SaidOne(BlockStop(i));
      SaidOne(BlockDelta(i, Text(t.text.buffer)));
      SaidConcat([], [BlockStop(i)]);
      SaidConcat([BlockDelta(i, Text(t.text.buffer))], [BlockStop(i)]);
      JoinNothing(Said(t.text.buffer, "", []));
    }
  }

  lemma SaidOpened(t: Translator, kind: BlockKind)
    requires Held(t)
    ensures var (o, out) := Opened(t, kind);
            SaidIn(out) == Said(t.text.buffer, "", []) && o.text == t.text.(buffer := "") && o.tools == t.tools
  {
    var (c, out) := Closed(t);
    SaidClosed(t);
    SaidOne(BlockStart(c.nextIndex, StartOf(kind)));
    SaidConcat(out, [BlockStart(c.nextIndex, StartOf(kind))]);
    JoinNothing(SaidIn(out));
  }

  /** Either nothing happens, or all held text is sent first. */
  lemma SaidEnsured(t: Translator, kind: BlockKind)
    requires Held(t)
    ensures var (o, out) := EnsuredOpen(t, kind);
            && o.open.Some? && o.open.value.kind == kind && o.tools == t.tools && o.stoppedBy == t.stoppedBy && o.finished == t.finished
            && Held(o) && o.text == t.text.(buffer := o.text.buffer)
            && SaidIn(out) == Said(SaidIn(out).text, "", []) && SaidIn(out).text + o.text.buffer == t.text.buffer
  {
    if !(t.open.Some? && t.open.value.kind == kind) {
      SaidOpened(t, kind);
    }
  }

  function Pieces(tool: PendingTool): seq<ToolPiece> {
    [Begin(tool.callId, tool.name)] + if tool.arguments == "" then [] else [Arguments(tool.arguments)]
  }

  lemma SaidDelivery(tool: PendingTool)
    ensures SaidIn(Delivery(tool)) == Said("", "", Pieces(tool))
  {
    var start := BlockStart(tool.block, ToolUseBlock(tool.callId, tool.name));
    var delta := BlockDelta(tool.block, InputJson(tool.arguments));
    var middle := if tool.arguments == "" then [] else [delta];
    SaidOne(start);
    SaidOne(delta);
    SaidOne(BlockStop(tool.block));
    SaidConcat([start], middle);
    SaidConcat([start] + middle, [BlockStop(tool.block)]);
    JoinNothing(Said("", "", Pieces(tool)));
    JoinNothing(Saying(start));
    assert Pieces(tool) == Saying(start).tools + SaidIn(middle).tools;
  }

  lemma SaidDelivered(t: Translator)
    requires t.tools != [] && Held(t)
    ensures var (d, out) := DeliveredFirst(t);
            && SaidIn(out) == Said(t.text.buffer, "", Pieces(t.tools[0]))
            && d.text == t.text.(buffer := "") && Held(d) && d.tools == t.tools[1..] && d.stoppedBy == t.stoppedBy && d.finished == t.finished
  {
    var s := t.(tools := t.tools[1..]);
    SaidClosed(s);
    SaidDelivery(t.tools[0]);
    SaidConcat(Closed(s).1, Delivery(t.tools[0]));
    assert t.text.buffer + "" == t.text.buffer && [] + Pieces(t.tools[0]) == Pieces(t.tools[0]);
  }

  function AllPieces(tools: seq<PendingTool>): seq<ToolPiece> {
    if tools == [] then [] else Pieces(tools[0]) + AllPieces(tools[1..])
  }

  /** Sends the held text, then the tools in order, and keeps the rest waiting. */
  ghost predicate Delivers(t: Translator, d: Translator, out: seq<WireEvent>, tools: seq<PendingTool>, rest: seq<PendingTool>) {
    && SaidIn(out).text + d.text.buffer == t.text.buffer && SaidIn(out).thinking == ""
    && SaidIn(out).tools == AllPieces(tools)
    && d.tools == rest && Held(d) && d.text.stopped == t.text.stopped && d.stoppedBy == t.stoppedBy && d.finished == t.finished
  }

  lemma DeliversMore(t: Translator, d: Translator, out: seq<WireEvent>, e: Translator, more: seq<WireEvent>, tools: seq<PendingTool>, rest: seq<PendingTool>)
    requires t.tools != [] && Held(t) && (d, out) == DeliveredFirst(t)
    requires Delivers(d, e, more, tools, rest)
    ensures Delivers(t, e, out + more, [t.tools[0]] + tools, rest)
  {
    hide SaidIn, DeliveredFirst, Pieces;
    SaidDelivered(t);
    SaidConcat(out, more);
    assert ([t.tools[0]] + tools)[1..] == tools;
  }

  lemma {:induction false} SaidFinished(t: Translator)
    requires Held(t)
    ensures var k := EndedFront(t.tools);
            k <= |t.tools| && Delivers(t, DeliveredFinished(t).0, DeliveredFinished(t).1, t.tools[..k], t.tools[k..])
    decreases |t.tools|
  {
    if t.tools == [] || !t.tools[0].ended {
      assert t.tools[0..] == t.tools;
    } else {
      var (d, out) := DeliveredFirst(t);
      SaidDelivered(t);
      SaidFinished(d);
      var k := EndedFront(d.tools);
      var (e, more) := DeliveredFinished(d);
      DeliversMore(t, d, out, e, more, d.tools[..k], d.tools[k..]);
      assert t.tools[..k + 1] == [t.tools[0]] + d.tools[..k] && t.tools[k + 1..] == d.tools[k..];
    }
  }

  lemma {:induction false} SaidAll(t: Translator)
    requires Held(t)
    ensures Delivers(t, DeliveredAll(t).0, DeliveredAll(t).1, t.tools, [])
    decreases |t.tools|
  {
    if t.tools == [] {
    } else {
      var (d, out) := DeliveredFirst(t);
      SaidDelivered(t);
      SaidAll(d);
      var (e, more) := DeliveredAll(d);
      DeliversMore(t, d, out, e, more, d.tools, []);
      assert t.tools == [t.tools[0]] + d.tools;
    }
  }

  lemma SaidRaw(t: Translator, block: Json)
    requires Held(t)
    ensures Delivers(t, RedactedOne(t, block).0, RedactedOne(t, block).1, [], t.tools)
  {
    if block.GetString("type") == Some("redacted_thinking") {
      var s := t.(nextIndex := t.nextIndex + 1);
      SaidClosed(s);
      var start, stop := BlockStart(t.nextIndex, RawBlock(block)), BlockStop(t.nextIndex);
      SaidOne(start);
      SaidOne(stop);
      SaidConcat([start], [stop]);
      assert [start] + [stop] == [start, stop];
      SaidConcat(Closed(s).1, [start, stop]);
      JoinNothing(NOTHING);
      JoinNothing(SaidIn(Closed(s).1));
    }
  }

  lemma {:induction false} SaidRedacted(t: Translator, blocks: seq<Json>)
    requires Held(t)
    ensures Delivers(t, Redacted(t, blocks).0, Redacted(t, blocks).1, [], t.tools)
    decreases |blocks|
  {
    if blocks == [] {
    } else {
      var (c, out) := RedactedOne(t, blocks[0]);
      SaidRaw(t, blocks[0]);
      SaidRedacted(c, blocks[1..]);
      SaidConcat(out, Redacted(c, blocks[1..]).1);
    }
  }

  function TextOf(e: ModelEvent): string {
    if e.TextDelta? then e.text else ""
  }

  function ThinkingOf(e: ModelEvent): string {
    if e.ThinkingDelta? then e.thinking else ""
  }

  predicate IsTool(e: ModelEvent) {
    e.ToolCallStart? || e.ToolCallArgumentsDelta? || e.ToolCallEnd?
  }

  /** Sent plus held back is what was held back before plus what came; a stop sequence ends the text in front of it. */
  ghost predicate Accounts(t: Translator, d: Translator, said: Said, text: string, thinking: string) {
    && Held(d) && d.finished == t.finished && said.thinking == thinking
    && (d.stoppedBy.Some? ==> d.open.None?)
    && (d.stoppedBy.None? ==> d.text.stopped.None?)
    && match d.text.stopped
       case None => said.text + d.text.buffer == t.text.buffer + text
       case Some(s) => d.text.buffer == "" && said.text + s <= t.text.buffer + text
  }

  ghost predicate Listening(t: Translator) {
    Held(t) && !t.finished && t.stoppedBy.None? && t.text.stopped.None?
  }

  lemma SaidPiece(out: seq<WireEvent>, i: nat, text: string)
    ensures SaidIn(out + Piece(i, text)) == Join(SaidIn(out), Said(text, "", []))
  {
    SaidOne(BlockDelta(i, Text(text)));
    SaidConcat(out, Piece(i, text));
  }

  lemma SaidText(t: Translator, delta: string)
    requires Listening(t)
    ensures var (d, out) := TextPushed(t, delta);
            Accounts(t, d, SaidIn(out), delta, "") && SaidIn(out).tools == [] && d.tools == t.tools
  {
    hide EnsuredOpen, Filtered, SaidIn;
    var (o, out) := EnsuredOpen(t, TextKind);
    SaidEnsured(t, TextKind);
    var (f, emitted) := Filtered(o.text, delta);
    FilterAccounts(o.text, delta);
    SaidPiece(out, o.open.value.index, emitted);
    var said := SaidIn(out).text;
    if f.stopped.Some? {
      SaidHit(o.(text := f, stoppedBy := f.stopped), out + Piece(o.open.value.index, emitted));
      SumsUpTo(said, emitted, f.stopped.value, o.text.buffer, delta);
    } else {
      Sums(said, emitted, f.buffer, o.text.buffer, delta);
    }
  }

  /** Closing after a hit adds nothing. */
  lemma SaidHit(t: Translator, out: seq<WireEvent>)
    requires t.text.buffer == ""
    ensures SaidIn(out + Closed(t).1) == SaidIn(out) && Held(Closed(t).0)
  {
    SaidClosed(t);
    SaidConcat(out, Closed(t).1);
    JoinNothing(SaidIn(out));
  }

  lemma Shifted(a: string, b: string, c: string, d: string)
    requires b + c <= d
    ensures a + b + c <= a + d
  {
    assert a + b + c == a + (b + c);
    assert (a + d)[..|a + (b + c)|] == a + d[..|b + c|];
  }

  lemma Sums(said: string, more: string, rest: string, held: string, text: string)
    requires more + rest == held + text
    ensures said + more + rest == said + held + text
  {
    assert said + more + rest == said + (more + rest) && said + held + text == said + (held + text);
  }

  lemma SumsUpTo(said: string, more: string, stop: string, held: string, text: string)
    requires more + stop <= held + text
    ensures said + more + stop <= said + held + text
  {
    Shifted(said, more, stop, held + text);
    assert said + held + text == said + (held + text);
  }

  lemma FilterAccounts(f: Filter, delta: string)
    requires f.stopped.None?
    ensures var (g, emitted) := Filtered(f, delta);
            match g.stopped
            case None => emitted + g.buffer == f.buffer + delta
            case Some(s) => g.buffer == "" && emitted + s <= f.buffer + delta
  {
    var text := f.buffer + delta;
    EarliestMeaning(text, f.sequences);
    PendingMeaning(text, f.sequences);
    if m: Match :| Earliest(text, f.sequences) == Some(m) {
      assert text[..m.position] + m.sequence == text[..m.position + |m.sequence|];
    }
  }

  lemma SaidThinking(t: Translator, delta: string)
    requires Listening(t)
    ensures var (d, out) := Pushed(t, ThinkingDelta(delta));
            Accounts(t, d, SaidIn(out), "", delta) && SaidIn(out).tools == [] && d.tools == t.tools
  {
    hide EnsuredOpen;
    var (o, out) := EnsuredOpen(t, ThinkingKind);
    SaidEnsured(t, ThinkingKind);
    var e := BlockDelta(o.open.value.index, Thinking(delta));
    SaidOne(e);
    SaidConcat(out, [e]);
    assert SaidIn(out).text + "" == SaidIn(out).text && "" + delta == delta;
    assert t.text.buffer + "" == t.text.buffer;
  }

  /** Sending the held text, and nothing else that counts. */
  lemma FlushAccounts(t: Translator, d: Translator, out: seq<WireEvent>)
    requires Listening(t) && Delivers(t, d, out, [], t.tools) && d.stoppedBy.None?
    ensures Accounts(t, d, SaidIn(out), "", "") && SaidIn(out).tools == [] && d.tools == t.tools
  {
    assert t.text.buffer + "" == t.text.buffer;
  }

  lemma SaidSignature(t: Translator, signature: string)
    requires Listening(t)
    ensures var (d, out) := Pushed(t, ThinkingSignature(signature)); d == t && SaidIn(out) == NOTHING
  {
    if t.open.Some? {
      SaidOne(BlockDelta(t.open.value.index, Signature(signature)));
    }
  }

  lemma SaidUpstreamStop(t: Translator, sequence: string)
    requires Listening(t)
    ensures var (d, out) := Pushed(t, StopSequence(sequence));
            Accounts(t, d, SaidIn(out), "", "") && SaidIn(out).tools == [] && d.tools == t.tools
  {
    SaidClosed(t.(stoppedBy := Some(sequence)));
    assert t.text.buffer + "" == t.text.buffer;
  }

  lemma SaidOther(t: Translator, e: ModelEvent)
    requires Listening(t) && !e.TextDelta? && !e.ThinkingDelta? && !IsTool(e)
    ensures var (d, out) := Pushed(t, e);
            Accounts(t, d, SaidIn(out), "", "") && SaidIn(out).tools == [] && d.tools == t.tools
  {
    if e.StopSequence? {
      SaidUpstreamStop(t, e.sequence);
    } else {
      var (d, out) := Pushed(t, e);
      SaidFlush(t, e);
      assert d.stoppedBy == t.stoppedBy;
      FlushAccounts(t, d, out);
    }
  }

  lemma SaidReplay(t: Translator, kind: string, value: Json)
    requires Listening(t)
    ensures var (d, out) := Pushed(t, ProviderReplayState(kind, value)); Delivers(t, d, out, [], t.tools)
  {
    SaidRedacted(t, ReplayBlocks(kind, value));
  }

  lemma SaidStarts(t: Translator)
    requires Listening(t)
    ensures var (d, out) := Pushed(t, TextStart); Delivers(t, d, out, [], t.tools)
    ensures var (d, out) := Pushed(t, ThinkingStart); Delivers(t, d, out, [], t.tools)
  {
    SaidOpened(t, TextKind);
    SaidOpened(t, ThinkingKind);
  }

  lemma SaidEnds(t: Translator)
    requires Listening(t)
    ensures var (d, out) := Pushed(t, TextEnd); Delivers(t, d, out, [], t.tools)
    ensures var (d, out) := Pushed(t, ThinkingEnd); Delivers(t, d, out, [], t.tools)
  {
    SaidClosed(t);
  }

  lemma SaidNothing(t: Translator, e: ModelEvent)
    requires Listening(t) && (e.Started? || e.UsageReport? || e.Done?)
    ensures var (d, out) := Pushed(t, e); Delivers(t, d, out, [], t.tools)
  {
  }

  lemma SaidFlush(t: Translator, e: ModelEvent)
    requires Listening(t) && !e.TextDelta? && !e.ThinkingDelta? && !IsTool(e) && !e.StopSequence?
    ensures Delivers(t, Pushed(t, e).0, Pushed(t, e).1, [], t.tools)
  {
    match e
    case TextStart => SaidStarts(t);
    case ThinkingStart => SaidStarts(t);
    case TextEnd => SaidEnds(t);
    case ThinkingEnd => SaidEnds(t);
    case ThinkingSignature(signature) => SaidSignature(t, signature);
    case ProviderReplayState(kind, value) => SaidReplay(t, kind, value);
    case _ => SaidNothing(t, e);
  }

  /** A tool call sends nothing but finished tools, after the text held back. */
  lemma SaidTool(t: Translator, e: ModelEvent)
    requires Listening(t) && IsTool(e)
    ensures var (d, out) := Pushed(t, e); Accounts(t, d, SaidIn(out), "", "") && d.stoppedBy.None?
  {
    assert t.text.buffer + "" == t.text.buffer;
    if e.ToolCallEnd? {
      SaidFinished(Marked(t, e.index));
    }
  }

  lemma SaidStep(t: Translator, e: ModelEvent)
    requires Listening(t)
    ensures var (d, out) := Pushed(t, e); Accounts(t, d, SaidIn(out), TextOf(e), ThinkingOf(e))
    ensures !IsTool(e) ==> SaidIn(Pushed(t, e).1).tools == [] && Pushed(t, e).0.tools == t.tools
  {
    if e.TextDelta? {
      SaidText(t, e.text);
    } else if e.ThinkingDelta? {
      SaidThinking(t, e.thinking);
    } else if IsTool(e) {
      SaidTool(t, e);
    } else {
      SaidOther(t, e);
    }
  }

  // Whole sessions.

  /** The events up to and including the one that set the stop sequence; all of them if none did. */
  function Heard(sequences: seq<string>, events: seq<ModelEvent>): seq<ModelEvent> {
    if events == [] then []
    else
      var init := events[..|events| - 1];
      if Session(NewTranslator(sequences), Pushes(init)).0.stoppedBy.Some? then Heard(sequences, init) else events
  }

  function TextGiven(events: seq<ModelEvent>): string {
    if events == [] then "" else TextGiven(events[..|events| - 1]) + TextOf(events[|events| - 1])
  }

  function ThinkingGiven(events: seq<ModelEvent>): string {
    if events == [] then "" else ThinkingGiven(events[..|events| - 1]) + ThinkingOf(events[|events| - 1])
  }

  function ToolEvents(events: seq<ModelEvent>): seq<ModelEvent> {
    if events == [] then []
    else ToolEvents(events[..|events| - 1]) + if IsTool(events[|events| - 1]) then [events[|events| - 1]] else []
  }

  /** The books are balanced after the events heard so far. */
  ghost predicate Balanced(t: Translator, said: Said, heard: seq<ModelEvent>) {
    && Held(t) && said.thinking == ThinkingGiven(heard)
    && (t.stoppedBy.Some? ==> t.open.None?)
    && (t.stoppedBy.None? ==> t.text.stopped.None?)
    && match t.text.stopped
       case None => said.text + t.text.buffer == TextGiven(heard)
       case Some(s) => t.text.buffer == "" && said.text + s <= TextGiven(heard)
  }

  lemma BalancedStep(t: Translator, said: Said, heard: seq<ModelEvent>, e: ModelEvent)
    requires Balanced(t, said, heard) && Listening(t)
    ensures Balanced(Pushed(t, e).0, Join(said, SaidIn(Pushed(t, e).1)), heard + [e])
  {
    var (d, out) := Pushed(t, e);
    SaidStep(t, e);
    assert (heard + [e])[..|heard|] == heard;
    if d.text.stopped.None? {
      Sums(said.text, SaidIn(out).text, d.text.buffer, t.text.buffer, TextOf(e));
    } else {
      SumsUpTo(said.text, SaidIn(out).text, d.text.stopped.value, t.text.buffer, TextOf(e));
    }
  }

  /** After the stop only tools and opaque blocks are sent. */
  lemma BalancedLater(t: Translator, said: Said, heard: seq<ModelEvent>, e: ModelEvent)
    requires Balanced(t, said, heard) && t.stoppedBy.Some? && !t.finished
    ensures var (d, out) := Pushed(t, e);
            Balanced(d, Join(said, SaidIn(out)), heard) && SaidIn(out).tools == [] && d.tools == t.tools && !d.finished
            && d.stoppedBy == t.stoppedBy
  {
    if e.ProviderReplayState? {
      SaidRedacted(t, ReplayBlocks(e.providerKind, e.value));
      QuietRedacted(t, ReplayBlocks(e.providerKind, e.value));
    }
    var (d, out) := Pushed(t, e);
    assert said.text + "" == said.text && said.thinking + "" == said.thinking;
  }

  lemma PushesSnoc(t: Translator, init: seq<ModelEvent>, e: ModelEvent)
    ensures var (s, out) := Session(t, Pushes(init));
            Session(t, Pushes(init + [e])) == (Pushed(s, e).0, out + Pushed(s, e).1)
  {
    assert Pushes(init + [e]) == Pushes(init) + [Push(e)];
    SessionSnoc(t, Pushes(init), Push(e));
  }

  lemma {:induction false} RunBalanced(sequences: seq<string>, events: seq<ModelEvent>)
    ensures var (t, out) := Session(NewTranslator(sequences), Pushes(events));
            Balanced(t, SaidIn(out), Heard(sequences, events)) && !t.finished
  {
    if events == [] {
    } else {
      var init, e := events[..|events| - 1], events[|events| - 1];
      assert events == init + [e];
      RunBalanced(sequences, init);
      var (t, out) := Session(NewTranslator(sequences), Pushes(init));
      PushesSnoc(NewTranslator(sequences), init, e);
      SaidConcat(out, Pushed(t, e).1);
      if t.stoppedBy.Some? {
        BalancedLater(t, SaidIn(out), Heard(sequences, init), e);
      } else {
        HeardAll(sequences, init);
        BalancedStep(t, SaidIn(out), init, e);
        SaidStep(t, e);
      }
    }
  }

  lemma {:induction false} HeardAll(sequences: seq<string>, events: seq<ModelEvent>)
    requires Session(NewTranslator(sequences), Pushes(events)).0.stoppedBy.None?
    ensures Heard(sequences, events) == events
  {
    if events != [] {
      var init, e := events[..|events| - 1], events[|events| - 1];
      assert events == init + [e];
      PushesSnoc(NewTranslator(sequences), init, e);
      RunBalancedStops(sequences, init, e);
    }
  }

  /** A stop sequence once set stays set. */
  lemma RunBalancedStops(sequences: seq<string>, init: seq<ModelEvent>, e: ModelEvent)
    ensures var t := Session(NewTranslator(sequences), Pushes(init)).0;
            t.stoppedBy.Some? ==> Pushed(t, e).0.stoppedBy.Some?
  {
    var t := Session(NewTranslator(sequences), Pushes(init)).0;
    if t.stoppedBy.Some? && e.ProviderReplayState? {
      StopStays(t, ReplayBlocks(e.providerKind, e.value));
    }
  }

  lemma {:induction false} StopStays(t: Translator, blocks: seq<Json>)
    ensures Redacted(t, blocks).0.stoppedBy == t.stoppedBy
    decreases |blocks|
  {
    if blocks != [] {
      StopStays(RedactedOne(t, blocks[0]).0, blocks[1..]);
    }
  }

  /** What a finished session says to the client. */
  function Answer(sequences: seq<string>, events: seq<ModelEvent>): Said {
    SaidIn(Session(NewTranslator(sequences), Pushes(events) + [Finish]).1)
  }

  lemma SaidEnd(t: Translator)
    requires Held(t) && !t.finished
    ensures SaidIn(Finished(t).1) == Said(t.text.buffer, "", AllPieces(t.tools)) && Finished(t).0.text.stopped == t.text.stopped
  {
    var s := t.(finished := true);
    var (d, delivered) := DeliveredAll(s);
    SaidAll(s);
    var (c, closing) := Closed(d);
    SaidClosed(d);
    var last := MessageDelta(ReasonOf(c.finish, c.stoppedBy), c.stoppedBy, UsageOf(c.usage));
    SaidOne(last);
    SaidOne(MessageStop);
    SaidConcat([last], [MessageStop]);
    assert [last] + [MessageStop] == [last, MessageStop];
    SaidConcat(delivered, closing);
    SaidConcat(delivered + closing, [last, MessageStop]);
    JoinNothing(NOTHING);
    JoinNothing(SaidIn(delivered + closing));
    assert AllPieces(t.tools) + [] == AllPieces(t.tools) && "" + "" == "";
  }

  /**
   For every event list: the client receives all thinking and all text given before the
   stop, in order, without gaps; a stop sequence found in the text ends it right in front of
   an occurrence; without a stop nothing at all is missing.
   */
  lemma NothingIsLost(sequences: seq<string>, events: seq<ModelEvent>)
    ensures var heard := Heard(sequences, events);
            var t := Session(NewTranslator(sequences), Pushes(events)).0;
            var answer := Answer(sequences, events);
            && answer.thinking == ThinkingGiven(heard)
            && (t.stoppedBy.None? ==> heard == events)
            && match t.text.stopped
               case None => answer.text == TextGiven(heard)
               case Some(s) => t.stoppedBy.Some? && answer.text + s <= TextGiven(heard)
  {
    var (t, out) := Session(NewTranslator(sequences), Pushes(events));
    RunBalanced(sequences, events);
    SessionSnoc(NewTranslator(sequences), Pushes(events), Finish);
    SaidEnd(t);
    SaidConcat(out, Finished(t).1);
    assert SaidIn(out).thinking + "" == SaidIn(out).thinking;
    assert SaidIn(out).text + "" == SaidIn(out).text;
    if t.stoppedBy.None? {
      HeardAll(sequences, events);
    }
  }

  // Tool calls among everything else.

  ghost predicate Alike(a: seq<PendingTool>, b: seq<PendingTool>) {
    |a| == |b| && forall i | 0 <= i < |a| :: a[i].(block := b[i].block) == b[i]
  }

  lemma {:induction false} AlikePosition(a: seq<PendingTool>, b: seq<PendingTool>, index: nat)
    requires Alike(a, b)
    ensures Position(a, index) == Position(b, index)
  {
    if a != [] && a[0].providerIndex != index {
      assert forall i | 0 <= i < |a| - 1 :: a[1..][i] == a[i + 1] && b[1..][i] == b[i + 1];
      AlikePosition(a[1..], b[1..], index);
    }
  }

  lemma {:induction false} AlikePieces(a: seq<PendingTool>, b: seq<PendingTool>)
    requires Alike(a, b)
    ensures AllPieces(a) == AllPieces(b) && EndedFront(a) == EndedFront(b)
  {
    if a != [] {
      assert forall i | 0 <= i < |a| - 1 :: a[1..][i] == a[i + 1] && b[1..][i] == b[i + 1];
      assert a[0].(block := b[0].block) == b[0];
      AlikePieces(a[1..], b[1..]);
    }
  }

  lemma AlikeSlices(a: seq<PendingTool>, b: seq<PendingTool>, k: nat)
    requires Alike(a, b) && k <= |a|
    ensures Alike(a[..k], b[..k]) && Alike(a[k..], b[k..])
  {
  }

  /** A tool event does the same to alike waiting tools, whatever else the translators are doing. */
  lemma ToolStep(t: Translator, u: Translator, e: ModelEvent)
    requires Listening(t) && Listening(u) && IsTool(e) && Alike(t.tools, u.tools)
    ensures var (d, out) := Pushed(t, e); var (c, o) := Pushed(u, e);
            SaidIn(out).tools == SaidIn(o).tools && Alike(d.tools, c.tools)
  {
    match e
    case ToolCallStart(index, callId, name) => ToolStarts(t, u, index, callId, name);
    case ToolCallArgumentsDelta(index, partial) => ToolArguments(t, u, index, partial);
    case ToolCallEnd(index) => ToolEnds(t, u, index);
  }

  lemma ToolStarts(t: Translator, u: Translator, index: nat, callId: string, name: string)
    requires Listening(t) && Listening(u) && Alike(t.tools, u.tools)
    ensures var (d, out) := Pushed(t, ToolCallStart(index, callId, name)); var (c, o) := Pushed(u, ToolCallStart(index, callId, name));
            out == o == [] && Alike(d.tools, c.tools)
  {
    AlikePosition(t.tools, u.tools, index);
  }

  lemma ToolArguments(t: Translator, u: Translator, index: nat, partial: string)
    requires Listening(t) && Listening(u) && Alike(t.tools, u.tools)
    ensures var (d, out) := Pushed(t, ToolCallArgumentsDelta(index, partial)); var (c, o) := Pushed(u, ToolCallArgumentsDelta(index, partial));
            out == o == [] && Alike(d.tools, c.tools)
  {
    AlikePosition(t.tools, u.tools, index);
  }

  lemma MarkedAlike(t: Translator, u: Translator, index: nat)
    requires Alike(t.tools, u.tools)
    ensures Alike(Marked(t, index).tools, Marked(u, index).tools)
  {
    AlikePosition(t.tools, u.tools, index);
  }

  lemma ToolEnds(t: Translator, u: Translator, index: nat)
    requires Listening(t) && Listening(u) && Alike(t.tools, u.tools)
    ensures var (d, out) := Pushed(t, ToolCallEnd(index)); var (c, o) := Pushed(u, ToolCallEnd(index));
            SaidIn(out).tools == SaidIn(o).tools && Alike(d.tools, c.tools)
  {
    var s, v := Marked(t, index), Marked(u, index);
    MarkedAlike(t, u, index);
    SaidFinished(s);
    SaidFinished(v);
    AlikePieces(s.tools, v.tools);
    var k := EndedFront(s.tools);
    AlikeSlices(s.tools, v.tools, k);
    AlikePieces(s.tools[..k], v.tools[..k]);
  }

  /** A session of tool events alone hears everything. */
  lemma {:induction false} ToolsListen(sequences: seq<string>, events: seq<ModelEvent>)
    requires forall e | e in events :: IsTool(e)
    ensures Listening(Session(NewTranslator(sequences), Pushes(events)).0)
  {
    if events == [] {
    } else {
      var init, e := events[..|events| - 1], events[|events| - 1];
      assert events == init + [e];
      assert forall x | x in init :: x in events;
      assert e in events;
      ToolsListen(sequences, init);
      PushesSnoc(NewTranslator(sequences), init, e);
      SaidTool(Session(NewTranslator(sequences), Pushes(init)).0, e);
    }
  }

  lemma {:induction false} ToolEventsAreTools(events: seq<ModelEvent>)
    ensures forall e | e in ToolEvents(events) :: IsTool(e)
  {
    if events != [] {
      ToolEventsAreTools(events[..|events| - 1]);
    }
  }

  lemma {:induction false} ToolsInStep(sequences: seq<string>, events: seq<ModelEvent>)
    ensures var (t, out) := Session(NewTranslator(sequences), Pushes(events));
            var (u, o) := Session(NewTranslator(sequences), Pushes(ToolEvents(Heard(sequences, events))));
            Alike(t.tools, u.tools) && SaidIn(out).tools == SaidIn(o).tools
  {
    if events == [] {
    } else {
      var init, e := events[..|events| - 1], events[|events| - 1];
      assert events == init + [e];
      ToolsInStep(sequences, init);
      RunBalanced(sequences, init);
      var start := NewTranslator(sequences);
      var (t, out) := Session(start, Pushes(init));
      PushesSnoc(start, init, e);
      SaidConcat(out, Pushed(t, e).1);
      if t.stoppedBy.Some? {
        BalancedLater(t, SaidIn(out), Heard(sequences, init), e);
      } else {
        HeardAll(sequences, init);
        SaidStep(t, e);
        var tools := ToolEvents(init);
        var (u, o) := Session(start, Pushes(tools));
        if IsTool(e) {
          assert ToolEvents(events) == tools + [e];
          ToolEventsAreTools(init);
          ToolsListen(sequences, tools);
          ToolStep(t, u, e);
          PushesSnoc(start, tools, e);
          SaidConcat(o, Pushed(u, e).1);
        } else {
          assert ToolEvents(events) == tools + [] == tools;
        }
      }
    }
  }

  /** Text, thinking, stops and opaque blocks do not disturb tool calls: those heard arrive as in a session of their own. */
  lemma ToolsAreUndisturbed(sequences: seq<string>, events: seq<ModelEvent>)
    ensures Answer(sequences, events).tools == Answer(sequences, ToolEvents(Heard(sequences, events))).tools
  {
    var start, tools := NewTranslator(sequences), ToolEvents(Heard(sequences, events));
    var (t, out) := Session(start, Pushes(events));
    var (u, o) := Session(start, Pushes(tools));
    ToolsInStep(sequences, events);
    RunBalanced(sequences, events);
    ToolEventsAreTools(Heard(sequences, events));
    ToolsListen(sequences, tools);
    SessionSnoc(start, Pushes(events), Finish);
    SessionSnoc(start, Pushes(tools), Finish);
    SaidEnd(t);
    SaidEnd(u);
    SaidConcat(out, Finished(t).1);
    SaidConcat(o, Finished(u).1);
    AlikePieces(t.tools, u.tools);
  }
}
