/**
 Every session writes a well-formed stream: the invariant that ties the translator's
 state to what a client has read so far, and what it gives at the end.
 */
module ProtocolProof {
  import opened Wrappers
  import opened JsonValues
  import opened Events
  import opened StopMatching
  import opened StopFiltering
  import opened Translation
  import opened Protocol

  function Blocks(tools: seq<PendingTool>): seq<nat> {
    seq(|tools|, i requires 0 <= i < |tools| => tools[i].block)
  }

  ghost predicate Ascending(s: seq<nat>) {
    forall i, j | 0 <= i < j < |s| :: s[i] < s[j]
  }

  /** Every reserved index is started or waits in a pending tool, never both and never twice. */
  ghost predicate Once(n: nat, started: seq<nat>, waiting: seq<nat>) {
    forall i: nat :: multiset(started)[i] + multiset(waiting)[i] == if i < n then 1 else 0
  }

  lemma OnceOpened(n: nat, started: seq<nat>, waiting: seq<nat>)
    requires Once(n, started, waiting)
    ensures n !in started && Once(n + 1, started + [n], waiting)
  {
    assert multiset(started)[n] == 0;
    assert multiset(started + [n]) == multiset(started) + multiset([n]);
  }

  lemma OnceReserved(n: nat, started: seq<nat>, waiting: seq<nat>)
    requires Once(n, started, waiting)
    ensures Once(n + 1, started, waiting + [n])
  {
    assert multiset(waiting + [n]) == multiset(waiting) + multiset([n]);
  }

  lemma OnceDelivered(n: nat, started: seq<nat>, b: nat, waiting: seq<nat>)
    requires Once(n, started, [b] + waiting)
    ensures b !in started && b < n && Once(n, started + [b], waiting)
  {
    assert multiset([b] + waiting) == multiset([b]) + multiset(waiting);
    assert multiset(started + [b]) == multiset(started) + multiset([b]);
    assert multiset(started)[b] + multiset([b] + waiting)[b] <= 1;
  }

  /** Tools already started and tools waiting, in this order, have ascending indices. */
  ghost predicate Ordered(n: nat, toolStarts: seq<nat>, waiting: seq<nat>) {
    && Ascending(toolStarts + waiting)
    && forall i | i in toolStarts + waiting :: i < n
  }

  lemma OrderedReserved(n: nat, toolStarts: seq<nat>, waiting: seq<nat>)
    requires Ordered(n, toolStarts, waiting)
    ensures Ordered(n + 1, toolStarts, waiting + [n])
  {
    var w := toolStarts + waiting;
    assert toolStarts + (waiting + [n]) == w + [n];
    assert forall i | 0 <= i < |w| :: w[i] in w && w[i] < n;
  }

  lemma OrderedDelivered(n: nat, toolStarts: seq<nat>, b: nat, waiting: seq<nat>)
    requires Ordered(n, toolStarts, [b] + waiting)
    ensures Ordered(n, toolStarts + [b], waiting)
  {
    assert toolStarts + ([b] + waiting) == toolStarts + [b] + waiting;
  }

  function PhaseOf(open: Option<OpenBlock>): Phase {
    match open
    case None => Idle
    case Some(b) => InBlock(b.index, StartOf(b.kind))
  }

  function OpenIndex(open: Option<OpenBlock>): seq<nat> {
    match open
    case None => []
    case Some(b) => [b.index]
  }

  /** All text sent is clean, the open block's too, and the filter works on exactly the text of that block. */
  ghost predicate Texts(f: Filter, open: Option<OpenBlock>, hit: bool, texts: seq<string>, current: string) {
    && NonEmpty(f.sequences)
    && (forall x | x in texts :: Clean(x, f.sequences))
    && Clean(current, f.sequences)
    && (hit ==> open.None?)
    && (!hit ==> f.stopped.None?)
    && (if open.Some? && open.value.kind.TextKind?
        then Holds(f, current + f.buffer, current)
        else f.buffer == "")
  }

  ghost predicate Linked(t: Translator, r: Reader) {
    && r.phase == PhaseOf(t.open)
    && r.started == r.stopped + OpenIndex(t.open)
    && Once(t.nextIndex, r.started, Blocks(t.tools))
    && Ordered(t.nextIndex, r.toolStarts, Blocks(t.tools))
    && Texts(t.text, t.open, t.stoppedBy.Some?, r.texts, r.current)
  }

  ghost predicate Keeps(t: Translator, d: Translator) {
    d.text.sequences == t.text.sequences && d.finished == t.finished
  }

  /** Closing sends what was held back, so the block's text is all of its input, which is clean. */
  lemma TextsClosed(f: Filter, b: OpenBlock, hit: bool, texts: seq<string>, current: string)
    requires Texts(f, Some(b), hit, texts, current)
    ensures var whole := current + f.buffer;
            Texts(f.(buffer := ""), None, hit, if b.kind.TextKind? then texts + [whole] else texts, whole)
  {
    var whole := current + f.buffer;
    if b.kind.TextKind? {
      assert Clean(whole, f.sequences);
      assert forall x | x in texts + [whole] :: x in texts || x == whole;
    } else {
      assert whole == current;
    }
  }

  lemma ReadClosing(r: Reader, i: nat, block: ContentBlock, rest: string)
    requires r.phase == InBlock(i, block) && (rest != "" ==> block.TextBlock?)
    ensures ReadAll(r, Piece(i, rest) + [BlockStop(i)]) ==
            r.(phase := Idle, stopped := r.stopped + [i], current := r.current + rest,
               texts := if block.TextBlock? then r.texts + [r.current + rest] else r.texts)
  {
    if rest == "" {
      assert [] + [BlockStop(i)] == [BlockStop(i)] && r.current + rest == r.current;
      ReadOne(r, BlockStop(i));
    } else {
      ReadOne(r, BlockDelta(i, Text(rest)));
      ReadSnoc(r, [BlockDelta(i, Text(rest))], BlockStop(i));
    }
  }

  lemma ClosedLinked(t: Translator, r: Reader)
    requires Linked(t, r)
    ensures var (c, out) := Closed(t); Linked(c, ReadAll(r, out)) && Keeps(t, c)
  {
    if t.open.Some? {
      var b := t.open.value;
      var rest := if b.kind.TextKind? then t.text.buffer else "";
      ReadClosing(r, b.index, StartOf(b.kind), rest);
      TextsClosed(t.text, b, t.stoppedBy.Some?, r.texts, r.current);
      assert [] + [BlockStop(b.index)] == [BlockStop(b.index)];
      assert r.started == r.stopped + [b.index] == r.stopped + [b.index] + [];
    }
  }

  lemma TextsOpened(f: Filter, texts: seq<string>, current: string, b: OpenBlock)
    requires Texts(f, None, false, texts, current)
    ensures Texts(f, Some(b), false, texts, "")
  {
    assert Holds(f, "", "");
  }

  lemma OrderedMore(n: nat, toolStarts: seq<nat>, waiting: seq<nat>)
    requires Ordered(n, toolStarts, waiting)
    ensures Ordered(n + 1, toolStarts, waiting)
  {
  }

  /** A new block outside the pending tools takes the next index. */
  lemma StartLinked(t: Translator, r: Reader, block: ContentBlock)
    requires Linked(t, r) && t.open.None? && !block.ToolUseBlock?
    ensures ReadAll(r, [BlockStart(t.nextIndex, block)]) ==
            r.(phase := InBlock(t.nextIndex, block), started := r.started + [t.nextIndex], current := "")
    ensures Once(t.nextIndex + 1, r.started + [t.nextIndex], Blocks(t.tools))
  {
    OnceOpened(t.nextIndex, r.started, Blocks(t.tools));
    ReadOne(r, BlockStart(t.nextIndex, block));
  }

  lemma OpenedLinked(t: Translator, r: Reader, kind: BlockKind)
    requires Linked(t, r) && t.stoppedBy.None?
    ensures var (o, out) := Opened(t, kind); Linked(o, ReadAll(r, out)) && Keeps(t, o)
  {
    hide Once, Ordered, Texts;
    var (c, out) := Closed(t);
    ClosedLinked(t, r);
    var rc := ReadAll(r, out);
    StartLinked(c, rc, StartOf(kind));
    ReadConcat(r, out, [BlockStart(c.nextIndex, StartOf(kind))]);
    TextsOpened(c.text, rc.texts, rc.current, OpenBlock(c.nextIndex, kind));
    OrderedMore(c.nextIndex, rc.toolStarts, Blocks(c.tools));
  }

  lemma EnsuredLinked(t: Translator, r: Reader, kind: BlockKind)
    requires Linked(t, r) && t.stoppedBy.None?
    ensures var (o, out) := EnsuredOpen(t, kind);
            Linked(o, ReadAll(r, out)) && Keeps(t, o) && o.open.Some? && o.open.value.kind == kind && o.stoppedBy.None?
  {
    hide Linked;
    if t.open.Some? && t.open.value.kind == kind {
    } else {
      OpenedLinked(t, r, kind);
    }
  }

  lemma ReadDelivery(r: Reader, tool: PendingTool)
    requires r.phase == Idle && tool.block !in r.started
    ensures ReadAll(r, Delivery(tool)) ==
            r.(started := r.started + [tool.block], stopped := r.stopped + [tool.block],
               toolStarts := r.toolStarts + [tool.block], current := "")
  {
    hide ReadAll;
    var b := tool.block;
    var start, arguments := BlockStart(b, ToolUseBlock(tool.callId, tool.name)), BlockDelta(b, InputJson(tool.arguments));
    ReadOne(r, start);
    if tool.arguments == "" {
      ReadSnoc(r, [start], BlockStop(b));
      assert [start] + [BlockStop(b)] == Delivery(tool);
    } else {
      ReadSnoc(r, [start], arguments);
      ReadSnoc(r, [start] + [arguments], BlockStop(b));
      assert [start] + [arguments] + [BlockStop(b)] == Delivery(tool);
    }
  }

  /** Outside text blocks the current text may be forgotten. */
  lemma TextsIdle(f: Filter, hit: bool, texts: seq<string>, before: string)
    requires Texts(f, None, hit, texts, before)
    ensures Texts(f, None, hit, texts, "")
  {
  }

  /** What has been let through is clean, because all that was received is. */
  lemma SentIsClean(f: Filter, received: string, sent: string)
    requires Holds(f, received, sent)
    ensures Clean(sent, f.sequences)
  {
    forall s, at: nat | s in f.sequences
      ensures !MatchesAt(sent, s, at)
    {
      if MatchesAt(sent, s, at) {
        PrefixMatch(sent, f.buffer, s, at);
      }
    }
  }

  lemma DeliveryLinked(t: Translator, r: Reader, tool: PendingTool)
    requires Linked(t.(tools := [tool] + t.tools), r) && t.open.None?
    ensures Linked(t, ReadAll(r, Delivery(tool)))
  {
    hide Once, Ordered, Texts;
    assert Blocks([tool] + t.tools) == [tool.block] + Blocks(t.tools);
    OnceDelivered(t.nextIndex, r.started, tool.block, Blocks(t.tools));
    OrderedDelivered(t.nextIndex, r.toolStarts, tool.block, Blocks(t.tools));
    ReadDelivery(r, tool);
    TextsIdle(t.text, t.stoppedBy.Some?, r.texts, r.current);
    assert r.stopped == r.started;
  }

  lemma DeliveredFirstLinked(t: Translator, r: Reader)
    requires Linked(t, r) && t.tools != []
    ensures var (d, out) := DeliveredFirst(t); Linked(d, ReadAll(r, out)) && Keeps(t, d) && d.open.None?
  {
    hide Linked;
    var (c, out) := Closed(t);
    ClosedLinked(t, r);
    var (d, _) := DeliveredFirst(t);
    assert [t.tools[0]] + t.tools[1..] == t.tools;
    assert c == d.(tools := [t.tools[0]] + d.tools);
    DeliveryLinked(d, ReadAll(r, out), t.tools[0]);
    ReadConcat(r, out, Delivery(t.tools[0]));
  }

  lemma {:induction false} DeliveredFinishedLinked(t: Translator, r: Reader)
    requires Linked(t, r)
    ensures var (d, out) := DeliveredFinished(t); Linked(d, ReadAll(r, out)) && Keeps(t, d)
    decreases |t.tools|
  {
    hide Linked;
    if t.tools == [] || !t.tools[0].ended {
    } else {
      var (d, out) := DeliveredFirst(t);
      DeliveredFirstLinked(t, r);
      DeliveredFinishedLinked(d, ReadAll(r, out));
      ReadConcat(r, out, DeliveredFinished(d).1);
    }
  }

  lemma {:induction false} DeliveredAllLinked(t: Translator, r: Reader)
    requires Linked(t, r)
    ensures var (d, out) := DeliveredAll(t); Linked(d, ReadAll(r, out)) && Keeps(t, d) && d.tools == []
    ensures DeliveredAll(t).0.nextIndex == t.nextIndex
    decreases |t.tools|
  {
    hide Linked;
    if t.tools == [] {
    } else {
      var (d, out) := DeliveredFirst(t);
      DeliveredFirstLinked(t, r);
      DeliveredAllLinked(d, ReadAll(r, out));
      ReadConcat(r, out, DeliveredAll(d).1);
    }
  }

  lemma RawLinked(t: Translator, r: Reader, block: Json)
    requires Linked(t, r) && t.open.None?
    ensures Linked(t.(nextIndex := t.nextIndex + 1),
                   ReadAll(r, [BlockStart(t.nextIndex, RawBlock(block)), BlockStop(t.nextIndex)]))
  {
    hide Once, Ordered, Texts;
    var start, stop := BlockStart(t.nextIndex, RawBlock(block)), BlockStop(t.nextIndex);
    StartLinked(t, r, RawBlock(block));
    ReadSnoc(r, [start], stop);
    assert [start] + [stop] == [start, stop];
    TextsIdle(t.text, t.stoppedBy.Some?, r.texts, r.current);
    assert r.stopped == r.started;
    OrderedMore(t.nextIndex, r.toolStarts, Blocks(t.tools));
  }

  lemma ClosedLater(t: Translator)
    ensures Closed(t.(nextIndex := t.nextIndex + 1)) == (Closed(t).0.(nextIndex := t.nextIndex + 1), Closed(t).1)
    ensures Closed(t).0.nextIndex == t.nextIndex && Closed(t).0.open.None?
  {
  }

  lemma RedactedOneLinked(t: Translator, r: Reader, block: Json)
    requires Linked(t, r)
    ensures var (d, out) := RedactedOne(t, block); Linked(d, ReadAll(r, out)) && Keeps(t, d)
  {
    hide Once, Ordered, Texts, Blocks;
    if block.GetString("type") == Some("redacted_thinking") {
      var (c, out) := Closed(t);
      ClosedLinked(t, r);
      ClosedLater(t);
      RawLinked(c, ReadAll(r, out), block);
      ReadConcat(r, out, [BlockStart(c.nextIndex, RawBlock(block)), BlockStop(c.nextIndex)]);
    }
  }

  lemma {:induction false} RedactedLinked(t: Translator, r: Reader, blocks: seq<Json>)
    requires Linked(t, r)
    ensures var (d, out) := Redacted(t, blocks); Linked(d, ReadAll(r, out)) && Keeps(t, d)
    decreases |blocks|
  {
    hide Linked;
    if blocks == [] {
    } else {
      var (c, out) := RedactedOne(t, blocks[0]);
      RedactedOneLinked(t, r, blocks[0]);
      RedactedLinked(c, ReadAll(r, out), blocks[1..]);
      ReadConcat(r, out, Redacted(c, blocks[1..]).1);
    }
  }

  lemma DeltaLinked(t: Translator, r: Reader, delta: Delta)
    requires Linked(t, r) && t.open.Some? && Fits(StartOf(t.open.value.kind), delta) && !delta.Text?
    ensures Linked(t, ReadAll(r, [BlockDelta(t.open.value.index, delta)]))
  {
    hide Once, Ordered, Texts;
    ReadOne(r, BlockDelta(t.open.value.index, delta));
  }

  /** A piece let through by the filter, sent into the open text block. */
  lemma ReadPiece(r: Reader, i: nat, emitted: string)
    requires r.phase == InBlock(i, TextBlock)
    ensures ReadAll(r, Piece(i, emitted)) == r.(current := r.current + emitted)
  {
    if emitted == "" {
      assert r.current + "" == r.current;
    } else {
      ReadOne(r, BlockDelta(i, Text(emitted)));
    }
  }

  /** A hit closes the block; its text ends where the stop sequence begins. */
  lemma HitLinked(t: Translator, r: Reader, f: Filter, before: string)
    requires Linked(t, r.(current := before)) && t.open.Some? && t.open.value.kind.TextKind?
    requires f == t.text.(buffer := "", stopped := f.stopped) && f.stopped.Some?
    requires Clean(r.current, t.text.sequences)
    ensures var (c, out) := Closed(t.(text := f, stoppedBy := f.stopped));
            Linked(c, ReadAll(r, out)) && Keeps(t, c)
  {
    var i := t.open.value.index;
    ReadOne(r, BlockStop(i));
    assert [] + [BlockStop(i)] == [BlockStop(i)];
  }

  /** A text delta: what reaches the client is the filter's answer. */
  lemma TextPushedLinked(t: Translator, r: Reader, delta: string)
    requires Linked(t, r) && t.stoppedBy.None?
    ensures var (d, out) := TextPushed(t, delta); Linked(d, ReadAll(r, out)) && Keeps(t, d)
  {
    hide EnsuredOpen, Once, Ordered;
    var (o, out) := EnsuredOpen(t, TextKind);
    EnsuredLinked(t, r, TextKind);
    var ro := ReadAll(r, out);
    var (f, emitted) := Filtered(o.text, delta);
    var i := o.open.value.index;
    var received := ro.current + o.text.buffer;
    PushIsBatch(o.text, received, ro.current, delta);
    ReadPiece(ro, i, emitted);
    var piece := Piece(i, emitted);
    var rs := ro.(current := ro.current + emitted);
    ReadConcat(r, out, piece);
    if f.stopped.None? {
      SentIsClean(f, received + delta, ro.current + emitted);
    }
    if f.stopped.Some? {
      CleanBefore(received + delta, o.text.sequences, Earliest(received + delta, o.text.sequences).value);
      HitLinked(o, rs, f, ro.current);
      ReadConcat(r, out + piece, Closed(o.(text := f, stoppedBy := f.stopped)).1);
    }
  }

  lemma ReservedLinked(t: Translator, r: Reader, index: nat, callId: string, name: string)
    requires Linked(t, r)
    ensures Linked(Reserved(t, index, callId, name), r)
  {
    assert Blocks(t.tools + [PendingTool(t.nextIndex, index, callId, name, "", false)]) == Blocks(t.tools) + [t.nextIndex];
    OnceReserved(t.nextIndex, r.started, Blocks(t.tools));
    OrderedReserved(t.nextIndex, r.toolStarts, Blocks(t.tools));
  }

  lemma BufferedKeepsBlocks(t: Translator, index: nat, delta: string)
    ensures Blocks(Buffered(t, index, delta).tools) == Blocks(t.tools)
    ensures Blocks(Marked(t, index).tools) == Blocks(t.tools)
  {
  }

  lemma ToolEventLinked(t: Translator, r: Reader, event: ModelEvent)
    requires Linked(t, r) && !t.finished && t.stoppedBy.None?
    requires event.ToolCallStart? || event.ToolCallArgumentsDelta? || event.ToolCallEnd?
    ensures var (d, out) := Pushed(t, event); Linked(d, ReadAll(r, out)) && Keeps(t, d)
  {
    hide Once, Ordered, Texts, DeliveredFinished;
    match event
    case ToolCallStart(index, callId, name) => ReservedLinked(t, r, index, callId, name);
    case ToolCallArgumentsDelta(index, delta) => BufferedKeepsBlocks(t, index, delta);
    case ToolCallEnd(index) =>
      BufferedKeepsBlocks(t, index, "");
      DeliveredFinishedLinked(Marked(t, index), r);
  }

  lemma ThinkingEventLinked(t: Translator, r: Reader, event: ModelEvent)
    requires Linked(t, r) && !t.finished && t.stoppedBy.None?
    requires event.ThinkingStart? || event.ThinkingDelta? || event.ThinkingSignature? || event.ThinkingEnd?
    ensures var (d, out) := Pushed(t, event); Linked(d, ReadAll(r, out)) && Keeps(t, d)
  {
    hide Linked, Pushed, ReadAll;
    match event
    case ThinkingStart => ThinkingStartLinked(t, r);
    case ThinkingDelta(delta) => ThinkingDeltaLinked(t, r, delta);
    case ThinkingSignature(signature) => SignatureLinked(t, r, signature);
    case ThinkingEnd => ThinkingEndLinked(t, r);
  }

  lemma ThinkingStartLinked(t: Translator, r: Reader)
    requires Linked(t, r) && !t.finished && t.stoppedBy.None?
    ensures var (d, out) := Pushed(t, ThinkingStart); Linked(d, ReadAll(r, out)) && Keeps(t, d)
  {
    hide Linked;
    OpenedLinked(t, r, ThinkingKind);
  }

  lemma ThinkingEndLinked(t: Translator, r: Reader)
    requires Linked(t, r) && !t.finished && t.stoppedBy.None?
    ensures var (d, out) := Pushed(t, ThinkingEnd); Linked(d, ReadAll(r, out)) && Keeps(t, d)
  {
    hide Linked;
    ClosedLinked(t, r);
  }

  lemma ThinkingDeltaLinked(t: Translator, r: Reader, delta: string)
    requires Linked(t, r) && !t.finished && t.stoppedBy.None?
    ensures var (d, out) := Pushed(t, ThinkingDelta(delta)); Linked(d, ReadAll(r, out)) && Keeps(t, d)
  {
    hide Linked, ReadAll, EnsuredOpen;
    var (o, out) := EnsuredOpen(t, ThinkingKind);
    EnsuredLinked(t, r, ThinkingKind);
    DeltaLinked(o, ReadAll(r, out), Thinking(delta));
    ReadConcat(r, out, [BlockDelta(o.open.value.index, Thinking(delta))]);
  }

  lemma SignatureLinked(t: Translator, r: Reader, signature: string)
    requires Linked(t, r) && !t.finished && t.stoppedBy.None?
    ensures var (d, out) := Pushed(t, ThinkingSignature(signature)); Linked(d, ReadAll(r, out)) && Keeps(t, d)
  {
    hide Linked;
    if t.open.Some? && t.open.value.kind.ThinkingKind? {
      DeltaLinked(t, r, Signature(signature));
    }
  }

  lemma PushedLinked(t: Translator, r: Reader, event: ModelEvent)
    requires Linked(t, r) && !t.finished
    ensures var (d, out) := Pushed(t, event); Linked(d, ReadAll(r, out)) && Keeps(t, d)
  {
    hide Linked, DeliveredFinished, Redacted, TextPushed;
    if event.ProviderReplayState? {
      RedactedLinked(t, r, ReplayBlocks(event.providerKind, event.value));
    } else if event.UsageReport? {
      LinkedSame(t, t.(usage := event.usage), r);
    } else if event.Done? {
      LinkedSame(t, t.(finish := Some(event.reason)), r);
    } else if t.stoppedBy.None? {
      if event.ToolCallStart? || event.ToolCallArgumentsDelta? || event.ToolCallEnd? {
        ToolEventLinked(t, r, event);
      } else if event.ThinkingStart? || event.ThinkingDelta? || event.ThinkingSignature? || event.ThinkingEnd? {
        ThinkingEventLinked(t, r, event);
      } else {
        match event
        case TextStart => OpenedLinked(t, r, TextKind);
        case TextDelta(delta) => TextPushedLinked(t, r, delta);
        case TextEnd => ClosedLinked(t, r);
        case StopSequence(sequence) => UpstreamStopLinked(t, r, sequence);
        case _ =>
      }
    }
  }

  lemma LinkedSame(t: Translator, d: Translator, r: Reader)
    requires Linked(t, r) && d == t.(usage := d.usage, finish := d.finish)
    ensures Linked(d, r) && Keeps(t, d)
  {
    hide Once, Ordered, Texts;
  }

  lemma UpstreamStopLinked(t: Translator, r: Reader, sequence: string)
    requires Linked(t, r) && t.stoppedBy.None?
    ensures var (d, out) := Closed(t.(stoppedBy := Some(sequence))); Linked(d, ReadAll(r, out)) && Keeps(t, d)
  {
    hide Once, Ordered;
    ClosedLinked(t, r);
    assert Closed(t.(stoppedBy := Some(sequence))) == (Closed(t).0.(stoppedBy := Some(sequence)), Closed(t).1);
  }
}
