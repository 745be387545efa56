/**
 What a client sees of each event: which block is open after it, and which signatures and
 opaque blocks have arrived, told from the provider's events and the client's own reading.
 */
module ClientView {
  import opened Wrappers
  import opened JsonValues
  import opened Events
  import opened StopMatching
  import opened StopFiltering
  import opened Translation
  import opened Protocol
  import opened ProtocolProof
  import opened Sessions
  import Conservation
  import Reports

  // Opaque blocks and signatures in the output.

  function RawIn(out: seq<WireEvent>): seq<Json> {
    if out == [] then []
    else
      var e := out[|out| - 1];
      RawIn(out[..|out| - 1]) + if e.BlockStart? && e.block.RawBlock? then [e.block.value] else []
  }

  function SignaturesIn(out: seq<WireEvent>): seq<string> {
    if out == [] then []
    else
      var e := out[|out| - 1];
      SignaturesIn(out[..|out| - 1]) + if e.BlockDelta? && e.delta.Signature? then [e.delta.signature] else []
  }

  lemma {:induction false} InConcat(a: seq<WireEvent>, b: seq<WireEvent>)
    ensures RawIn(a + b) == RawIn(a) + RawIn(b)
    ensures SignaturesIn(a + b) == SignaturesIn(a) + SignaturesIn(b)
  {
    if b == [] {
      assert a + b == a;
    } else {
      InConcat(a, b[..|b| - 1]);
      assert (a + b)[..|a + b| - 1] == a + b[..|b| - 1];
    }
  }

  /** Neither opaque blocks nor signatures. */
  predicate Plain(out: seq<WireEvent>) {
    forall e | e in out :: !(e.BlockStart? && e.block.RawBlock?) && !(e.BlockDelta? && e.delta.Signature?)
  }

  lemma {:induction false} PlainHasNone(out: seq<WireEvent>)
    requires Plain(out)
    ensures RawIn(out) == [] && SignaturesIn(out) == []
  {
    if out != [] {
      var e := out[|out| - 1];
      assert e in out && forall x | x in out[..|out| - 1] :: x in out;
      PlainHasNone(out[..|out| - 1]);
    }
  }

  // The same, told from the events.

  /** The blocks of a message of ours that are opaque: those typed as redacted thinking. */
  function RedactedOnly(blocks: seq<Json>): seq<Json> {
    if blocks == [] then []
    else
      var last := blocks[|blocks| - 1];
      RedactedOnly(blocks[..|blocks| - 1])
      + if last.Object? && Lookup(last.fields, "type") == Some(String("redacted_thinking")) then [last] else []
  }

  /** What one event asks to pass through: only replay states written for Anthropic carry blocks. */
  function Opaque(e: ModelEvent): seq<Json> {
    if e.ProviderReplayState? && e.providerKind == "anthropic" && e.value.Object? && "blocks" in e.value.fields
       && e.value.fields["blocks"].Array?
    then RedactedOnly(e.value.fields["blocks"].items) else []
  }

  function OpaqueGiven(events: seq<ModelEvent>): seq<Json> {
    if events == [] then [] else OpaqueGiven(events[..|events| - 1]) + Opaque(events[|events| - 1])
  }

  /** The client after `message_start` and the output for `events`. */
  function ClientAfter(sequences: seq<string>, events: seq<ModelEvent>): Reader {
    ReadAll(Read(NEW_READER, MessageStart("", "", 0)), Session(NewTranslator(sequences), Pushes(events)).1)
  }

  predicate InThinking(phase: Phase) {
    phase.InBlock? && phase.block.ThinkingBlock?
  }

  predicate InText(phase: Phase) {
    phase.InBlock? && phase.block.TextBlock?
  }

  /** The signatures that come while the client is in a thinking block. */
  function SignaturesGiven(sequences: seq<string>, events: seq<ModelEvent>): seq<string> {
    if events == [] then []
    else
      var init, e := events[..|events| - 1], events[|events| - 1];
      SignaturesGiven(sequences, init)
      + if e.ThinkingSignature? && InThinking(ClientAfter(sequences, init).phase) then [e.signature] else []
  }

  // One event of the translator.

  lemma {:induction false} PlainFinished(t: Translator)
    ensures Plain(DeliveredFinished(t).1)
    decreases |t.tools|
  {
    if t.tools != [] && t.tools[0].ended {
      PlainFinished(DeliveredFirst(t).0);
    }
  }

  lemma {:induction false} PlainAll(t: Translator)
    ensures Plain(DeliveredAll(t).1)
    decreases |t.tools|
  {
    if t.tools != [] {
      PlainAll(DeliveredFirst(t).0);
    }
  }

  lemma RawBlockIn(i: nat, block: Json)
    ensures var out := [BlockStart(i, RawBlock(block)), BlockStop(i)]; RawIn(out) == [block] && SignaturesIn(out) == []
  {
    var start, stop := BlockStart(i, RawBlock(block)), BlockStop(i);
    InOne(start);
    InOne(stop);
    InConcat([start], [stop]);
    assert [start] + [stop] == [start, stop] && [block] + [] == [block];
  }

  lemma InOne(e: WireEvent)
    ensures RawIn([e]) == if e.BlockStart? && e.block.RawBlock? then [e.block.value] else []
    ensures SignaturesIn([e]) == if e.BlockDelta? && e.delta.Signature? then [e.delta.signature] else []
  {
    assert [e][..0] == [];
  }

  lemma PlainClosed(t: Translator)
    ensures Plain(Closed(t).1)
  {
  }

  lemma RawOne(t: Translator, block: Json)
    ensures RawIn(RedactedOne(t, block).1) == RedactedOnly([block]) && SignaturesIn(RedactedOne(t, block).1) == []
  {
    hide Closed, RawIn, SignaturesIn, Plain;
    assert [block][..0] == [] && RedactedOnly([]) == [];
    if block.Object? && Lookup(block.fields, "type") == Some(String("redacted_thinking")) {
      var s := t.(nextIndex := t.nextIndex + 1);
      PlainClosed(s);
      PlainHasNone(Closed(s).1);
      RawBlockIn(t.nextIndex, block);
      InConcat(Closed(s).1, [BlockStart(t.nextIndex, RawBlock(block)), BlockStop(t.nextIndex)]);
    } else {
      PlainHasNone([]);
    }
  }

  lemma {:induction false} OnlyConcat(a: seq<Json>, b: seq<Json>)
    ensures RedactedOnly(a + b) == RedactedOnly(a) + RedactedOnly(b)
  {
    if b == [] {
      assert a + b == a;
    } else {
      OnlyConcat(a, b[..|b| - 1]);
      assert (a + b)[..|a + b| - 1] == a + b[..|b| - 1];
    }
  }

  lemma {:induction false} RawRedacted(t: Translator, blocks: seq<Json>)
    ensures RawIn(Redacted(t, blocks).1) == RedactedOnly(blocks) && SignaturesIn(Redacted(t, blocks).1) == []
    decreases |blocks|
  {
    if blocks == [] {
    } else {
      var (c, out) := RedactedOne(t, blocks[0]);
      RawOne(t, blocks[0]);
      RawRedacted(c, blocks[1..]);
      InConcat(out, Redacted(c, blocks[1..]).1);
      OnlyConcat([blocks[0]], blocks[1..]);
      assert [blocks[0]] + blocks[1..] == blocks;
    }
  }

  lemma PlainText(t: Translator, delta: string)
    ensures Plain(TextPushed(t, delta).1)
  {
    hide Filtered;
  }

  lemma RawStep(t: Translator, e: ModelEvent)
    requires !t.finished
    ensures var out := Pushed(t, e).1;
            && RawIn(out) == Opaque(e)
            && SignaturesIn(out) ==
               if e.ThinkingSignature? && t.stoppedBy.None? && t.open.Some? && t.open.value.kind.ThinkingKind? then [e.signature] else []
  {
    hide Redacted, TextPushed, DeliveredFinished, EnsuredOpen;
    var out := Pushed(t, e).1;
    if e.ProviderReplayState? {
      RawRedacted(t, ReplayBlocks(e.providerKind, e.value));
      assert RedactedOnly([]) == [];
    } else if e.ThinkingSignature? {
      assert out != [] ==> out[..0] == [];
    } else {
      PlainStep(t, e);
      PlainHasNone(out);
    }
  }

  lemma PlainStep(t: Translator, e: ModelEvent)
    requires !e.ProviderReplayState? && !e.ThinkingSignature?
    ensures Plain(Pushed(t, e).1)
  {
    hide TextPushed, DeliveredFinished;
    match e
    case TextDelta(delta) => PlainText(t, delta);
    case ToolCallEnd(index) => PlainFinished(Marked(t, index));
    case _ =>
  }

  // Whole sessions.

  lemma {:induction false} RunRaw(sequences: seq<string>, events: seq<ModelEvent>)
    ensures RawIn(Session(NewTranslator(sequences), Pushes(events)).1) == OpaqueGiven(events)
  {
    if events == [] {
    } else {
      hide Pushed, Opaque;
      var init, e := events[..|events| - 1], events[|events| - 1];
      assert events == init + [e];
      RunRaw(sequences, init);
      var (t, out) := Session(NewTranslator(sequences), Pushes(init));
      Conservation.PushesSnoc(NewTranslator(sequences), init, e);
      Conservation.RunBalanced(sequences, init);
      RawStep(t, e);
      InConcat(out, Pushed(t, e).1);
    }
  }

  lemma PlainEnd(t: Translator)
    ensures Plain(Finished(t).1)
  {
    if !t.finished {
      PlainAll(t.(finished := true));
    }
  }

  /**
   For every event list, before and after a stop: the opaque blocks that reach the client
   are, in order and unchanged, the redacted thinking of all replay states for Anthropic.
   */
  lemma OpaqueBlocksPass(sequences: seq<string>, events: seq<ModelEvent>)
    ensures RawIn(Session(NewTranslator(sequences), Pushes(events) + [Finish]).1) == OpaqueGiven(events)
  {
    var (t, out) := Session(NewTranslator(sequences), Pushes(events));
    RunRaw(sequences, events);
    SessionSnoc(NewTranslator(sequences), Pushes(events), Finish);
    PlainEnd(t);
    PlainHasNone(Finished(t).1);
    InConcat(out, Finished(t).1);
  }

  /** The translator behind a client. */
  lemma ClientLinked(sequences: seq<string>, events: seq<ModelEvent>)
    requires NonEmpty(sequences)
    ensures var t := Session(NewTranslator(sequences), Pushes(events)).0;
            Linked(t, ClientAfter(sequences, events)) && !t.finished && (t.stoppedBy.Some? ==> t.open.None?)
  {
    hide Linked, Session, ReadAll;
    Conservation.RunBalanced(sequences, events);
    SessionReached(MessageStart("", "", 0), sequences, Pushes(events));
  }

  lemma ThinkingOpen(t: Translator, r: Reader)
    requires Linked(t, r) && (t.stoppedBy.Some? ==> t.open.None?)
    ensures InThinking(r.phase) <==> t.stoppedBy.None? && t.open.Some? && t.open.value.kind.ThinkingKind?
  {
    hide Once, Ordered, Texts;
  }

  lemma {:induction false} RunSignatures(sequences: seq<string>, events: seq<ModelEvent>)
    requires NonEmpty(sequences)
    ensures SignaturesIn(Session(NewTranslator(sequences), Pushes(events)).1) == SignaturesGiven(sequences, events)
  {
    if events == [] {
    } else {
      hide Pushed, Session, ReadAll, SignaturesIn, Linked, ClientAfter, InThinking;
      var init, e := events[..|events| - 1], events[|events| - 1];
      assert events == init + [e];
      RunSignatures(sequences, init);
      var (t, out) := Session(NewTranslator(sequences), Pushes(init));
      Conservation.PushesSnoc(NewTranslator(sequences), init, e);
      ClientLinked(sequences, init);
      ThinkingOpen(t, ClientAfter(sequences, init));
      RawStep(t, e);
      InConcat(out, Pushed(t, e).1);
    }
  }

  /** The signatures that reach the client are, in order, those that came while it was in a thinking block. */
  lemma SignaturesPass(sequences: seq<string>, events: seq<ModelEvent>)
    requires NonEmpty(sequences)
    ensures SignaturesIn(Session(NewTranslator(sequences), Pushes(events) + [Finish]).1) == SignaturesGiven(sequences, events)
  {
    var (t, out) := Session(NewTranslator(sequences), Pushes(events));
    RunSignatures(sequences, events);
    SessionSnoc(NewTranslator(sequences), Pushes(events), Finish);
    PlainEnd(t);
    PlainHasNone(Finished(t).1);
    InConcat(out, Finished(t).1);
  }

  // Where blocks begin and end.

  /** A block of this kind that the client has not seen before. */
  predicate NewBlock(before: Reader, after: Phase, block: ContentBlock) {
    after.InBlock? && after.block == block && after.index !in before.started
  }

  /**
   The block open after an event, given the client before it. A started tool or an opaque
   block closes whatever was open; a stop sequence closes it for good.
   */
  ghost predicate Moves(before: Reader, e: ModelEvent, after: Reader, stopped: bool) {
    var (p, q) := (before.phase, after.phase);
    if stopped then q == Idle
    else match e
      case TextStart => NewBlock(before, q, TextBlock)
      case ThinkingStart => NewBlock(before, q, ThinkingBlock)
      case TextDelta(_) => if InText(p) then q == p else NewBlock(before, q, TextBlock)
      case ThinkingDelta(_) => if InThinking(p) then q == p else NewBlock(before, q, ThinkingBlock)
      case TextEnd => q == if InText(p) then Idle else p
      case ThinkingEnd => q == if InThinking(p) then Idle else p
      case ToolCallEnd(_) => q == if after.started != before.started then Idle else p
      case ProviderReplayState(_, _) => q == if Opaque(e) != [] then Idle else p
      case _ => q == p
  }

  lemma FirstOpen(t: Translator)
    requires t.tools != []
    ensures var d := DeliveredFirst(t).0; d.open.None? && d.tools == t.tools[1..] && d.nextIndex == t.nextIndex
  {
  }

  lemma {:induction false} FinishedOpen(t: Translator)
    ensures var d := DeliveredFinished(t).0;
            && d.open == (if EndedFront(t.tools) == 0 then t.open else None)
            && d.nextIndex == t.nextIndex && d.tools == t.tools[EndedFront(t.tools)..]
    ensures EndedFront(t.tools) == 0 ==> DeliveredFinished(t) == (t, [])
    decreases |t.tools|
  {
    hide DeliveredFirst;
    if t.tools != [] && t.tools[0].ended {
      var d := DeliveredFirst(t).0;
      FirstOpen(t);
      FinishedOpen(d);
      assert d.tools[EndedFront(d.tools)..] == t.tools[EndedFront(t.tools)..];
    }
  }

  lemma {:induction false} RedactedOpen(t: Translator, blocks: seq<Json>)
    ensures Redacted(t, blocks).0.open == if RedactedOnly(blocks) == [] then t.open else None
    decreases |blocks|
  {
    if blocks == [] {
    } else {
      RedactedOpen(RedactedOne(t, blocks[0]).0, blocks[1..]);
      OnlyConcat([blocks[0]], blocks[1..]);
      assert [blocks[0]] + blocks[1..] == blocks && [blocks[0]][..0] == [] && RedactedOnly([]) == [];
    }
  }

  lemma TextOpen(t: Translator, delta: string)
    requires t.stoppedBy.None?
    ensures var d := TextPushed(t, delta).0;
            if d.stoppedBy.Some? then d.open.None? else d.open == EnsuredOpen(t, TextKind).0.open
  {
    hide Filtered;
  }

  /** The block open in the translator after an event. */
  lemma OpenAfter(t: Translator, e: ModelEvent)
    requires !t.finished && t.stoppedBy.None?
    ensures var d := Pushed(t, e).0;
            d.stoppedBy.None? ==>
              d.open == match e
                        case TextStart => Some(OpenBlock(t.nextIndex, TextKind))
                        case ThinkingStart => Some(OpenBlock(t.nextIndex, ThinkingKind))
                        case TextDelta(_) => EnsuredOpen(t, TextKind).0.open
                        case ThinkingDelta(_) => EnsuredOpen(t, ThinkingKind).0.open
                        case TextEnd => if t.open.Some? && t.open.value.kind.TextKind? then None else t.open
                        case ThinkingEnd => if t.open.Some? && t.open.value.kind.ThinkingKind? then None else t.open
                        case ToolCallEnd(index) => if EndedFront(Marked(t, index).tools) == 0 then t.open else None
                        case ProviderReplayState(_, _) => if Opaque(e) == [] then t.open else None
                        case _ => t.open
  {
    hide TextPushed, DeliveredFinished, Redacted, EndedFront, Position;
    match e
    case TextDelta(delta) => TextOpen(t, delta);
    case ToolCallEnd(index) => FinishedOpen(Marked(t, index));
    case ProviderReplayState(kind, value) =>
      RedactedOpen(t, ReplayBlocks(kind, value));
      assert RedactedOnly([]) == [];
    case _ =>
  }

  /** The next index is new to the client. */
  lemma NextIsNew(t: Translator, r: Reader)
    requires Linked(t, r)
    ensures t.nextIndex !in r.started
  {
    assert multiset(r.started)[t.nextIndex] == 0;
  }

  /** Delivering waiting tools starts blocks. */
  lemma StartedGrows(t: Translator, r: Reader, d: Translator, after: Reader, k: nat)
    requires Linked(t, r) && Linked(d, after) && d.nextIndex == t.nextIndex
    requires 0 < k <= |t.tools| && Blocks(d.tools) == Blocks(t.tools)[k..]
    ensures after.started != r.started
  {
    hide Texts;
    var waiting := Blocks(t.tools);
    var b := waiting[0];
    assert (r.toolStarts + waiting)[|r.toolStarts|] == b && b in r.toolStarts + waiting;
    assert forall i | 0 < i < |waiting| :: (r.toolStarts + waiting)[|r.toolStarts| + i] == waiting[i];
    assert b !in waiting[k..];
    assert multiset(waiting)[b] >= 1 && multiset(r.started)[b] == 0;
    assert multiset(Blocks(d.tools))[b] == 0 && multiset(after.started)[b] == 1;
  }

  lemma MarkedBlocks(t: Translator, index: nat)
    ensures var s := Marked(t, index); Blocks(s.tools) == Blocks(t.tools) && |s.tools| == |t.tools| && s.nextIndex == t.nextIndex
  {
    hide Position;
  }

  lemma BlocksTail(tools: seq<PendingTool>, k: nat)
    requires k <= |tools|
    ensures Blocks(tools[k..]) == Blocks(tools)[k..]
  {
  }

  lemma PushedEnd(t: Translator, index: nat)
    requires !t.finished && t.stoppedBy.None?
    ensures Pushed(t, ToolCallEnd(index)) == DeliveredFinished(Marked(t, index))
  {
    hide DeliveredFinished, Marked;
  }

  lemma EndStarts(t: Translator, r: Reader, index: nat)
    requires Linked(t, r) && !t.finished && t.stoppedBy.None?
    ensures var (d, out) := Pushed(t, ToolCallEnd(index));
            EndedFront(Marked(t, index).tools) == 0 <==> ReadAll(r, out).started == r.started
  {
    hide Linked, ReadAll, DeliveredFinished, EndedFront, Marked, Blocks, Pushed;
    var s := Marked(t, index);
    PushedEnd(t, index);
    var (d, out) := DeliveredFinished(s);
    PushedLinked(t, r, ToolCallEnd(index));
    FinishedOpen(s);
    MarkedBlocks(t, index);
    if EndedFront(s.tools) == 0 {
      ReadNothing(r);
    } else {
      BlocksTail(s.tools, EndedFront(s.tools));
      StartedGrows(t, r, d, ReadAll(r, out), EndedFront(s.tools));
    }
  }

  lemma ReadNothing(r: Reader)
    ensures ReadAll(r, []) == r
  {
  }

  /** One event moves the client from block to block as `Moves` says. */
  lemma StepMoves(t: Translator, r: Reader, e: ModelEvent)
    requires Linked(t, r) && !t.finished && t.stoppedBy.None?
    requires Pushed(t, e).0.stoppedBy.Some? ==> Pushed(t, e).0.open.None?
    ensures var (d, out) := Pushed(t, e); Moves(r, e, ReadAll(r, out), d.stoppedBy.Some?)
  {
    hide Once, Ordered, Texts, ReadAll, Pushed, Opaque, EndedFront, Marked;
    var (d, out) := Pushed(t, e);
    PushedLinked(t, r, e);
    NextIsNew(t, r);
    OpenAfter(t, e);
    if e.ToolCallEnd? {
      EndStarts(t, r, e.index);
    }
  }

  lemma StoppedStays(t: Translator, e: ModelEvent)
    requires !t.finished && t.stoppedBy.Some? && t.open.None?
    ensures Pushed(t, e).0.stoppedBy.Some? && Pushed(t, e).0.open.None?
  {
    if e.ProviderReplayState? {
      QuietRedacted(t, ReplayBlocks(e.providerKind, e.value));
    }
  }

  /** For every event list and one more event: where the client's blocks begin and end. */
  lemma BlocksMove(sequences: seq<string>, events: seq<ModelEvent>, e: ModelEvent)
    requires NonEmpty(sequences)
    ensures var stopped := Session(NewTranslator(sequences), Pushes(events + [e])).0.stoppedBy.Some?;
            Moves(ClientAfter(sequences, events), e, ClientAfter(sequences, events + [e]), stopped)
  {
    hide Linked, Session, ReadAll, Moves, Pushed;
    var (t, out) := Session(NewTranslator(sequences), Pushes(events));
    ClientLinked(sequences, events);
    ClientLinked(sequences, events + [e]);
    Conservation.PushesSnoc(NewTranslator(sequences), events, e);
    var (d, more) := Pushed(t, e);
    ReadConcat(Read(NEW_READER, MessageStart("", "", 0)), out, more);
    if t.stoppedBy.Some? {
      StoppedStays(t, e);
      StoppedMoves(d, ClientAfter(sequences, events), e, ClientAfter(sequences, events + [e]));
    } else {
      StepMoves(t, ClientAfter(sequences, events), e);
    }
  }

  lemma StoppedMoves(d: Translator, before: Reader, e: ModelEvent, after: Reader)
    requires Linked(d, after) && d.open.None?
    ensures Moves(before, e, after, true)
  {
    hide Once, Ordered, Texts;
  }

  // Which stop sequence is reported.

  lemma StopSet(t: Translator, e: ModelEvent)
    requires !t.finished && t.stoppedBy.None? && t.text.stopped.None?
    ensures var d := Pushed(t, e).0;
            && d.stoppedBy == (if e.StopSequence? then Some(e.sequence) else d.text.stopped)
            && (d.text.stopped.Some? ==> e.TextDelta?)
  {
    hide DeliveredFinished, Redacted, Filtered;
    match e
    case ToolCallEnd(index) => FinishedStop(Marked(t, index));
    case ProviderReplayState(kind, value) => RedactedStop(t, ReplayBlocks(kind, value));
    case _ =>
  }

  lemma {:induction false} FinishedStop(t: Translator)
    ensures var d := DeliveredFinished(t).0; d.stoppedBy == t.stoppedBy && d.text.stopped == t.text.stopped
    decreases |t.tools|
  {
    if t.tools != [] && t.tools[0].ended {
      FinishedStop(DeliveredFirst(t).0);
    }
  }

  lemma {:induction false} RedactedStop(t: Translator, blocks: seq<Json>)
    ensures var d := Redacted(t, blocks).0; d.stoppedBy == t.stoppedBy && d.text.stopped == t.text.stopped
    decreases |blocks|
  {
    if blocks != [] {
      RedactedStop(RedactedOne(t, blocks[0]).0, blocks[1..]);
    }
  }

  /**
   The first stop counts: what is reported is the sequence of the first stop event, or the
   one that the filter found in the text, whichever comes first; it never changes.
   */
  lemma FirstStopCounts(sequences: seq<string>, events: seq<ModelEvent>, e: ModelEvent)
    ensures var (t, d) := (Session(NewTranslator(sequences), Pushes(events)).0, Session(NewTranslator(sequences), Pushes(events + [e])).0);
            if t.stoppedBy.Some? then d.stoppedBy == t.stoppedBy
            else if e.StopSequence? then d.stoppedBy == Some(e.sequence)
            else d.stoppedBy == d.text.stopped && (d.stoppedBy.Some? ==> e.TextDelta?)
  {
    hide Pushed, Session;
    Conservation.PushesSnoc(NewTranslator(sequences), events, e);
    Conservation.RunBalanced(sequences, events);
    var t := Session(NewTranslator(sequences), Pushes(events)).0;
    if t.stoppedBy.Some? {
      StopKept(t, e);
    } else {
      StopSet(t, e);
    }
  }

  lemma StopKept(t: Translator, e: ModelEvent)
    requires t.stoppedBy.Some?
    ensures Pushed(t, e).0.stoppedBy == t.stoppedBy
  {
    if e.ProviderReplayState? {
      RedactedStop(t, ReplayBlocks(e.providerKind, e.value));
    }
  }
}
