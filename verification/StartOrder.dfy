/**
 When do blocks start in the order 0, 1, 2, …? Exactly when no block other than a tool's
 is opened while a tool is pending.
 */
module StartOrder {
  import opened Wrappers
  import opened JsonValues
  import opened Events
  import opened StopMatching
  import opened StopFiltering
  import opened Translation
  import opened Protocol
  import opened ProtocolProof
  import opened Sessions

  function Starts(out: seq<WireEvent>): seq<nat> {
    if out == [] then []
    else
      var last := out[|out| - 1];
      Starts(out[..|out| - 1]) + if last.BlockStart? then [last.index] else []
  }

  lemma {:induction false} StartsConcat(a: seq<WireEvent>, b: seq<WireEvent>)
    ensures Starts(a + b) == Starts(a) + Starts(b)
  {
    if b == [] {
      assert a + b == a;
    } else {
      StartsConcat(a, b[..|b| - 1]);
      assert (a + b)[..|a + b| - 1] == a + b[..|b| - 1];
    }
  }

  /** A stream that is not broken has started exactly these. */
  lemma {:induction false} ReaderStarts(r: Reader, out: seq<WireEvent>)
    requires ReadAll(r, out).phase != Broken
    ensures ReadAll(r, out).started == r.started + Starts(out)
  {
    if out == [] {
    } else {
      ReaderStarts(r, out[..|out| - 1]);
    }
  }

  ghost predicate OpensOther(out: seq<WireEvent>) {
    exists e | e in out :: e.BlockStart? && !e.block.ToolUseBlock?
  }

  predicate IsRedacted(block: Json) {
    block.GetString("type") == Some("redacted_thinking")
  }

  function RedactedCount(blocks: seq<Json>): nat {
    if blocks == [] then 0 else (if IsRedacted(blocks[0]) then 1 else 0) + RedactedCount(blocks[1..])
  }

  predicate IsOpen(t: Translator, kind: BlockKind) {
    t.open.Some? && t.open.value.kind == kind
  }

  /** How many blocks, tools aside, a call is going to open. */
  function NewBlocks(t: Translator, op: Op): nat {
    if !op.Push? || t.finished then 0
    else if op.event.ProviderReplayState? then RedactedCount(ReplayBlocks(op.event.providerKind, op.event.value))
    else if t.stoppedBy.Some? then 0
    else
      match op.event
      case TextStart => 1
      case ThinkingStart => 1
      case TextDelta(_) => if IsOpen(t, TextKind) then 0 else 1
      case ThinkingDelta(_) => if IsOpen(t, ThinkingKind) then 0 else 1
      case _ => 0
  }

  predicate Opens(t: Translator, op: Op) {
    NewBlocks(t, op) > 0
  }

  /** No block but a tool's opens while a tool is pending. */
  ghost predicate Orderly(t: Translator, ops: seq<Op>)
    decreases |ops|
  {
    ops == [] ||
    var init := ops[..|ops| - 1];
    var s := Session(t, init).0;
    Orderly(t, init) && (Opens(s, ops[|ops| - 1]) ==> s.tools == [])
  }

  function Range(from: nat, count: nat): seq<nat> {
    seq(count, i requires 0 <= i < count => from + i)
  }

  /** `count` blocks took the next indices, or one tool was reserved, or waiting tools were delivered. */
  ghost predicate Effect(t: Translator, d: Translator, out: seq<WireEvent>, count: nat) {
    || (&& Starts(out) == Range(t.nextIndex, count)
        && Blocks(d.tools) == Blocks(t.tools)
        && d.nextIndex == t.nextIndex + count
        && (OpensOther(out) <==> count > 0))
    || (&& count == 0 && out == []
        && Blocks(d.tools) == Blocks(t.tools) + [t.nextIndex]
        && d.nextIndex == t.nextIndex + 1)
    || (&& count == 0 && !OpensOther(out)
        && Starts(out) + Blocks(d.tools) == Blocks(t.tools)
        && d.nextIndex == t.nextIndex)
  }

  lemma ClosedEffect(t: Translator)
    ensures var (c, out) := Closed(t); Starts(out) == [] && !OpensOther(out) && c.tools == t.tools && c.nextIndex == t.nextIndex
  {
    if t.open.Some? {
      var i := t.open.value.index;
      NothingStarts(Piece(i, t.text.buffer), i);
      NothingStarts([], i);
    }
  }

  lemma NothingStarts(out: seq<WireEvent>, i: nat)
    requires |out| <= 1 && forall e | e in out :: e.BlockDelta?
    ensures Starts(out + [BlockStop(i)]) == [] && !OpensOther(out + [BlockStop(i)])
  {
    StartsConcat(out, [BlockStop(i)]);
    OneStart(BlockStop(i));
    if out == [] {
      assert Starts(out) == [];
    } else {
      assert out == [out[0]] && out[0] in out;
      OneStart(out[0]);
    }
    assert Starts(out) + [] == [];
  }

  lemma OneStart(e: WireEvent)
    ensures Starts([e]) == if e.BlockStart? then [e.index] else []
  {
    assert [e][..0] == [];
  }

  lemma OpenedEffect(t: Translator, kind: BlockKind)
    ensures var (o, out) := Opened(t, kind); Effect(t, o, out, 1)
  {
    var (c, out) := Closed(t);
    ClosedEffect(t);
    var start := BlockStart(c.nextIndex, StartOf(kind));
    StartsConcat(out, [start]);
    OneStart(start);
    assert start in out + [start];
    assert Range(t.nextIndex, 1) == [t.nextIndex];
  }

  lemma EnsuredEffect(t: Translator, kind: BlockKind)
    ensures var (o, out) := EnsuredOpen(t, kind); Effect(t, o, out, if IsOpen(t, kind) then 0 else 1) && o.tools == t.tools
  {
    if !IsOpen(t, kind) {
      OpenedEffect(t, kind);
      ClosedEffect(t);
    }
  }

  /** Events that start nothing leave the effect as it is. */
  lemma EffectMore(t: Translator, d: Translator, out: seq<WireEvent>, count: nat, d': Translator, more: seq<WireEvent>)
    requires Effect(t, d, out, count) && d.tools == t.tools
    requires Starts(more) == [] && !OpensOther(more) && d'.tools == d.tools && d'.nextIndex == d.nextIndex
    ensures Effect(t, d', out + more, count)
  {
    StartsConcat(out, more);
    assert forall e :: e in out + more <==> e in out || e in more;
  }

  lemma DeliveryEffect(tool: PendingTool)
    ensures Starts(Delivery(tool)) == [tool.block] && !OpensOther(Delivery(tool))
  {
    var start, stop := BlockStart(tool.block, ToolUseBlock(tool.callId, tool.name)), BlockStop(tool.block);
    var middle := if tool.arguments == "" then [] else [BlockDelta(tool.block, InputJson(tool.arguments))];
    OneStart(start);
    OneStart(stop);
    StartsConcat([start], middle);
    StartsConcat([start] + middle, [stop]);
    if tool.arguments != "" {
      OneStart(middle[0]);
    }
  }

  lemma DeliveredFirstEffect(t: Translator)
    requires t.tools != []
    ensures var (d, out) := DeliveredFirst(t);
            Starts(out) == [t.tools[0].block] && !OpensOther(out) && d.tools == t.tools[1..] && d.nextIndex == t.nextIndex
  {
    var (c, out) := Closed(t.(tools := t.tools[1..]));
    ClosedEffect(t.(tools := t.tools[1..]));
    DeliveryEffect(t.tools[0]);
    StartsConcat(out, Delivery(t.tools[0]));
    assert forall e :: e in out + Delivery(t.tools[0]) <==> e in out || e in Delivery(t.tools[0]);
  }

  /** Delivering moves blocks from the front of the waiting list to the end of the starts. */
  ghost predicate Moved(t: Translator, d: Translator, out: seq<WireEvent>) {
    Starts(out) + Blocks(d.tools) == Blocks(t.tools) && !OpensOther(out) && d.nextIndex == t.nextIndex
  }

  lemma MovedMore(t: Translator, d: Translator, out: seq<WireEvent>, d': Translator, more: seq<WireEvent>)
    requires t.tools != [] && Starts(out) == [t.tools[0].block] && !OpensOther(out)
    requires d.tools == t.tools[1..] && d.nextIndex == t.nextIndex
    requires Moved(d, d', more)
    ensures Moved(t, d', out + more)
  {
    StartsConcat(out, more);
    BlocksCons(t.tools);
    OpensEither(out, more);
    assert [t.tools[0].block] + Starts(more) + Blocks(d'.tools) == [t.tools[0].block] + (Starts(more) + Blocks(d'.tools));
  }

  lemma BlocksCons(tools: seq<PendingTool>)
    requires tools != []
    ensures Blocks(tools) == [tools[0].block] + Blocks(tools[1..])
  {
  }

  lemma {:induction false} DeliveredFinishedMoved(t: Translator)
    ensures var (d, out) := DeliveredFinished(t); Moved(t, d, out)
    decreases |t.tools|
  {
    if t.tools == [] || !t.tools[0].ended {
    } else {
      var (d, out) := DeliveredFirst(t);
      DeliveredFirstEffect(t);
      DeliveredFinishedMoved(d);
      MovedMore(t, d, out, DeliveredFinished(d).0, DeliveredFinished(d).1);
    }
  }

  lemma {:induction false} DeliveredAllMoved(t: Translator)
    ensures var (d, out) := DeliveredAll(t); Moved(t, d, out) && d.tools == []
    decreases |t.tools|
  {
    if t.tools == [] {
    } else {
      var (d, out) := DeliveredFirst(t);
      DeliveredFirstEffect(t);
      DeliveredAllMoved(d);
      MovedMore(t, d, out, DeliveredAll(d).0, DeliveredAll(d).1);
    }
  }

  lemma {:induction false} RedactedEffect(t: Translator, blocks: seq<Json>)
    ensures var (d, out) := Redacted(t, blocks);
            var count := RedactedCount(blocks);
            && Starts(out) == Range(t.nextIndex, count) && d.tools == t.tools
            && d.nextIndex == t.nextIndex + count && (OpensOther(out) <==> count > 0)
    decreases |blocks|
  {
    if blocks == [] {
    } else {
      hide RedactedOne, OpensOther, Starts;
      var (c, out) := RedactedOne(t, blocks[0]);
      RedactedOneEffect(t, blocks[0]);
      RedactedEffect(c, blocks[1..]);
      var more := Redacted(c, blocks[1..]).1;
      StartsConcat(out, more);
      OpensEither(out, more);
      RangeSplit(t.nextIndex, if IsRedacted(blocks[0]) then 1 else 0, RedactedCount(blocks[1..]));
    }
  }

  lemma RangeSplit(from: nat, a: nat, b: nat)
    ensures Range(from, a + b) == Range(from, a) + Range(from + a, b)
  {
  }

  lemma OpensEither(a: seq<WireEvent>, b: seq<WireEvent>)
    ensures OpensOther(a + b) <==> OpensOther(a) || OpensOther(b)
  {
    assert forall e :: e in a + b <==> e in a || e in b;
  }

  lemma RedactedOneEffect(t: Translator, block: Json)
    ensures var (c, out) := RedactedOne(t, block);
            var count := if IsRedacted(block) then 1 else 0;
            && Starts(out) == Range(t.nextIndex, count) && c.tools == t.tools
            && c.nextIndex == t.nextIndex + count && (OpensOther(out) <==> count > 0)
  {
    if IsRedacted(block) {
      var s := t.(nextIndex := t.nextIndex + 1);
      ClosedEffect(s);
      WithRawPair(Closed(s).1, t.nextIndex, block);
    }
  }

  lemma WithRawPair(out: seq<WireEvent>, i: nat, block: Json)
    requires Starts(out) == []
    ensures var all := out + [BlockStart(i, RawBlock(block)), BlockStop(i)]; Starts(all) == Range(i, 1) && OpensOther(all)
  {
    var pair := [BlockStart(i, RawBlock(block)), BlockStop(i)];
    RawPairStarts(i, block);
    StartsConcat(out, pair);
    OpensEither(out, pair);
    assert Range(i, 1) == [i];
  }

  lemma RawPairStarts(i: nat, block: Json)
    ensures var pair := [BlockStart(i, RawBlock(block)), BlockStop(i)]; Starts(pair) == [i] && OpensOther(pair)
  {
    var start, stop := BlockStart(i, RawBlock(block)), BlockStop(i);
    assert [start, stop] == [start] + [stop] && start in [start, stop];
    OneStart(start);
    OneStart(stop);
    StartsConcat([start], [stop]);
  }

  lemma TextPushedEffect(t: Translator, delta: string)
    ensures var (d, out) := TextPushed(t, delta); Effect(t, d, out, if IsOpen(t, TextKind) then 0 else 1)
  {
    hide Effect;
    var count := if IsOpen(t, TextKind) then 0 else 1;
    var (o, out) := EnsuredOpen(t, TextKind);
    EnsuredEffect(t, TextKind);
    var (f, emitted) := Filtered(o.text, delta);
    var piece := Piece(o.open.value.index, emitted);
    if emitted != "" {
      OneStart(piece[0]);
    }
    EffectMore(t, o, out, count, o.(text := f), piece);
    if f.stopped.Some? {
      var s := o.(text := f, stoppedBy := f.stopped);
      ClosedEffect(s);
      EffectMore(t, o.(text := f), out + piece, count, Closed(s).0, Closed(s).1);
    }
  }

  lemma ToolEventEffect(t: Translator, event: ModelEvent)
    requires !t.finished && t.stoppedBy.None?
    requires event.ToolCallStart? || event.ToolCallArgumentsDelta? || event.ToolCallEnd?
    ensures var (d, out) := Pushed(t, event); Effect(t, d, out, 0)
  {
    match event
    case ToolCallStart(index, callId, name) =>
      assert Blocks(t.tools + [PendingTool(t.nextIndex, index, callId, name, "", false)]) == Blocks(t.tools) + [t.nextIndex];
    case ToolCallArgumentsDelta(index, delta) => BufferedKeepsBlocks(t, index, delta);
    case ToolCallEnd(index) =>
      BufferedKeepsBlocks(t, index, "");
      DeliveredFinishedMoved(Marked(t, index));
  }

  lemma EndStarts(delta: WireEvent)
    requires delta.MessageDelta?
    ensures Starts([delta, MessageStop]) == [] && !OpensOther([delta, MessageStop])
  {
    OneStart(delta);
    OneStart(MessageStop);
    assert [delta] + [MessageStop] == [delta, MessageStop];
    StartsConcat([delta], [MessageStop]);
  }

  lemma FinishedMoved(t: Translator)
    requires !t.finished
    ensures var (d, out) := Finished(t); Moved(t, d, out) && d.tools == []
  {
    var s := t.(finished := true);
    var (d, delivered) := DeliveredAll(s);
    DeliveredAllMoved(s);
    var (c, closing) := Closed(d);
    ClosedEffect(d);
    var delta := MessageDelta(ReasonOf(c.finish, c.stoppedBy), c.stoppedBy, UsageOf(c.usage));
    EndStarts(delta);
    StartsConcat(delivered, closing);
    OpensEither(delivered, closing);
    StartsConcat(delivered + closing, [delta, MessageStop]);
    OpensEither(delivered + closing, [delta, MessageStop]);
  }

  lemma StepEffect(t: Translator, op: Op)
    ensures var (d, out) := Step(t, op); Effect(t, d, out, NewBlocks(t, op))
  {
    hide Pushed;
    match op
    case Finish =>
      if !t.finished {
        FinishedMoved(t);
      }
    case Fail(kind, message) => OneStart(ErrorEvent(kind, message));
    case Push(event) =>
      if !t.finished {
        PushedEffect(t, event);
      } else {
        SilentAfterEnd(t, op);
      }
  }

  /** The guard says what the output shows. */
  lemma OpensMeaning(t: Translator, op: Op)
    ensures OpensOther(Step(t, op).1) <==> Opens(t, op)
  {
    hide Step;
    StepEffect(t, op);
  }

  lemma PushedEffect(t: Translator, event: ModelEvent)
    requires !t.finished
    ensures var (d, out) := Pushed(t, event); Effect(t, d, out, NewBlocks(t, Push(event)))
  {
    hide Redacted;
    if event.ProviderReplayState? {
      RedactedEffect(t, ReplayBlocks(event.providerKind, event.value));
    } else if t.stoppedBy.None? {
      if event.ToolCallStart? || event.ToolCallArgumentsDelta? || event.ToolCallEnd? {
        ToolEventEffect(t, event);
      } else {
        ContentEventEffect(t, event);
      }
    }
  }

  lemma ThinkingEffect(t: Translator, delta: string)
    requires !t.finished && t.stoppedBy.None?
    ensures var (d, out) := Pushed(t, ThinkingDelta(delta)); Effect(t, d, out, if IsOpen(t, ThinkingKind) then 0 else 1)
  {
    hide Effect;
    var (o, out) := EnsuredOpen(t, ThinkingKind);
    EnsuredEffect(t, ThinkingKind);
    OneStart(BlockDelta(o.open.value.index, Thinking(delta)));
    EffectMore(t, o, out, if IsOpen(t, ThinkingKind) then 0 else 1, o, [BlockDelta(o.open.value.index, Thinking(delta))]);
  }

  lemma ContentEventEffect(t: Translator, event: ModelEvent)
    requires !t.finished && t.stoppedBy.None?
    requires !event.ToolCallStart? && !event.ToolCallArgumentsDelta? && !event.ToolCallEnd? && !event.ProviderReplayState?
    ensures var (d, out) := Pushed(t, event); Effect(t, d, out, NewBlocks(t, Push(event)))
  {
    hide TextPushed, Opened;
    ClosedEffect(t);
    match event
    case TextStart => OpenedEffect(t, TextKind);
    case TextDelta(delta) => TextPushedEffect(t, delta);
    case ThinkingStart => OpenedEffect(t, ThinkingKind);
    case ThinkingDelta(delta) => ThinkingEffect(t, delta);
    case ThinkingSignature(signature) =>
      if t.open.Some? {
        OneStart(BlockDelta(t.open.value.index, Signature(signature)));
      }
    case StopSequence(sequence) => ClosedEffect(t.(stoppedBy := Some(sequence)));
    case _ =>
  }

  ghost predicate Below(n: nat, s: seq<nat>) {
    forall i | 0 <= i < |s| :: s[i] < n
  }

  /** Larger indices placed before waiting ones spoil the order for good; at the end they do not. */
  lemma InsertedOrder(before: seq<nat>, n: nat, count: nat, waiting: seq<nat>)
    requires Below(n, before + waiting)
    ensures Below(n + count, before + Range(n, count) + waiting)
    ensures Ascending(before + Range(n, count) + waiting) <==> Ascending(before + waiting) && (count > 0 ==> waiting == [])
  {
    var was, now := before + waiting, before + Range(n, count) + waiting;
    var b := |before|;
    assert forall i | 0 <= i < b :: now[i] == was[i];
    assert forall i | b <= i < b + count :: now[i] == n + (i - b);
    assert forall i | b + count <= i < |now| :: now[i] == was[i - count];
    assert count > 0 && waiting != [] ==> now[b] == n && now[b + count] == was[b] < n;
    if Ascending(now) {
      forall i, j | 0 <= i < j < |was|
        ensures was[i] < was[j]
      {
        var i', j' := if i < b then i else i + count, if j < b then j else j + count;
        assert now[i'] < now[j'];
      }
    }
  }

  lemma EffectOrder(t: Translator, before: seq<nat>, d: Translator, out: seq<WireEvent>, count: nat)
    requires Effect(t, d, out, count) && Below(t.nextIndex, before + Blocks(t.tools))
    ensures Below(d.nextIndex, before + Starts(out) + Blocks(d.tools))
    ensures Ascending(before + Starts(out) + Blocks(d.tools)) <==>
            Ascending(before + Blocks(t.tools)) && (count > 0 ==> t.tools == [])
  {
    if Starts(out) == Range(t.nextIndex, count) && Blocks(d.tools) == Blocks(t.tools) {
      InsertedOrder(before, t.nextIndex, count, Blocks(t.tools));
    } else if Blocks(d.tools) == Blocks(t.tools) + [t.nextIndex] {
      InsertedOrder(before + Blocks(t.tools), t.nextIndex, 1, []);
      assert before + Blocks(t.tools) + [] == before + Blocks(t.tools);
      assert before + Blocks(t.tools) + Range(t.nextIndex, 1) + [] == before + [] + Blocks(d.tools);
    } else {
      assert before + Starts(out) + Blocks(d.tools) == before + Blocks(t.tools);
    }
  }

  lemma {:induction false} SessionOrder(sequences: seq<string>, ops: seq<Op>)
    ensures var (t, out) := Session(NewTranslator(sequences), ops);
            && Below(t.nextIndex, Starts(out) + Blocks(t.tools))
            && (Ascending(Starts(out) + Blocks(t.tools)) <==> Orderly(NewTranslator(sequences), ops))
  {
    if ops == [] {
      assert Blocks([]) == [];
    } else {
      var init, last := ops[..|ops| - 1], ops[|ops| - 1];
      SessionOrder(sequences, init);
      var (t, out) := Session(NewTranslator(sequences), init);
      var (d, more) := Step(t, last);
      StepEffect(t, last);
      EffectOrder(t, Starts(out), d, more, NewBlocks(t, last));
      StartsConcat(out, more);
    }
  }

  /** An ascending list in which each of 0..n occurs once is 0, 1, 2, …. */
  lemma {:induction false} AscendingOnce(n: nat, s: seq<nat>)
    requires Once(n, s, []) && Ascending(s)
    ensures s == Range(0, n)
  {
    hide Once;
    if n == 0 {
      OnceIn(n, s);
      FirstIsIn(s);
    } else {
      OnceIn(n, s);
      LastIsLargest(n - 1, s);
      var init := s[..|s| - 1];
      assert s == init + [n - 1];
      OnceWithout(n - 1, init);
      AscendingOnce(n - 1, init);
    }
  }

  lemma FirstIsIn(s: seq<nat>)
    ensures s == [] || s[0] in s
  {
  }

  lemma OnceIn(n: nat, s: seq<nat>)
    requires Once(n, s, [])
    ensures forall i: nat :: i in s <==> i < n
  {
    forall i: nat
      ensures i in s <==> i < n
    {
      assert multiset(s)[i] > 0 <==> i in s;
    }
  }

  lemma LastIsLargest(m: nat, s: seq<nat>)
    requires Ascending(s) && m in s && forall i | i in s :: i <= m
    ensures s[|s| - 1] == m
  {
    hide Once;
    var k :| 0 <= k < |s| && s[k] == m;
    assert s[|s| - 1] in s;
  }

  lemma OnceWithout(n: nat, init: seq<nat>)
    requires Once(n + 1, init + [n], [])
    ensures Once(n, init, [])
  {
    forall i: nat
      ensures multiset(init)[i] + multiset([])[i] == if i < n then 1 else 0
    {
      assert multiset(init + [n])[i] == multiset(init)[i] + multiset([n])[i];
      assert multiset(init + [n])[i] + multiset([])[i] == if i < n + 1 then 1 else 0;
    }
  }

  /** The main result: the starts of a complete message are 0, 1, 2, … exactly for orderly sessions. */
  lemma StartsInOrderIffOrderly(start: WireEvent, sequences: seq<string>, ops: seq<Op>)
    requires start.MessageStart? && NonEmpty(sequences) && Legal(ops) && Ends(ops) && !Fails(ops)
    ensures var (t, out) := Session(NewTranslator(sequences), ops);
            Starts(out) == Range(0, t.nextIndex) <==> Orderly(NewTranslator(sequences), ops)
  {
    var (t, out) := Session(NewTranslator(sequences), ops);
    SessionIsWellFormed(start, sequences, ops);
    ReaderStarts(Read(NEW_READER, start), out);
    assert [] + Starts(out) == Starts(out);
    SessionOrder(sequences, ops);
    NothingWaits(start, sequences, ops);
    assert Starts(out) + Blocks([]) == Starts(out);
    InOrderIffAscending(t.nextIndex, Starts(out));
  }

  /** A text block opened between the start and the end of a call takes index 1 before the call takes index 0. */
  lemma DisorderIsPossible(start: WireEvent, sequences: seq<string>)
    requires start.MessageStart? && NonEmpty(sequences)
    ensures var ops := [Push(ToolCallStart(0, "c", "n")), Push(TextStart), Finish];
            var (t, out) := Session(NewTranslator(sequences), ops);
            !Orderly(NewTranslator(sequences), ops) && Starts(out) != Range(0, t.nextIndex)
  {
    var ops := [Push(ToolCallStart(0, "c", "n")), Push(TextStart), Finish];
    var t := NewTranslator(sequences);
    assert ops[..2][..1] == [ops[0]] && ops[..1] == [ops[0]] && ops[..1][..0] == [] && ops[..3] == ops && ops[..2] == [ops[0], ops[1]];
    assert Session(t, [ops[0]]).0 == Pushed(t, ops[0].event).0;
    assert Opens(Session(t, [ops[0]]).0, ops[1]);
    assert !Orderly(t, [ops[0], ops[1]]) by {
      assert [ops[0], ops[1]][..1] == [ops[0]];
    }
    assert ops[2] == Finish && forall j | 0 <= j < |ops| :: !ops[j].Fail?;
    StartsInOrderIffOrderly(start, sequences, ops);
  }

  lemma InOrderIffAscending(n: nat, s: seq<nat>)
    requires Once(n, s, [])
    ensures s == Range(0, n) <==> Ascending(s)
  {
    if Ascending(s) {
      AscendingOnce(n, s);
    }
  }

  lemma {:induction false} NothingWaits(start: WireEvent, sequences: seq<string>, ops: seq<Op>)
    requires start.MessageStart? && NonEmpty(sequences) && Legal(ops) && Ends(ops) && !Fails(ops)
    ensures Session(NewTranslator(sequences), ops).0.tools == []
  {
    var init, last := ops[..|ops| - 1], ops[|ops| - 1];
    assert ops == init + [last];
    LastOp(init, last);
    SessionReached(start, sequences, init);
    var t := Session(NewTranslator(sequences), init).0;
    if Ends(init) {
      NothingWaits(start, sequences, init);
    } else {
      DeliveredAllMoved(t.(finished := true));
    }
  }
}
