/**
 The assembled document against the stream itself: entry i is the block streamed with
 index i, its text the concatenation of its deltas, its tool input the parse of its full
 arguments.
 */
module Refinement {
  import opened Wrappers
  import opened Events
  import opened StopMatching
  import opened Protocol
  import opened ProtocolProof
  import opened Translation
  import opened Sessions
  import opened Assembly

  function DeltasTo(trace: seq<WireEvent>, i: nat): seq<Delta> {
    if trace == [] then []
    else
      var e := trace[|trace| - 1];
      DeltasTo(trace[..|trace| - 1], i) + if e.BlockDelta? && e.index == i then [e.delta] else []
  }

  /** The block sent under index `i`. */
  function SentAt(trace: seq<WireEvent>, i: nat): Option<ContentBlock> {
    if trace == [] then None
    else
      var e := trace[|trace| - 1];
      if e.BlockStart? && e.index == i then Some(e.block) else SentAt(trace[..|trace| - 1], i)
  }

  function TextIn(deltas: seq<Delta>): string {
    if deltas == [] then ""
    else
      var d := deltas[|deltas| - 1];
      TextIn(deltas[..|deltas| - 1]) + if d.Text? then d.text else ""
  }

  function ThinkingIn(deltas: seq<Delta>): string {
    if deltas == [] then ""
    else
      var d := deltas[|deltas| - 1];
      ThinkingIn(deltas[..|deltas| - 1]) + if d.Thinking? then d.thinking else ""
  }

  function ArgumentsIn(deltas: seq<Delta>): string {
    if deltas == [] then ""
    else
      var d := deltas[|deltas| - 1];
      ArgumentsIn(deltas[..|deltas| - 1]) + if d.InputJson? then d.partial else ""
  }

  /** The last signature counts. */
  function SignatureIn(deltas: seq<Delta>): Option<string> {
    if deltas == [] then None
    else
      var d := deltas[|deltas| - 1];
      if d.Signature? then Some(d.signature) else SignatureIn(deltas[..|deltas| - 1])
  }

  function Field(text: string): Option<string> {
    if text == "" then None else Some(text)
  }

  /** A block with everything the stream says about it, but the tool input. */
  function Written(sent: ContentBlock, deltas: seq<Delta>): Block {
    Block(sent, Field(TextIn(deltas)), Field(ThinkingIn(deltas)), SignatureIn(deltas), None)
  }

  /** The whole streamed block; a tool without argument text keeps the empty input it was sent with. */
  function Streamed(trace: seq<WireEvent>, i: nat, parse: Parser): Option<Block> {
    Completed(SentAt(trace, i), DeltasTo(trace, i), parse)
  }

  function Completed(sent: Option<ContentBlock>, deltas: seq<Delta>, parse: Parser): Option<Block> {
    match sent
    case None => None
    case Some(sent) =>
      if ArgumentsIn(deltas) == "" then Some(Written(sent, deltas))
      else
        match parse(ArgumentsIn(deltas))
        case None => None
        case input => Some(Written(sent, deltas).(input := input))
  }

  /** The argument text of block `i` is there and is not a JSON object. */
  predicate Unreadable(trace: seq<WireEvent>, i: nat, parse: Parser) {
    var arguments := ArgumentsIn(DeltasTo(trace, i));
    arguments != "" && parse(arguments).None?
  }

  ghost predicate BadArguments(trace: seq<WireEvent>, stopped: seq<nat>, parse: Parser) {
    exists i | i in stopped :: Unreadable(trace, i, parse)
  }

  predicate Open(r: Reader, i: nat) {
    r.phase.InBlock? && r.phase.index == i
  }

  /** What a client has read hangs together. */
  ghost predicate Sane(r: Reader) {
    && (forall i | i in r.stopped :: i in r.started && !Open(r, i))
    && (r.phase.InBlock? ==> r.phase.index in r.started)
    && (forall i | i in r.started && !Open(r, i) :: i in r.stopped)
  }

  lemma SaneStep(r: Reader, e: WireEvent)
    requires Sane(r) && Read(r, e).phase != Broken && Read(r, e).phase != Errored
    ensures Sane(Read(r, e))
  {
  }

  datatype Stage = Unstarted | Running(block: ContentBlock) | Stopped

  function StageOf(r: Reader, i: nat): Stage {
    if i !in r.started then Unstarted else if Open(r, i) then Running(r.phase.block) else Stopped
  }

  /** A document's block against what was streamed under its index; arguments wait for the end of the block. */
  ghost predicate Matches(stage: Stage, sent: Option<ContentBlock>, deltas: seq<Delta>, parse: Parser, block: Option<Block>, partial: Option<string>) {
    match stage
    case Unstarted => block.None? && partial.None? && deltas == []
    case Running(b) =>
      && block == Some(Written(b, deltas)) && sent == Some(b)
      && (b.RawBlock? ==> deltas == [])
      && (b.ToolUseBlock? || ArgumentsIn(deltas) == "")
      && partial == Field(ArgumentsIn(deltas))
    case Stopped => partial.None? && block.Some? && Completed(sent, deltas, parse) == block
  }

  ghost predicate BlockFollows(a: Assembler, trace: seq<WireEvent>, r: Reader, parse: Parser, i: nat) {
    Matches(StageOf(r, i), SentAt(trace, i), DeltasTo(trace, i), parse, Lookup(a.blocks, i), Lookup(a.partialJson, i))
  }

  ghost predicate Follows(a: Assembler, trace: seq<WireEvent>, r: Reader, parse: Parser) {
    forall i :: BlockFollows(a, trace, r, parse, i)
  }

  lemma Unfold(trace: seq<WireEvent>, e: WireEvent, i: nat)
    ensures DeltasTo(trace + [e], i) == DeltasTo(trace, i) + if e.BlockDelta? && e.index == i then [e.delta] else []
    ensures SentAt(trace + [e], i) == if e.BlockStart? && e.index == i then Some(e.block) else SentAt(trace, i)
    ensures !(e.BlockDelta? && e.index == i) ==> DeltasTo(trace + [e], i) == DeltasTo(trace, i)
  {
    assert (trace + [e])[..|trace|] == trace;
  }

  lemma WrittenStep(sent: ContentBlock, deltas: seq<Delta>, d: Delta)
    requires !sent.RawBlock? && Fits(sent, d)
    ensures Written(sent, deltas + [d]) == WithDelta(Written(sent, deltas), d)
    ensures ArgumentsIn(deltas + [d]) == ArgumentsIn(deltas) + if d.InputJson? then d.partial else ""
  {
    assert (deltas + [d])[..|deltas|] == deltas;
    assert TextIn(deltas) + "" == TextIn(deltas) && ThinkingIn(deltas) + "" == ThinkingIn(deltas);
    assert ArgumentsIn(deltas) + "" == ArgumentsIn(deltas);
  }

  /** What one event means for block `i`. */
  predicate About(e: WireEvent, i: nat) {
    (e.BlockStart? || e.BlockDelta? || e.BlockStop?) && e.index == i
  }

  lemma StageStep(r: Reader, e: WireEvent, i: nat)
    requires r.phase.InBlock? ==> r.phase.index in r.started
    requires Read(r, e).phase != Broken && Read(r, e).phase != Errored
    ensures var (was, now) := (StageOf(r, i), StageOf(Read(r, e), i));
            if !About(e, i) then now == was
            else if e.BlockStart? then was == Unstarted && now == Running(e.block)
            else if e.BlockStop? then was.Running? && now == Stopped
            else was.Running? && now == was && Fits(was.block, e.delta)
  {
  }

  lemma AssembledElsewhere(a: Assembler, e: WireEvent, parse: Parser, b: Assembler, i: nat)
    requires Assembled(a, e, parse) == Some(b) && !About(e, i)
    ensures Lookup(b.blocks, i) == Lookup(a.blocks, i) && Lookup(b.partialJson, i) == Lookup(a.partialJson, i)
  {
  }

  lemma StartMatches(a: Assembler, trace: seq<WireEvent>, e: WireEvent, parse: Parser, b: Assembler)
    requires e.BlockStart? && Assembled(a, e, parse) == Some(b)
    requires Matches(Unstarted, SentAt(trace, e.index), DeltasTo(trace, e.index), parse, Lookup(a.blocks, e.index), Lookup(a.partialJson, e.index))
    ensures Matches(Running(e.block), SentAt(trace + [e], e.index), DeltasTo(trace + [e], e.index), parse, Lookup(b.blocks, e.index), Lookup(b.partialJson, e.index))
  {
    Unfold(trace, e, e.index);
  }

  lemma DeltaMatches(a: Assembler, trace: seq<WireEvent>, e: WireEvent, block: ContentBlock, parse: Parser, b: Assembler)
    requires e.BlockDelta? && Assembled(a, e, parse) == Some(b) && Fits(block, e.delta)
    requires Matches(Running(block), SentAt(trace, e.index), DeltasTo(trace, e.index), parse, Lookup(a.blocks, e.index), Lookup(a.partialJson, e.index))
    ensures Matches(Running(block), SentAt(trace + [e], e.index), DeltasTo(trace + [e], e.index), parse, Lookup(b.blocks, e.index), Lookup(b.partialJson, e.index))
  {
    hide SentAt, DeltasTo, ArgumentsIn, Written;
    Unfold(trace, e, e.index);
    var deltas := DeltasTo(trace, e.index);
    WrittenStep(block, deltas, e.delta);
    if e.delta.InputJson? {
      assert WithDelta(Written(block, deltas), e.delta) == Written(block, deltas);
      assert "" + e.delta.partial == e.delta.partial;
    } else {
      assert ArgumentsIn(deltas) + "" == ArgumentsIn(deltas);
    }
  }

  lemma StopMatches(a: Assembler, trace: seq<WireEvent>, e: WireEvent, block: ContentBlock, parse: Parser, b: Assembler)
    requires e.BlockStop? && Assembled(a, e, parse) == Some(b)
    requires Matches(Running(block), SentAt(trace, e.index), DeltasTo(trace, e.index), parse, Lookup(a.blocks, e.index), Lookup(a.partialJson, e.index))
    ensures Matches(Stopped, SentAt(trace + [e], e.index), DeltasTo(trace + [e], e.index), parse, Lookup(b.blocks, e.index), Lookup(b.partialJson, e.index))
  {
    hide SentAt, DeltasTo, ArgumentsIn;
    Unfold(trace, e, e.index);
  }

  lemma BlockStep(a: Assembler, trace: seq<WireEvent>, r: Reader, e: WireEvent, parse: Parser, b: Assembler, i: nat)
    requires BlockFollows(a, trace, r, parse, i)
    requires r.phase.InBlock? ==> r.phase.index in r.started
    requires Read(r, e).phase != Broken && Read(r, e).phase != Errored
    requires Assembled(a, e, parse) == Some(b)
    ensures BlockFollows(b, trace + [e], Read(r, e), parse, i)
  {
    hide Matches, Read, Assembled, SentAt, DeltasTo, StageOf;
    StageStep(r, e, i);
    if !About(e, i) {
      Unfold(trace, e, i);
      AssembledElsewhere(a, e, parse, b, i);
    } else if e.BlockStart? {
      StartMatches(a, trace, e, parse, b);
    } else if e.BlockDelta? {
      DeltaMatches(a, trace, e, StageOf(r, i).block, parse, b);
    } else {
      StopMatches(a, trace, e, StageOf(r, i).block, parse, b);
    }
  }

  lemma FollowsStep(a: Assembler, trace: seq<WireEvent>, r: Reader, e: WireEvent, parse: Parser, b: Assembler)
    requires Follows(a, trace, r, parse)
    requires Sane(r) && Read(r, e).phase != Broken && Read(r, e).phase != Errored
    requires Assembled(a, e, parse) == Some(b)
    ensures Follows(b, trace + [e], Read(r, e), parse)
  {
    hide BlockFollows, Read, Assembled;
    forall i: nat
      ensures BlockFollows(b, trace + [e], Read(r, e), parse, i)
    {
      BlockStep(a, trace, r, e, parse, b, i);
    }
  }

  /** The fold gives up only at the end of a block with unreadable arguments. */
  lemma FailStep(a: Assembler, trace: seq<WireEvent>, r: Reader, e: WireEvent, parse: Parser)
    requires Follows(a, trace, r, parse) && Sane(r)
    requires Read(r, e).phase != Broken && Assembled(a, e, parse).None?
    ensures BadArguments(trace + [e], Read(r, e).stopped, parse)
  {
    var i := e.index;
    assert BlockFollows(a, trace, r, parse, i);
    Unfold(trace, e, i);
    FailsHere(a, e, parse);
    StageStep(r, e, i);
    assert Unreadable(trace + [e], i, parse) && i in Read(r, e).stopped;
  }

  lemma FailsHere(a: Assembler, e: WireEvent, parse: Parser)
    requires Assembled(a, e, parse).None?
    ensures e.BlockStop? && Lookup(a.partialJson, e.index).Some? && parse(a.partialJson[e.index]).None?
  {
  }

  lemma StoppedStays(r: Reader, e: WireEvent, i: nat)
    requires i in r.stopped && !Open(r, i) && Read(r, e).phase != Broken
    ensures i in Read(r, e).stopped && !(e.BlockDelta? && e.index == i)
  {
  }

  lemma StillBad(trace: seq<WireEvent>, r: Reader, e: WireEvent, parse: Parser)
    requires Sane(r) && BadArguments(trace, r.stopped, parse)
    requires Read(r, e).phase != Broken
    ensures BadArguments(trace + [e], Read(r, e).stopped, parse)
  {
    hide Read, DeltasTo;
    var i :| i in r.stopped && Unreadable(trace, i, parse);
    StoppedStays(r, e, i);
    Unfold(trace, e, i);
    assert i in Read(r, e).stopped;
  }

  /** The fold follows every well-formed stream until it meets unreadable arguments. */
  lemma {:induction false} DocumentFollows(trace: seq<WireEvent>, parse: Parser)
    requires ReadAll(NEW_READER, trace).phase != Broken && ReadAll(NEW_READER, trace).phase != Errored
    ensures var r := ReadAll(NEW_READER, trace);
            && Sane(r)
            && match AssembleAll(NEW_ASSEMBLER, trace, parse)
               case None => BadArguments(trace, r.stopped, parse)
               case Some(a) => Follows(a, trace, r, parse)
  {
    if trace == [] {
    } else {
      var init, e := trace[..|trace| - 1], trace[|trace| - 1];
      var r := ReadAll(NEW_READER, init);
      assert trace == init + [e];
      DocumentFollows(init, parse);
      SaneStep(r, e);
      var before := AssembleAll(NEW_ASSEMBLER, init, parse);
      if before.None? {
        StillBad(init, r, e, parse);
      } else {
        var after := Assembled(before.value, e, parse);
        if after.None? {
          FailStep(before.value, init, r, e, parse);
        } else {
          FollowsStep(before.value, init, r, e, parse, after.value);
        }
      }
    }
  }

  /** The whole non-streaming answer: the session's events, folded. `None` is the upstream protocol error. */
  function Response(start: WireEvent, sequences: seq<string>, events: seq<ModelEvent>, parse: Parser): Option<Assembler> {
    AssembleAll(NEW_ASSEMBLER, [start] + Session(NewTranslator(sequences), Pushes(events) + [Finish]).1, parse)
  }

  /**
   For every event list: the fold fails exactly when some delivered argument text is not a
   JSON object; otherwise the document has one block per reserved index, and block i is the
   one streamed under index i.
   */
  lemma ResponseIsStreamed(start: WireEvent, sequences: seq<string>, events: seq<ModelEvent>, parse: Parser)
    requires start.MessageStart? && NonEmpty(sequences)
    ensures var (t, out) := Session(NewTranslator(sequences), Pushes(events) + [Finish]);
            var trace := [start] + out;
            match Response(start, sequences, events, parse)
            case None => exists i: nat | i < t.nextIndex :: Unreadable(trace, i, parse)
            case Some(a) =>
              && (forall i: nat | i < t.nextIndex :: !Unreadable(trace, i, parse))
              && (forall i: nat :: i in a.blocks <==> i < t.nextIndex)
              && |Content(a.blocks, t.nextIndex)| == t.nextIndex
              && forall i | 0 <= i < t.nextIndex :: Streamed(trace, i, parse) == Some(Content(a.blocks, t.nextIndex)[i])
  {
    var (t, out) := Session(NewTranslator(sequences), Pushes(events) + [Finish]);
    var trace := [start] + out;
    var r := ReadAll(NEW_READER, trace);
    ResponseReads(start, sequences, events);
    DocumentFollows(trace, parse);
    var response := Response(start, sequences, events, parse);
    if response.Some? {
      DocumentIsStreamed(response.value, trace, r, parse, t.nextIndex);
    } else {
      OnceMeaning(t.nextIndex, r.started);
    }
  }

  lemma DocumentIsStreamed(a: Assembler, trace: seq<WireEvent>, r: Reader, parse: Parser, n: nat)
    requires Follows(a, trace, r, parse) && Complete(r, n)
    ensures forall i: nat | i < n :: !Unreadable(trace, i, parse)
    ensures forall i: nat :: i in a.blocks <==> i < n
    ensures |Content(a.blocks, n)| == n
    ensures forall i | 0 <= i < n :: Streamed(trace, i, parse) == Some(Content(a.blocks, n)[i])
  {
    OnceMeaning(n, r.started);
    forall i: nat
      ensures i in a.blocks <==> i < n
      ensures i < n ==> !Unreadable(trace, i, parse) && Streamed(trace, i, parse) == Some(a.blocks[i])
    {
      SettledBlock(a, trace, r, parse, n, i);
    }
    ContentOfRange(a.blocks, n);
  }

  lemma SettledBlock(a: Assembler, trace: seq<WireEvent>, r: Reader, parse: Parser, n: nat, i: nat)
    requires BlockFollows(a, trace, r, parse, i) && !Open(r, i) && (i in r.started <==> i < n)
    ensures i in a.blocks <==> i < n
    ensures i < n ==> !Unreadable(trace, i, parse) && Streamed(trace, i, parse) == Some(a.blocks[i])
  {
  }

  /** A finished session is read to its end. */
  lemma ResponseReads(start: WireEvent, sequences: seq<string>, events: seq<ModelEvent>)
    requires start.MessageStart? && NonEmpty(sequences)
    ensures var (t, out) := Session(NewTranslator(sequences), Pushes(events) + [Finish]);
            Complete(ReadAll(NEW_READER, [start] + out), t.nextIndex)
  {
    var ops := Pushes(events) + [Finish];
    var (t, out) := Session(NewTranslator(sequences), ops);
    assert !ops[|events|].Push? && forall i | 0 <= i < |events| :: ops[i].Push?;
    SessionIsWellFormed(start, sequences, ops);
    ReadConcat(NEW_READER, [start], out);
    ReadOne(NEW_READER, start);
  }

  lemma OnceMeaning(n: nat, started: seq<nat>)
    requires Once(n, started, [])
    ensures forall i: nat :: i in started <==> i < n
  {
    forall i: nat
      ensures i in started <==> i < n
    {
      assert multiset(started)[i] > 0 <==> i in started;
    }
  }
}
