/** What whole sessions of the response translator guarantee to a client. */
module Sessions {
  import opened Wrappers
  import opened JsonValues
  import opened Events
  import opened StopMatching
  import opened Translation
  import opened Protocol
  import opened ProtocolProof

  /** A failure is reported at most once, and not after the end. */
  ghost predicate Legal(ops: seq<Op>) {
    forall i, j | 0 <= i < j < |ops| && ops[j].Fail? :: ops[i].Push?
  }

  /** A complete message: every index below `n` was started once and stopped once, tools in ascending order. */
  ghost predicate Complete(r: Reader, n: nat) {
    && r.phase == Ended
    && r.stopped == r.started
    && Once(n, r.started, [])
    && Ascending(r.toolStarts)
  }

  /** No stop sequence in any text block, finished, still open or cut off. */
  ghost predicate CleanTexts(r: Reader, sequences: seq<string>) {
    (forall x | x in r.texts :: Clean(x, sequences)) && Clean(r.current, sequences)
  }

  ghost predicate Reached(t: Translator, r: Reader, failed: bool) {
    if !t.finished then Linked(t, r) && !failed
    else CleanTexts(r, t.text.sequences) && if failed then r.phase == Errored else Complete(r, t.nextIndex)
  }

  lemma ReadEnd(r: Reader, delta: WireEvent)
    requires r.phase == Idle && delta.MessageDelta?
    ensures ReadAll(r, [delta, MessageStop]) == r.(phase := Ended)
  {
    ReadOne(r, delta);
    ReadSnoc(r, [delta], MessageStop);
    assert [delta] + [MessageStop] == [delta, MessageStop];
  }

  lemma FinishedCompletes(t: Translator, r: Reader)
    requires Linked(t, r) && !t.finished
    ensures var (d, out) := Finished(t);
            && d.finished && d.text.sequences == t.text.sequences
            && Complete(ReadAll(r, out), d.nextIndex) && CleanTexts(ReadAll(r, out), d.text.sequences)
  {
    var (d, delivered) := DeliveredAll(t.(finished := true));
    DeliveredAllLinked(t.(finished := true), r);
    var r1 := ReadAll(r, delivered);
    var (c, closing) := Closed(d);
    ClosedLinked(d, r1);
    var r2 := ReadAll(r1, closing);
    var last := MessageDelta(ReasonOf(c.finish, c.stoppedBy), c.stoppedBy, UsageOf(c.usage));
    ReadEnd(r2, last);
    ReadConcat(r, delivered, closing);
    ReadConcat(r, delivered + closing, [last, MessageStop]);
    EndsComplete(c, r2);
  }

  lemma EndsComplete(t: Translator, r: Reader)
    requires Linked(t, r) && t.open.None? && t.tools == []
    ensures Complete(r.(phase := Ended), t.nextIndex)
  {
    assert r.stopped == r.started;
    assert r.toolStarts + [] == r.toolStarts;
    assert Blocks(t.tools) == [];
  }

  /** After the end, `push` and `finish` produce nothing and change nothing. */
  lemma SilentAfterEnd(t: Translator, op: Op)
    requires t.finished && !op.Fail?
    ensures Step(t, op) == (t, [])
  {
  }

  lemma StepReached(t: Translator, r: Reader, failed: bool, op: Op)
    requires Reached(t, r, failed) && (t.finished ==> !op.Fail?)
    ensures var (d, out) := Step(t, op); Reached(d, ReadAll(r, out), failed || op.Fail?)
    ensures Step(t, op).0.finished == (t.finished || !op.Push?)
    ensures Step(t, op).0.text.sequences == t.text.sequences
  {
    if !t.finished {
      match op
      case Push(event) => PushedLinked(t, r, event);
      case Finish => FinishedCompletes(t, r);
      case Fail(kind, message) => ReadOne(r, ErrorEvent(kind, message));
    }
  }

  /** The reader after `message_start` and the whole output of a session. */
  function Client(start: WireEvent, sequences: seq<string>, ops: seq<Op>): Reader {
    ReadAll(Read(NEW_READER, start), Session(NewTranslator(sequences), ops).1)
  }

  ghost predicate Ends(ops: seq<Op>) {
    exists i | 0 <= i < |ops| :: !ops[i].Push?
  }

  ghost predicate Fails(ops: seq<Op>) {
    exists i | 0 <= i < |ops| :: ops[i].Fail?
  }

  lemma {:induction false} SessionReached(start: WireEvent, sequences: seq<string>, ops: seq<Op>)
    requires start.MessageStart? && NonEmpty(sequences) && Legal(ops)
    ensures var (t, _) := Session(NewTranslator(sequences), ops);
            && Reached(t, Client(start, sequences, ops), Fails(ops))
            && t.finished == Ends(ops) && t.text.sequences == sequences
  {
    var t0, r0 := NewTranslator(sequences), Read(NEW_READER, start);
    if ops == [] {
      assert Blocks([]) == [] && Linked(t0, r0);
    } else {
      var init, last := ops[..|ops| - 1], ops[|ops| - 1];
      SessionReached(start, sequences, init);
      var (t, out) := Session(t0, init);
      LastOp(init, last);
      assert init + [last] == ops;
      StepReached(t, ReadAll(r0, out), Fails(init), last);
      ReadConcat(r0, out, Step(t, last).1);
    }
  }

  lemma LastOp(init: seq<Op>, last: Op)
    ensures Fails(init + [last]) == (Fails(init) || last.Fail?)
    ensures Ends(init + [last]) == (Ends(init) || !last.Push?)
    ensures Legal(init + [last]) && Ends(init) ==> !last.Fail?
  {
    var ops := init + [last];
    assert ops[|init|] == last;
    assert forall i | 0 <= i < |init| :: ops[i] == init[i];
  }

  lemma {:induction false} BrokenStays(r: Reader, out: seq<WireEvent>)
    requires r.phase == Broken
    ensures ReadAll(r, out) == r
  {
    if out == [] {
    } else {
      BrokenStays(r, out[..|out| - 1]);
    }
  }

  /** A failure reported after the end breaks the stream for good; the texts stay as they were. */
  lemma {:induction false} IllegalBreaks(start: WireEvent, sequences: seq<string>, ops: seq<Op>)
    requires start.MessageStart? && NonEmpty(sequences) && !Legal(ops)
    ensures var r := Client(start, sequences, ops); r.phase == Broken && CleanTexts(r, sequences)
  {
    hide Step, CleanTexts, Linked, Reached, ReadAll;
    var init, last := ops[..|ops| - 1], ops[|ops| - 1];
    assert init + [last] == ops;
    var (t, out) := Session(NewTranslator(sequences), init);
    var r := ReadAll(Read(NEW_READER, start), out);
    ReadConcat(Read(NEW_READER, start), out, Step(t, last).1);
    if Legal(init) {
      IllegalLast(init, last);
      SessionReached(start, sequences, init);
      EndedThenFail(t, r, Fails(init), last);
    } else {
      IllegalBreaks(start, sequences, init);
      BrokenStays(r, Step(t, last).1);
    }
  }

  lemma IllegalLast(init: seq<Op>, last: Op)
    requires Legal(init) && !Legal(init + [last])
    ensures last.Fail? && Ends(init)
  {
    var ops := init + [last];
    var i, j :| 0 <= i < j < |ops| && ops[j].Fail? && !ops[i].Push?;
    assert j == |init| && init[i] == ops[i];
  }

  lemma EndedThenFail(t: Translator, r: Reader, failed: bool, last: Op)
    requires Reached(t, r, failed) && t.finished && last.Fail?
    ensures var now := ReadAll(r, Step(t, last).1); now.phase == Broken && (CleanTexts(r, t.text.sequences) ==> CleanTexts(now, t.text.sequences))
    ensures CleanTexts(r, t.text.sequences)
  {
    ReadOne(r, ErrorEvent(last.kind, last.message));
  }

  /**
   A session writes a well-formed stream if and only if it reports no failure after the end.
   In every session no text block contains a stop sequence, not even an unfinished one. A
   session that was finished, and did not fail, is a complete message: all reserved indices,
   tools included, were started exactly once and stopped exactly once.
   */
  lemma SessionIsWellFormed(start: WireEvent, sequences: seq<string>, ops: seq<Op>)
    requires start.MessageStart? && NonEmpty(sequences)
    ensures var r := Client(start, sequences, ops);
            && (r.phase != Broken <==> Legal(ops))
            && CleanTexts(r, sequences)
            && (Legal(ops) && Ends(ops) ==> if Fails(ops) then r.phase == Errored
                                            else Complete(r, Session(NewTranslator(sequences), ops).0.nextIndex))
  {
    if Legal(ops) {
      SessionReached(start, sequences, ops);
    } else {
      IllegalBreaks(start, sequences, ops);
    }
  }

  /** An error event after `message_stop`: the smallest session that breaks the stream. */
  lemma FailAfterFinishBreaks(start: WireEvent, sequences: seq<string>, kind: string, message: string)
    requires start.MessageStart? && NonEmpty(sequences)
    ensures var ops := [Finish, Fail(kind, message)]; !Legal(ops) && Client(start, sequences, ops).phase == Broken
  {
    var ops := [Finish, Fail(kind, message)];
    assert ops[1].Fail? && !ops[0].Push?;
    SessionIsWellFormed(start, sequences, ops);
  }

  /** A failure tells its own kind and message, and only adds to what was sent. */
  lemma FailureIsTold(sequences: seq<string>, ops: seq<Op>, kind: string, message: string)
    ensures Session(NewTranslator(sequences), ops + [Fail(kind, message)]).1 ==
            Session(NewTranslator(sequences), ops).1 + [ErrorEvent(kind, message)]
  {
    SessionSnoc(NewTranslator(sequences), ops, Fail(kind, message));
  }

  // After a stop sequence.

  ghost predicate Quiet(out: seq<WireEvent>) {
    forall e | e in out && e.BlockDelta? :: e.delta.InputJson?
  }

  lemma {:induction false} QuietDelivering(t: Translator)
    requires t.open.None?
    ensures var (d, out) := DeliveredAll(t); Quiet(out) && d.open.None? && d.stoppedBy == t.stoppedBy
    decreases |t.tools|
  {
    if t.tools == [] {
    } else {
      QuietDelivering(DeliveredFirst(t).0);
    }
  }

  lemma {:induction false} QuietRedacted(t: Translator, blocks: seq<Json>)
    requires t.open.None?
    ensures var (d, out) := Redacted(t, blocks); Quiet(out) && d.open.None? && d.stoppedBy == t.stoppedBy
    decreases |blocks|
  {
    if blocks == [] {
    } else {
      QuietRedacted(RedactedOne(t, blocks[0]).0, blocks[1..]);
    }
  }

  lemma {:induction false} QuietFrom(t: Translator, ops: seq<Op>)
    requires t.stoppedBy.Some? && (t.open.None? || t.finished)
    ensures var (d, out) := Session(t, ops); Quiet(out) && (d.open.None? || d.finished) && d.stoppedBy == t.stoppedBy
  {
    if ops == [] {
    } else {
      var init, last := ops[..|ops| - 1], ops[|ops| - 1];
      QuietFrom(t, init);
      var (s, _) := Session(t, init);
      match last
      case Push(event) =>
        if event.ProviderReplayState? && !s.finished {
          QuietRedacted(s, ReplayBlocks(event.providerKind, event.value));
        }
      case Finish => if !s.finished { QuietDelivering(s.(finished := true)); }
      case Fail(_, _) =>
    }
  }

  lemma SessionSnoc(t: Translator, init: seq<Op>, last: Op)
    ensures var (s, out) := Session(t, init);
            Session(t, init + [last]) == (Step(s, last).0, out + Step(s, last).1)
  {
    assert (init + [last])[..|init|] == init;
  }

  lemma {:induction false} SessionConcat(t: Translator, a: seq<Op>, b: seq<Op>)
    ensures var (s, out) := Session(t, a);
            var (d, more) := Session(s, b);
            Session(t, a + b) == (d, out + more)
    decreases |b|
  {
    var (s, out) := Session(t, a);
    if b == [] {
      assert a + b == a && out + [] == out;
    } else {
      var init, last := b[..|b| - 1], b[|b| - 1];
      SessionConcat(t, a, init);
      var (u, some) := Session(s, init);
      assert init + [last] == b && a + init + [last] == a + b;
      SessionSnoc(s, init, last);
      SessionSnoc(t, a + init, last);
      Regroup(out, some, Step(u, last).1);
    }
  }

  /**
   Once a stop sequence was reported, the rest of the session adds no text, thinking or
   signature: only whole tool blocks and opaque blocks follow, and the answer stays.
   */
  lemma QuietAfterStop(sequences: seq<string>, before: seq<Op>, after: seq<Op>)
    requires NonEmpty(sequences) && Legal(before)
    requires Session(NewTranslator(sequences), before).0.stoppedBy.Some?
    ensures var (s, out) := Session(NewTranslator(sequences), before);
            var (d, all) := Session(NewTranslator(sequences), before + after);
            out <= all && Quiet(all[|out|..]) && d.stoppedBy == s.stoppedBy
  {
    SessionReached(MessageStart("", "", 0), sequences, before);
    var (s, out) := Session(NewTranslator(sequences), before);
    QuietFrom(s, after);
    SessionConcat(NewTranslator(sequences), before, after);
    assert (out + Session(s, after).1)[|out|..] == Session(s, after).1;
  }
}
