/**
 The provider may cut its text anywhere: with a stable list of stop sequences the
 assembled answer is the same for all cuttings, whatever other events are mixed in.
 */
module TextCutting {
  import opened Wrappers
  import opened Events
  import opened StopMatching
  import opened StopFiltering
  import opened ChunkIndependence
  import opened Translation
  import opened Protocol
  import opened ProtocolProof
  import opened Sessions
  import opened Assembly
  import opened Refinement
  import Conservation
  import Reports

  lemma CancelLeft(sent: string, a: string, b: string)
    requires sent + a == sent + b
    ensures a == b
  {
    assert a == (sent + a)[|sent|..] && b == (sent + b)[|sent|..];
  }

  lemma SameSuffix(a: string, x: string, b: string, y: string)
    requires a + x == b + y && |x| == |y|
    ensures a == b && x == y
  {
    assert a == (a + x)[..|a|] && x == (a + x)[|a|..];
    assert b == (b + y)[..|b|] && y == (b + y)[|b|..];
  }

  /** Two pushes answer as one push of the joined text, unless the first already hit: then the second adds nothing. */
  lemma FilterSplit(f: Filter, received: string, sent: string, x: string, y: string)
    requires NonEmpty(f.sequences) && Stable(f.sequences) && Holds(f, received, sent)
    ensures var (f1, e1) := Filtered(f, x);
            var (f12, e12) := Filtered(f, x + y);
            if f1.stopped.Some? then f12 == f1 && e12 == e1
            else f12 == Filtered(f1, y).0 && e12 == e1 + Filtered(f1, y).1
  {
    var (f1, e1) := Filtered(f, x);
    var (f12, e12) := Filtered(f, x + y);
    var first, whole := received + x, received + x + y;
    assert received + (x + y) == whole;
    PushIsBatch(f, received, sent, x);
    PushIsBatch(f, received, sent, x + y);
    if m: Match :| Earliest(first, f.sequences) == Some(m) {
      MatchPersists(first, y, f.sequences, m);
      assert whole[..m.position] == first[..m.position];
      CancelLeft(sent, e1, e12);
    } else {
      PushIsBatch(f1, first, sent + e1, y);
      SameAnswer(whole, sent, f1, e1, Filtered(f1, y).0, Filtered(f1, y).1, f12, e12);
    }
  }

  /** Both ways of pushing end at the batch answer for the same text. */
  lemma SameAnswer(whole: string, sent: string, f: Filter, e1: string, f2: Filter, e2: string, f12: Filter, e12: string)
    requires f.sequences == f2.sequences == f12.sequences && f.stopped.None?
    requires match Earliest(whole, f.sequences)
             case None => Holds(f2, whole, sent + e1 + e2) && Holds(f12, whole, sent + e12)
             case Some(m) =>
               && m.position <= |whole|
               && f2 == f.(buffer := "", stopped := Some(m.sequence)) && sent + e1 + e2 == whole[..m.position]
               && f12 == f.(buffer := "", stopped := Some(m.sequence)) && sent + e12 == whole[..m.position]
    ensures f2 == f12 && e1 + e2 == e12
  {
    assert sent + e1 + e2 == sent + (e1 + e2);
    if Earliest(whole, f.sequences).None? {
      SameSuffix(sent + (e1 + e2), f2.buffer, sent + e12, f12.buffer);
    }
    CancelLeft(sent, e1 + e2, e12);
  }

  lemma AssembleOne(a: Assembler, e: WireEvent, parse: Parser)
    ensures AssembleAll(a, [e], parse) == Assembled(a, e, parse)
  {
    assert [e][..0] == [];
  }

  /** Text deltas add up. */
  lemma PiecesAddUp(a: Assembler, i: nat, x: string, y: string, parse: Parser)
    ensures AssembleAll(a, Piece(i, x) + Piece(i, y), parse) == AssembleAll(a, Piece(i, x + y), parse)
  {
    AssembleConcat(a, Piece(i, x), Piece(i, y), parse);
    if x == "" {
      assert x + y == y;
    } else if y == "" {
      assert x + y == x;
    } else {
      AssembleOne(a, BlockDelta(i, Text(x)), parse);
      AssembleOne(a, BlockDelta(i, Text(x + y)), parse);
      AssembleOne(Assembled(a, BlockDelta(i, Text(x)), parse).value, BlockDelta(i, Text(y)), parse);
      if i in a.blocks {
        var own := a.blocks[i].text.GetOr(OwnField(a.blocks[i].sent, "text"));
        assert own + x + y == own + (x + y);
        var once := WithDelta(a.blocks[i], Text(x));
        assert a.blocks[i := once][i := WithDelta(once, Text(y))] == a.blocks[i := WithDelta(a.blocks[i], Text(x + y))];
      }
    }
  }

  /** Output between equal surroundings may be replaced by output that assembles the same. */
  lemma AssembleMiddle(a: Assembler, before: seq<WireEvent>, m1: seq<WireEvent>, m2: seq<WireEvent>, after: seq<WireEvent>, parse: Parser)
    requires forall b :: AssembleAll(b, m1, parse) == AssembleAll(b, m2, parse)
    ensures AssembleAll(a, before + m1 + after, parse) == AssembleAll(a, before + m2 + after, parse)
  {
    AssembleConcat(a, before, m1, parse);
    AssembleConcat(a, before, m2, parse);
    AssembleConcat(a, before + m1, after, parse);
    AssembleConcat(a, before + m2, after, parse);
  }

  /** A text delta cut in two: same translator state, and outputs that assemble the same. */
  lemma SplitDelta(t: Translator, r: Reader, a: Assembler, x: string, y: string, parse: Parser)
    requires Linked(t, r) && t.stoppedBy.None? && !t.finished && Stable(t.text.sequences)
    ensures var (t1, o1) := Pushed(t, TextDelta(x));
            var (t2, o2) := Pushed(t1, TextDelta(y));
            var (t12, o12) := Pushed(t, TextDelta(x + y));
            t2 == t12 && AssembleAll(a, o1 + o2, parse) == AssembleAll(a, o12, parse)
  {
    var (o, out) := EnsuredOpen(t, TextKind);
    EnsuredLinked(t, r, TextKind);
    var ro := ReadAll(r, out);
    FilterSplit(o.text, ro.current + o.text.buffer, ro.current, x, y);
    SplitInOpenBlock(t, o, out, a, x, y, parse);
  }

  lemma SplitInOpenBlock(t: Translator, o: Translator, out: seq<WireEvent>, a: Assembler, x: string, y: string, parse: Parser)
    requires (o, out) == EnsuredOpen(t, TextKind) && t.stoppedBy.None? && !t.finished
    requires o.stoppedBy.None? && !o.finished && o.open.Some? && o.open.value.kind.TextKind?
    requires var (f1, e1) := Filtered(o.text, x);
             var (f12, e12) := Filtered(o.text, x + y);
             if f1.stopped.Some? then f12 == f1 && e12 == e1
             else f12 == Filtered(f1, y).0 && e12 == e1 + Filtered(f1, y).1
    ensures var (t1, o1) := Pushed(t, TextDelta(x));
            var (t2, o2) := Pushed(t1, TextDelta(y));
            var (t12, o12) := Pushed(t, TextDelta(x + y));
            t2 == t12 && AssembleAll(a, o1 + o2, parse) == AssembleAll(a, o12, parse)
  {
    var i := o.open.value.index;
    var (f1, e1) := Filtered(o.text, x);
    var (t1, o1) := Pushed(t, TextDelta(x));
    if f1.stopped.Some? {
      assert o1 + [] == o1;
    } else {
      var (f2, e2) := Filtered(f1, y);
      assert t1 == o.(text := f1) && o1 == out + Piece(i, e1);
      var s := o.(text := f2, stoppedBy := f2.stopped);
      var after := if f2.stopped.Some? then Closed(s).1 else [];
      var (t2, o2) := Pushed(t1, TextDelta(y));
      assert [] + Piece(i, e2) == Piece(i, e2);
      assert o2 == Piece(i, e2) + after;
      assert o1 + o2 == out + (Piece(i, e1) + Piece(i, e2)) + after;
      assert Pushed(t, TextDelta(x + y)).1 == out + Piece(i, e1 + e2) + after;
      forall b
        ensures AssembleAll(b, Piece(i, e1) + Piece(i, e2), parse) == AssembleAll(b, Piece(i, e1 + e2), parse)
      {
        PiecesAddUp(b, i, e1, e2, parse);
      }
      AssembleMiddle(a, out, Piece(i, e1) + Piece(i, e2), Piece(i, e1 + e2), after, parse);
    }
  }

  /** Adjacent text deltas joined: the same for all cuttings of the same text. */
  function Merged(events: seq<ModelEvent>): seq<ModelEvent> {
    if events == [] then []
    else
      var before, e := Merged(events[..|events| - 1]), events[|events| - 1];
      if e.TextDelta? && before != [] && before[|before| - 1].TextDelta?
      then before[..|before| - 1] + [TextDelta(before[|before| - 1].text + e.text)]
      else before + [e]
  }

  /** Translator and document after some events. */
  function Progress(start: WireEvent, sequences: seq<string>, events: seq<ModelEvent>, parse: Parser): (Translator, Option<Assembler>) {
    var (t, out) := Session(NewTranslator(sequences), Pushes(events));
    (t, AssembleAll(NEW_ASSEMBLER, [start] + out, parse))
  }

  function Onward(p: (Translator, Option<Assembler>), op: Op, parse: Parser): (Translator, Option<Assembler>) {
    var (t, out) := Step(p.0, op);
    (t, if p.1.None? then None else AssembleAll(p.1.value, out, parse))
  }

  lemma SessionOnward(start: WireEvent, t0: Translator, ops: seq<Op>, last: Op, parse: Parser)
    ensures var (t, out) := Session(t0, ops);
            var (d, all) := Session(t0, ops + [last]);
            (d, AssembleAll(NEW_ASSEMBLER, [start] + all, parse)) ==
            Onward((t, AssembleAll(NEW_ASSEMBLER, [start] + out, parse)), last, parse)
  {
    SessionSnoc(t0, ops, last);
    var (t, out) := Session(t0, ops);
    AssembleConcat(NEW_ASSEMBLER, [start] + out, Step(t, last).1, parse);
    Regroup([start], out, Step(t, last).1);
  }

  lemma ProgressSnoc(start: WireEvent, sequences: seq<string>, init: seq<ModelEvent>, e: ModelEvent, parse: Parser)
    ensures Progress(start, sequences, init + [e], parse) == Onward(Progress(start, sequences, init, parse), Push(e), parse)
  {
    assert Pushes(init + [e]) == Pushes(init) + [Push(e)];
    SessionOnward(start, NewTranslator(sequences), Pushes(init), Push(e), parse);
  }

  /** Cutting the next delta in two does not matter after any events. */
  lemma SplitOnward(start: WireEvent, sequences: seq<string>, events: seq<ModelEvent>, x: string, y: string, parse: Parser)
    requires start.MessageStart? && NonEmpty(sequences) && Stable(sequences)
    ensures var p := Progress(start, sequences, events, parse);
            Onward(Onward(p, Push(TextDelta(x)), parse), Push(TextDelta(y)), parse) == Onward(p, Push(TextDelta(x + y)), parse)
  {
    SessionReached(start, sequences, Pushes(events));
    var (t, a) := Progress(start, sequences, events, parse);
    var r := Client(start, sequences, Pushes(events));
    if t.stoppedBy.None? && a.Some? {
      SplitDelta(t, r, a.value, x, y, parse);
      AssembleConcat(a.value, Pushed(t, TextDelta(x)).1, Pushed(Pushed(t, TextDelta(x)).0, TextDelta(y)).1, parse);
    } else if t.stoppedBy.None? {
      SplitDelta(t, r, NEW_ASSEMBLER, x, y, parse);
    }
  }

  lemma JoinedProgress(start: WireEvent, sequences: seq<string>, head: seq<ModelEvent>, x: string, y: string, parse: Parser)
    requires start.MessageStart? && NonEmpty(sequences) && Stable(sequences)
    ensures Progress(start, sequences, head + [TextDelta(x)] + [TextDelta(y)], parse) ==
            Progress(start, sequences, head + [TextDelta(x + y)], parse)
  {
    ProgressSnoc(start, sequences, head, TextDelta(x), parse);
    ProgressSnoc(start, sequences, head + [TextDelta(x)], TextDelta(y), parse);
    ProgressSnoc(start, sequences, head, TextDelta(x + y), parse);
    SplitOnward(start, sequences, head, x, y, parse);
  }

  lemma {:induction false} MergedProgress(start: WireEvent, sequences: seq<string>, events: seq<ModelEvent>, parse: Parser)
    requires start.MessageStart? && NonEmpty(sequences) && Stable(sequences)
    ensures Progress(start, sequences, Merged(events), parse) == Progress(start, sequences, events, parse)
  {
    if events == [] {
    } else {
      var init, e := events[..|events| - 1], events[|events| - 1];
      var before := Merged(init);
      assert events == init + [e];
      MergedProgress(start, sequences, init, parse);
      SameProgress(start, sequences, before, init, e, parse);
      if e.TextDelta? && before != [] && before[|before| - 1].TextDelta? {
        var head, x := before[..|before| - 1], before[|before| - 1];
        assert before == head + [x];
        JoinedProgress(start, sequences, head, x.text, e.text, parse);
      }
    }
  }

  lemma SameProgress(start: WireEvent, sequences: seq<string>, a: seq<ModelEvent>, b: seq<ModelEvent>, e: ModelEvent, parse: Parser)
    requires Progress(start, sequences, a, parse) == Progress(start, sequences, b, parse)
    ensures Progress(start, sequences, a + [e], parse) == Progress(start, sequences, b + [e], parse)
  {
    ProgressSnoc(start, sequences, a, e, parse);
    ProgressSnoc(start, sequences, b, e, parse);
  }

  /**
   The answer of a whole request depends on the provider's text only, not on how it was
   cut into deltas: for all event lists, tools, thinking and upstream stops included.
   */
  lemma CuttingDoesNotMatter(start: WireEvent, sequences: seq<string>, a: seq<ModelEvent>, b: seq<ModelEvent>, parse: Parser)
    requires start.MessageStart? && NonEmpty(sequences) && Stable(sequences)
    requires Merged(a) == Merged(b)
    ensures Response(start, sequences, a, parse) == Response(start, sequences, b, parse)
  {
    MergedProgress(start, sequences, a, parse);
    MergedProgress(start, sequences, b, parse);
    SessionOnward(start, NewTranslator(sequences), Pushes(a), Finish, parse);
    SessionOnward(start, NewTranslator(sequences), Pushes(b), Finish, parse);
  }

  // Both ways.

  /** Every request's answer is the same for all cuttings of its text. */
  ghost predicate CuttingIndependent(sequences: seq<string>, parse: Parser) {
    forall start: WireEvent, a: seq<ModelEvent>, b: seq<ModelEvent> | start.MessageStart? && Merged(a) == Merged(b) ::
      Response(start, sequences, a, parse) == Response(start, sequences, b, parse)
  }

  lemma CuttingDoesNotMatterIff(sequences: seq<string>, parse: Parser)
    requires NonEmpty(sequences)
    ensures CuttingIndependent(sequences, parse) <==> Stable(sequences)
  {
    hide Response, Merged;
    if Stable(sequences) {
      forall start: WireEvent, a: seq<ModelEvent>, b: seq<ModelEvent> | start.MessageStart? && Merged(a) == Merged(b)
        ensures Response(start, sequences, a, parse) == Response(start, sequences, b, parse)
      {
        CuttingDoesNotMatter(start, sequences, a, b, parse);
      }
    } else {
      var r :| r in sequences && FirstAt(r, sequences, 0) == Some(r) && !Clean(r[..|r| - 1], sequences);
      var start := MessageStart("", "", 0);
      var a, b := UnstableShows(start, sequences, r, parse);
      assert start.MessageStart? && Merged(a) == Merged(b) && Response(start, sequences, a, parse) != Response(start, sequences, b, parse);
    }
  }

  /** The offending sequence, sent whole or in two pieces, ends with different stop sequences in the document. */
  lemma UnstableShows(start: WireEvent, sequences: seq<string>, r: string, parse: Parser) returns (a: seq<ModelEvent>, b: seq<ModelEvent>)
    requires start.MessageStart? && NonEmpty(sequences) && r in sequences
    requires FirstAt(r, sequences, 0) == Some(r) && !Clean(r[..|r| - 1], sequences)
    ensures Merged(a) == Merged(b) && Response(start, sequences, a, parse) != Response(start, sequences, b, parse)
  {
    hide Response, Session, Filtered, Merged, Clean;
    var head, tail := r[..|r| - 1], r[|r| - 1..];
    a, b := [TextDelta(r)], [TextDelta(head), TextDelta(tail)];
    MergedPair(head, tail);
    MergedOne(r);
    assert head + tail == r;
    UnstableStops(sequences, r);
    FirstDelta(sequences, r);
    FirstDelta(sequences, head);
    LaterDelta(sequences, head, tail);
    StopShows(start, sequences, a, parse);
    StopShows(start, sequences, b, parse);
  }

  /** A delta behind a stop leaves the reported sequence alone. */
  lemma LaterDelta(sequences: seq<string>, head: string, tail: string)
    ensures var stopped := Session(NewTranslator(sequences), Pushes([TextDelta(head)])).0.stoppedBy;
            stopped.Some? ==> Session(NewTranslator(sequences), Pushes([TextDelta(head), TextDelta(tail)])).0.stoppedBy == stopped
  {
    hide Session, TextPushed;
    assert [TextDelta(head), TextDelta(tail)] == [TextDelta(head)] + [TextDelta(tail)];
    Conservation.PushesSnoc(NewTranslator(sequences), [TextDelta(head)], TextDelta(tail));
    Conservation.RunBalanced(sequences, [TextDelta(head)]);
  }

  /** A session of text alone answers, with the reported sequence in the head of the document. */
  lemma StopShows(start: WireEvent, sequences: seq<string>, events: seq<ModelEvent>, parse: Parser)
    requires start.MessageStart? && NonEmpty(sequences) && forall e | e in events :: e.TextDelta?
    ensures var response := Response(start, sequences, events, parse);
            && response.Some? && response.value.message.Some?
            && response.value.message.value.stopSequence == Session(NewTranslator(sequences), Pushes(events)).0.stoppedBy
  {
    hide Response, Session;
    Reports.ResponseHead(start, sequences, events, parse);
    TextAnswers(start, sequences, events, parse);
  }

  lemma MergedOne(text: string)
    ensures Merged([TextDelta(text)]) == [TextDelta(text)]
  {
    assert [TextDelta(text)][..0] == [] && Merged([]) == [];
    assert [] + [TextDelta(text)] == [TextDelta(text)];
  }

  lemma MergedPair(head: string, tail: string)
    ensures Merged([TextDelta(head), TextDelta(tail)]) == [TextDelta(head + tail)]
  {
    var both, before := [TextDelta(head), TextDelta(tail)], [TextDelta(head)];
    assert both[..|both| - 1] == before;
    MergedOne(head);
    assert before[..|before| - 1] + [TextDelta(head + tail)] == [TextDelta(head + tail)];
  }

  /** The first delta of a session stops it exactly when it holds a sequence. */
  lemma FirstDelta(sequences: seq<string>, text: string)
    ensures Session(NewTranslator(sequences), Pushes([TextDelta(text)])).0.stoppedBy == Filtered(NewFilter(sequences), text).0.stopped
  {
    hide Filtered;
    var e := TextDelta(text);
    assert [e] == [] + [e] && Pushes([]) == [];
    Conservation.PushesSnoc(NewTranslator(sequences), [], e);
  }

  /** Without tool calls there is always an answer. */
  lemma TextAnswers(start: WireEvent, sequences: seq<string>, events: seq<ModelEvent>, parse: Parser)
    requires start.MessageStart? && forall e | e in events :: e.TextDelta?
    ensures Response(start, sequences, events, parse).Some?
  {
    hide AssembleAll;
    var out := Session(NewTranslator(sequences), Pushes(events) + [Finish]).1;
    Conservation.ToolsAreUndisturbed(sequences, events);
    NoTools(sequences, events);
    NoToolAnswer(sequences);
    Conservation.SaidOne(start);
    Conservation.SaidConcat([start], out);
    assert Conservation.SaidIn([start] + out).tools == [];
    NothingToParse([start] + out, parse);
  }

  lemma {:induction false} NoTools(sequences: seq<string>, events: seq<ModelEvent>)
    requires forall e | e in events :: e.TextDelta?
    ensures Conservation.ToolEvents(Conservation.Heard(sequences, events)) == [] && Conservation.ToolEvents(events) == []
  {
    if events == [] {
    } else {
      var init := events[..|events| - 1];
      assert events[|events| - 1] in events && forall e | e in init :: e in events;
      NoTools(sequences, init);
    }
  }

  lemma NoToolAnswer(sequences: seq<string>)
    ensures Conservation.Answer(sequences, []).tools == []
  {
    var t := NewTranslator(sequences);
    assert Pushes([]) + [Finish] == [] + [Finish] && Pushes([]) == [];
    SessionSnoc(t, [], Finish);
    Conservation.SaidEnd(t);
    assert [] + Finished(t).1 == Finished(t).1;
  }

  /** Only argument text can make the fold fail. */
  lemma {:induction false} NothingToParse(out: seq<WireEvent>, parse: Parser)
    requires Conservation.SaidIn(out).tools == []
    ensures var a := AssembleAll(NEW_ASSEMBLER, out, parse); a.Some? && a.value.partialJson == map[]
  {
    hide Conservation.Saying, Assembled;
    if out == [] {
    } else {
      var init, e := out[..|out| - 1], out[|out| - 1];
      assert Conservation.SaidIn(init).tools == [] && Conservation.Saying(e).tools == [];
      NothingToParse(init, parse);
      NothingToParseIn(AssembleAll(NEW_ASSEMBLER, init, parse).value, e, parse);
    }
  }

  lemma NothingToParseIn(a: Assembler, e: WireEvent, parse: Parser)
    requires a.partialJson == map[] && Conservation.Saying(e).tools == []
    ensures var b := Assembled(a, e, parse); b.Some? && b.value.partialJson == map[]
  {
  }
}
