/**
 Does the cutting of a text into deltas matter? The filter's answer equals the batch
 answer for every cutting exactly when no sequence is complete before another one that
 the batch scan would prefer.
 */
module ChunkIndependence {
  import opened Wrappers
  import opened StopMatching
  import opened StopFiltering

  /** All text the client receives, with the final flush, and the sequence reported. */
  function Outcome(sequences: seq<string>, pieces: seq<string>): (string, Option<string>) {
    var (f, sent) := Run(sequences, pieces);
    (sent + f.buffer, f.stopped)
  }

  /** The same for a client that sees the whole text at once. */
  function Batch(sequences: seq<string>, text: string): (string, Option<string>) {
    match Earliest(text, sequences)
    case Some(m) =>
      EarliestMeaning(text, sequences);
      (text[..m.position], Some(m.sequence))
    case None => (text, None)
  }

  ghost predicate ChunkIndependent(sequences: seq<string>) {
    forall a: seq<string>, b: seq<string> | Concat(a) == Concat(b) :: Outcome(sequences, a) == Outcome(sequences, b)
  }

  /** Every sequence that can be reported is free of sequences up to its last character. */
  ghost predicate Stable(sequences: seq<string>)
    requires NonEmpty(sequences)
  {
    forall r | r in sequences && FirstAt(r, sequences, 0) == Some(r) :: Clean(r[..|r| - 1], sequences)
  }

  ghost predicate FactorFree(sequences: seq<string>) {
    forall s, t, at: nat | s in sequences && t in sequences && s != t :: !MatchesAt(t, s, at)
  }

  lemma FactorFreeIsStable(sequences: seq<string>)
    requires NonEmpty(sequences) && FactorFree(sequences)
    ensures Stable(sequences)
  {
    forall r | r in sequences
      ensures Clean(r[..|r| - 1], sequences)
    {
      var head, tail := r[..|r| - 1], r[|r| - 1..];
      assert head + tail == r;
      forall s, at: nat | s in sequences
        ensures !MatchesAt(head, s, at)
      {
        if MatchesAt(head, s, at) {
          PrefixMatch(head, tail, s, at);
        }
      }
    }
  }

  /** With a stable list, a match once found stays the batch answer when more text arrives. */
  lemma MatchPersists(text: string, delta: string, sequences: seq<string>, m: Match)
    requires NonEmpty(sequences) && Stable(sequences)
    requires Earliest(text, sequences) == Some(m)
    ensures Earliest(text + delta, sequences) == Some(m)
  {
    var whole := text + delta;
    EarliestMeaning(text, sequences);
    EarliestMeaning(whole, sequences);
    PrefixMatch(text, delta, m.sequence, m.position);
    assert Earliest(whole, sequences).Some?;
    var w := Earliest(whole, sequences).value;
    if w.position + |w.sequence| <= |text| {
      PrefixMatch(text, delta, w.sequence, w.position);
      assert w.position == m.position;
      FirstAtGrows(text, delta, sequences, m.position, w.sequence);
    } else {
      PreferredEndsFirst(whole, sequences, m, w);
    }
  }

  lemma {:induction false} FirstAtGrows(text: string, delta: string, sequences: seq<string>, at: nat, s: string)
    requires FirstAt(text + delta, sequences, at) == Some(s) && at + |s| <= |text|
    ensures FirstAt(text, sequences, at) == Some(s)
  {
    if MatchesAt(text + delta, sequences[0], at) {
      PrefixMatch(text, delta, s, at);
    } else {
      if at + |sequences[0]| <= |text| {
        PrefixMatch(text, delta, sequences[0], at);
      }
      FirstAtGrows(text, delta, sequences[1..], at, s);
    }
  }

  /** The preferred match never ends later: it would have the other one inside it, short of its last character. */
  lemma PreferredEndsFirst(whole: string, sequences: seq<string>, m: Match, w: Match)
    requires NonEmpty(sequences) && Stable(sequences)
    requires m.sequence in sequences && w.sequence in sequences
    requires MatchesAt(whole, m.sequence, m.position) && MatchesAt(whole, w.sequence, w.position)
    requires FirstAt(whole, sequences, w.position) == Some(w.sequence)
    requires w.position <= m.position
    ensures w.position + |w.sequence| <= m.position + |m.sequence|
  {
    var r, s := w.sequence, m.sequence;
    var before, after := whole[..w.position], whole[w.position + |r|..];
    assert whole == before + (r + after);
    FirstAtShift(before, r + after, sequences, 0);
    FirstAtGrows(r, after, sequences, 0, r);
    var at := m.position - w.position;
    ShiftedMatch(before, r + after, s, at);
    NoneInside(r, after, sequences, s, at);
  }

  lemma NoneInside(r: string, after: string, sequences: seq<string>, s: string, at: nat)
    requires r != "" && Clean(r[..|r| - 1], sequences) && s in sequences
    requires MatchesAt(r + after, s, at)
    ensures |r| <= at + |s|
  {
    var head, tail := r[..|r| - 1], r[|r| - 1..] + after;
    assert r + after == head + tail;
    if at + |s| < |r| {
      PrefixMatch(head, tail, s, at);
    }
  }

  lemma {:induction false} RunIsBatch(sequences: seq<string>, pieces: seq<string>)
    requires NonEmpty(sequences) && Stable(sequences)
    ensures Outcome(sequences, pieces) == Batch(sequences, Concat(pieces))
  {
    RunInvariant(sequences, pieces);
    if pieces == [] {
      CleanMeaning("", sequences);
    } else {
      var init, last := pieces[..|pieces| - 1], pieces[|pieces| - 1];
      RunIsBatch(sequences, init);
      RunInvariant(sequences, init);
      var (f, sent) := Run(sequences, init);
      if f.stopped.None? {
        PushIsBatch(f, Concat(init), sent, last);
        assert sent + Filtered(f, last).1 + "" == sent + Filtered(f, last).1;
      } else {
        EarliestMeaning(Concat(init), sequences);
        var m := Earliest(Concat(init), sequences).value;
        MatchPersists(Concat(init), last, sequences, m);
        assert Concat(pieces)[..m.position] == Concat(init)[..m.position];
        assert sent + "" == sent;
      }
    }
  }

  /** An unstable list is seen to depend on the cutting: send the offending sequence whole, or without its last character first. */
  lemma UnstableDepends(sequences: seq<string>, r: string)
    requires NonEmpty(sequences) && r in sequences
    requires FirstAt(r, sequences, 0) == Some(r) && !Clean(r[..|r| - 1], sequences)
    ensures var whole, cut := [r], [r[..|r| - 1], r[|r| - 1..]];
            Concat(whole) == Concat(cut) && Outcome(sequences, whole) != Outcome(sequences, cut)
  {
    var head, tail := r[..|r| - 1], r[|r| - 1..];
    Singleton(sequences, r);
    Singleton(sequences, head);
    assert [head, tail][..1] == [head];
    assert head + tail == r;
    UnstableStops(sequences, r);
  }

  /** Whole, the offending sequence is reported; without its last character, a shorter one is. */
  lemma UnstableStops(sequences: seq<string>, r: string)
    requires NonEmpty(sequences) && r in sequences
    requires FirstAt(r, sequences, 0) == Some(r) && !Clean(r[..|r| - 1], sequences)
    ensures Filtered(NewFilter(sequences), r).0.stopped == Some(r)
    ensures var stopped := Filtered(NewFilter(sequences), r[..|r| - 1]).0.stopped; stopped.Some? && |stopped.value| < |r|
  {
    var head := r[..|r| - 1];
    assert "" + r == r && "" + head == head;
    EarliestUnique(r, sequences, Match(0, r));
    CleanMeaning(head, sequences);
    EarliestMeaning(head, sequences);
  }

  lemma Singleton(sequences: seq<string>, piece: string)
    ensures Concat([piece]) == piece && Run(sequences, [piece]) == Filtered(NewFilter(sequences), piece)
    ensures Run(sequences, [piece]).0.stopped ==
            match Earliest(piece, sequences) case Some(m) => Some(m.sequence) case None => None
  {
    assert [piece][..0] == [] && "" + piece == piece;
    var (f, emitted) := Filtered(NewFilter(sequences), piece);
    assert "" + emitted == emitted;
  }

  /** The main result, both ways. */
  lemma ChunkIndependentIffStable(sequences: seq<string>)
    requires NonEmpty(sequences)
    ensures ChunkIndependent(sequences) <==> Stable(sequences)
  {
    if Stable(sequences) {
      forall a: seq<string>, b: seq<string> | Concat(a) == Concat(b)
        ensures Outcome(sequences, a) == Outcome(sequences, b)
      {
        RunIsBatch(sequences, a);
        RunIsBatch(sequences, b);
      }
    } else {
      var r :| r in sequences && FirstAt(r, sequences, 0) == Some(r) && !Clean(r[..|r| - 1], sequences);
      UnstableDepends(sequences, r);
    }
  }

  /** A list for which the cutting matters: "abc" then "d" stops at "bc", "abcd" at once stops at "abcd". */
  lemma CuttingCanMatter()
    ensures !ChunkIndependent(["abcd", "bc"])
  {
    var sequences := ["abcd", "bc"];
    var head := "abcd"[..3];
    assert head == "abc" && "abc"[1..3] == ['b', 'c'];
    assert MatchesAt(head, "bc", 1) && "bc" in sequences;
    assert FirstAt("abcd", sequences, 0) == Some("abcd");
    assert !Stable(sequences);
    ChunkIndependentIffStable(sequences);
  }
}
