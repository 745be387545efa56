/**
 The online stop-sequence filter: text arrives in pieces, a stop sequence split
 over pieces must still be found, and no part of one may reach the client.
 */
module StopFiltering {
  import opened Wrappers
  import opened StopMatching

  datatype Filter = Filter(sequences: seq<string>, buffer: string, stopped: Option<string>)

  function NewFilter(sequences: seq<string>): Filter {
    Filter(sequences, "", None)
  }

  /** One piece of text: the new filter and what may be sent now. */
  function Filtered(f: Filter, delta: string): (Filter, string) {
    if f.stopped.Some? then (f, "")
    else
      var text := f.buffer + delta;
      match Earliest(text, f.sequences)
      case Some(m) =>
        EarliestMeaning(text, f.sequences);
        (f.(buffer := "", stopped := Some(m.sequence)), text[..m.position])
      case None =>
        PendingMeaning(text, f.sequences);
        var split := |text| - Pending(text, f.sequences);
        (f.(buffer := text[split..]), text[..split])
  }

  class StopFilter {
    const sequences: seq<string>
    var buffer: string
    var stopped: Option<string>

    ghost function State(): Filter
      reads this
    {
      Filter(sequences, buffer, stopped)
    }

    constructor (sequences: seq<string>)
      ensures State() == NewFilter(sequences)
    {
      this.sequences := sequences;
      buffer := "";
      stopped := None;
    }

    method Push(delta: string) returns (emitted: string)
      modifies this
      ensures (State(), emitted) == Filtered(old(State()), delta)
    {
      if stopped.Some? {
        return "";
      }
      buffer := buffer + delta;
      var found := EarliestMatch(buffer, sequences);
      match found {
        case Some(m) =>
          emitted := buffer[..m.position];
          stopped := Some(m.sequence);
          buffer := "";
        case None =>
          var keep := PendingSuffix(buffer, sequences);
          PendingMeaning(buffer, sequences);
          var split := |buffer| - keep;
          emitted := buffer[..split];
          buffer := buffer[split..];
      }
    }

    method Flush() returns (rest: string)
      modifies this
      ensures rest == old(buffer) && State() == old(State()).(buffer := "")
    {
      rest := buffer;
      buffer := "";
    }
  }

  /** Sequence by sequence, keeping the strictly smaller position: equals the left-to-right scan. */
  method EarliestMatch(text: string, sequences: seq<string>) returns (best: Option<Match>)
    ensures best == Earliest(text, sequences)
    ensures best.Some? ==> best.value.position <= |text|
  {
    best := None;
    EarliestMeaning(text, []);
    var k := 0;
    while k < |sequences|
      invariant 0 <= k <= |sequences|
      invariant best == Earliest(text, sequences[..k])
    {
      var position := Find(text, sequences[k]);
      EarliestExtended(text, sequences[..k], sequences[k]);
      assert sequences[..k + 1] == sequences[..k] + [sequences[k]];
      if position.Some? && (best.None? || position.value < best.value.position) {
        best := Some(Match(position.value, sequences[k]));
      }
      k := k + 1;
    }
    assert sequences[..k] == sequences;
    EarliestMeaning(text, sequences);
  }

  lemma {:induction false} FirstAtExtended(text: string, sequences: seq<string>, s: string, at: nat)
    ensures FirstAt(text, sequences + [s], at) ==
            if FirstAt(text, sequences, at).Some? then FirstAt(text, sequences, at)
            else if MatchesAt(text, s, at) then Some(s) else None
  {
    if sequences == [] {
    } else {
      assert (sequences + [s])[1..] == sequences[1..] + [s];
      FirstAtExtended(text, sequences[1..], s, at);
    }
  }

  /** Listing one more sequence changes the answer only if it is found strictly further left. */
  lemma EarliestExtended(text: string, sequences: seq<string>, s: string)
    ensures var before := Earliest(text, sequences);
            var found := Find(text, s);
            Earliest(text, sequences + [s]) ==
            if found.Some? && (before.None? || found.value < before.value.position) then Some(Match(found.value, s)) else before
  {
    var best := Earliest(text, sequences);
    var found := Find(text, s);
    EarliestMeaning(text, sequences);
    EarliestMeaning(text, sequences + [s]);
    if found.Some? && (best.None? || found.value < best.value.position) {
      FirstAtExtended(text, sequences, s, found.value);
      FirstAtMeaning(text, sequences, found.value);
      EarliestUnique(text, sequences + [s], Match(found.value, s));
    } else if best.Some? {
      FirstAtExtended(text, sequences, s, best.value.position);
      EarliestUnique(text, sequences + [s], best.value);
    }
  }

  /** First suffix, from the longest down, that begins some sequence. */
  method PendingSuffix(text: string, sequences: seq<string>) returns (keep: nat)
    ensures keep == Pending(text, sequences)
  {
    keep := 0;
    var start := 0;
    while start < |text|
      invariant 0 <= start <= |text|
      invariant forall i: nat | i < start :: !StartsSome(text[i..], sequences)
    {
      if StartsSome(text[start..], sequences) {
        keep := |text| - start;
        PendingUnique(text, sequences, keep);
        return;
      }
      start := start + 1;
    }
    PendingUnique(text, sequences, 0);
  }

  // Runs of the filter between two flushes.

  function Concat(pieces: seq<string>): string {
    if pieces == [] then "" else Concat(pieces[..|pieces| - 1]) + pieces[|pieces| - 1]
  }

  /** The filter after all `pieces`, and everything sent so far. */
  function Run(sequences: seq<string>, pieces: seq<string>): (Filter, string) {
    if pieces == [] then (NewFilter(sequences), "")
    else
      var (f, sent) := Run(sequences, pieces[..|pieces| - 1]);
      var (f', emitted) := Filtered(f, pieces[|pieces| - 1]);
      (f', sent + emitted)
  }

  /** The filter state that the whole text received so far determines. */
  ghost predicate Holds(f: Filter, received: string, sent: string) {
    && f.stopped.None?
    && sent + f.buffer == received
    && Clean(received, f.sequences)
    && |f.buffer| == Pending(received, f.sequences)
  }

  /** Text in which no match starts can be dropped from the front. */
  lemma EarliestShift(head: string, tail: string, sequences: seq<string>)
    requires forall s, at: nat | s in sequences && at < |head| :: !MatchesAt(head + tail, s, at)
    ensures Earliest(head + tail, sequences) ==
            match Earliest(tail, sequences)
            case Some(m) => Some(Match(|head| + m.position, m.sequence))
            case None => None
  {
    EarliestMeaning(tail, sequences);
    EarliestMeaning(head + tail, sequences);
    match Earliest(tail, sequences)
    case Some(m) =>
      FirstAtShift(head, tail, sequences, m.position);
      forall s, at: nat | s in sequences && at < |head| + m.position
        ensures !MatchesAt(head + tail, s, at)
      {
        if at >= |head| {
          ShiftedMatch(head, tail, s, at - |head|);
        }
      }
      EarliestUnique(head + tail, sequences, Match(|head| + m.position, m.sequence));
    case None =>
      forall s, at: nat | s in sequences
        ensures !MatchesAt(head + tail, s, at)
      {
        if at >= |head| {
          ShiftedMatch(head, tail, s, at - |head|);
        }
      }
  }

  /** Nothing to the left of the buffer can take part in a new match. */
  lemma EarliestOfWhole(received: string, sent: string, buffer: string, delta: string, sequences: seq<string>)
    requires received == sent + buffer && Clean(received, sequences) && |buffer| == Pending(received, sequences)
    ensures Earliest(received + delta, sequences) ==
            match Earliest(buffer + delta, sequences)
            case Some(m) => Some(Match(|sent| + m.position, m.sequence))
            case None => None
  {
    assert received + delta == sent + (buffer + delta);
    forall s, at: nat | s in sequences && at < |sent|
      ensures !MatchesAt(received + delta, s, at)
    {
      if MatchesAt(received + delta, s, at) {
        MatchStartsInSuffix(received, delta, sequences, s, at);
      }
    }
    EarliestShift(sent, buffer + delta, sequences);
  }

  /** One push answers as a matcher that sees all the text since the last flush. */
  lemma PushIsBatch(f: Filter, received: string, sent: string, delta: string)
    requires Holds(f, received, sent)
    ensures var (f', emitted) := Filtered(f, delta);
            var whole := received + delta;
            match Earliest(whole, f.sequences)
            case None => Holds(f', whole, sent + emitted)
            case Some(m) => m.position <= |whole| && f' == f.(buffer := "", stopped := Some(m.sequence)) && sent + emitted == whole[..m.position]
  {
    var whole, text := received + delta, f.buffer + delta;
    assert whole == sent + text;
    EarliestOfWhole(received, sent, f.buffer, delta, f.sequences);
    if m: Match :| Earliest(text, f.sequences) == Some(m) {
      EarliestMeaning(text, f.sequences);
      assert whole[..|sent| + m.position] == sent + text[..m.position];
    } else {
      SuffixOfWhole(received, sent, f.buffer, delta, f.sequences);
      CleanMeaning(whole, f.sequences);
      PendingFits(text, f.sequences);
      Rejoin(sent, text, |text| - Pending(text, f.sequences));
    }
  }

  lemma SuffixOfWhole(received: string, sent: string, buffer: string, delta: string, sequences: seq<string>)
    requires received == sent + buffer && |buffer| == Pending(received, sequences)
    ensures Pending(received + delta, sequences) == Pending(buffer + delta, sequences)
  {
    PendingMeaning(received, sequences);
    PendingShift(sent, received, buffer, delta, sequences);
  }

  lemma PendingFits(text: string, sequences: seq<string>)
    ensures Pending(text, sequences) <= |text|
  {
    PendingMeaning(text, sequences);
  }

  lemma Rejoin(sent: string, text: string, split: nat)
    requires split <= |text|
    ensures sent + text[..split] + text[split..] == sent + text
  {
  }

  /** Suffixes that begin no sequence still begin none after more text. */
  lemma PendingShift(head: string, received: string, buffer: string, delta: string, sequences: seq<string>)
    requires received == head + buffer
    requires forall i: nat | i < |head| :: !StartsSome(received[i..], sequences)
    ensures Pending(received + delta, sequences) == Pending(buffer + delta, sequences)
    decreases |head|
  {
    if head == "" {
      assert received == buffer;
    } else {
      var whole := received + delta;
      assert received[0..] == received && received <= whole;
      assert whole[1..] == received[1..] + delta;
      forall i: nat | i < |head| - 1
        ensures !StartsSome(received[1..][i..], sequences)
      {
        assert received[1..][i..] == received[i + 1..];
      }
      PendingShift(head[1..], received[1..], buffer, delta, sequences);
      assert !StartsSome(whole, sequences);
    }
  }

  /**
   The invariant of every run without a match: what was sent plus the buffer is the whole
   input, no sequence occurs in the input, and the buffer is exactly the longest suffix of
   the whole input that begins some sequence. A run with a match has sent a proper part of
   its input that ends where the stop sequence begins.
   */
  lemma {:induction false} RunInvariant(sequences: seq<string>, pieces: seq<string>)
    requires NonEmpty(sequences)
    ensures var (f, sent) := Run(sequences, pieces);
            && f.sequences == sequences
            && (f.stopped.None? ==> Holds(f, Concat(pieces), sent))
            && (f.stopped.Some? ==>
                  && f.buffer == "" && f.stopped.value in sequences && Clean(sent, sequences)
                  && sent + f.stopped.value <= Concat(pieces))
  {
    if pieces == [] {
    } else {
      var init, last := pieces[..|pieces| - 1], pieces[|pieces| - 1];
      RunInvariant(sequences, init);
      var (f, sent) := Run(sequences, init);
      if f.stopped.None? {
        PushIsBatch(f, Concat(init), sent, last);
        if m: Match :| Earliest(Concat(pieces), sequences) == Some(m) {
          CleanBefore(Concat(pieces), sequences, m);
          EarliestMeaning(Concat(pieces), sequences);
        }
      } else {
        assert Run(sequences, pieces) == (f, sent) by { assert sent + "" == sent; }
      }
    }
  }

  lemma CleanBefore(text: string, sequences: seq<string>, m: Match)
    requires NonEmpty(sequences) && Earliest(text, sequences) == Some(m)
    ensures m.position <= |text| && Clean(text[..m.position], sequences)
    ensures text[..m.position] + m.sequence <= text
  {
    EarliestMeaning(text, sequences);
    var head, tail := text[..m.position], text[m.position..];
    assert text == head + tail;
    forall s, at: nat | s in sequences
      ensures !MatchesAt(head, s, at)
    {
      if at + |s| <= |head| {
        PrefixMatch(head, tail, s, at);
        assert s != "" && !MatchesAt(text, s, at);
      }
    }
  }
}
