/**
 Stop-sequence matching over a whole text: the batch answer that the online
 filter has to reproduce.
 */
module StopMatching {
  import opened Wrappers

  datatype Match = Match(position: nat, sequence: string)

  predicate MatchesAt(text: string, pattern: string, at: nat) {
    at + |pattern| <= |text| && text[at..at + |pattern|] == pattern
  }

  /** No sequence occurs anywhere in `text`. */
  ghost predicate Clean(text: string, sequences: seq<string>) {
    forall s, at: nat | s in sequences :: !MatchesAt(text, s, at)
  }

  ghost predicate NonEmpty(sequences: seq<string>) {
    forall s | s in sequences :: s != ""
  }

  /** The first position of `pattern`, as the standard library's `str::find`. */
  function Find(text: string, pattern: string, from: nat := 0): (r: Option<nat>)
    requires from <= |text|
    ensures r.Some? ==> from <= r.value && MatchesAt(text, pattern, r.value)
    ensures forall at: nat | from <= at && (r.Some? ==> at < r.value) :: !MatchesAt(text, pattern, at)
    decreases |text| - from
  {
    if MatchesAt(text, pattern, from) then Some(from)
    else if from == |text| then None
    else Find(text, pattern, from + 1)
  }

  /** The first listed sequence that matches exactly at `at`. */
  function FirstAt(text: string, sequences: seq<string>, at: nat): Option<string> {
    if sequences == [] then None
    else if MatchesAt(text, sequences[0], at) then Some(sequences[0])
    else FirstAt(text, sequences[1..], at)
  }

  /** Left-to-right scan: the leftmost match, ties going to the sequence listed first. */
  function Earliest(text: string, sequences: seq<string>, from: nat := 0): Option<Match>
    requires from <= |text|
    decreases |text| - from
  {
    match FirstAt(text, sequences, from)
    case Some(s) => Some(Match(from, s))
    case None => if from == |text| then None else Earliest(text, sequences, from + 1)
  }

  lemma {:induction false} FirstAtMeaning(text: string, sequences: seq<string>, at: nat)
    ensures FirstAt(text, sequences, at).None? <==> forall s | s in sequences :: !MatchesAt(text, s, at)
    ensures var r := FirstAt(text, sequences, at);
            r.Some? ==> r.value in sequences && MatchesAt(text, r.value, at)
  {
    if sequences == [] {
    } else {
      FirstAtMeaning(text, sequences[1..], at);
      assert forall s :: s in sequences <==> s == sequences[0] || s in sequences[1..];
    }
  }

  /** What `Earliest` means: nothing matches further left, and the reported sequence is the first one listed there. */
  lemma {:induction false} EarliestMeaning(text: string, sequences: seq<string>, from: nat := 0)
    requires from <= |text|
    ensures var r := Earliest(text, sequences, from);
            && (r.None? <==> forall s, at: nat | s in sequences && from <= at :: !MatchesAt(text, s, at))
            && (r.Some? ==>
                  && from <= r.value.position <= |text|
                  && r.value.sequence in sequences
                  && MatchesAt(text, r.value.sequence, r.value.position)
                  && FirstAt(text, sequences, r.value.position) == Some(r.value.sequence)
                  && forall s, at: nat | s in sequences && from <= at < r.value.position :: !MatchesAt(text, s, at))
    decreases |text| - from
  {
    FirstAtMeaning(text, sequences, from);
    if FirstAt(text, sequences, from).None? && from < |text| {
      EarliestMeaning(text, sequences, from + 1);
    }
  }

  lemma CleanMeaning(text: string, sequences: seq<string>)
    ensures Clean(text, sequences) <==> Earliest(text, sequences).None?
  {
    EarliestMeaning(text, sequences);
  }

  /** The meaning determines the answer. */
  lemma EarliestUnique(text: string, sequences: seq<string>, m: Match)
    requires m.position <= |text|
    requires FirstAt(text, sequences, m.position) == Some(m.sequence)
    requires forall s, at: nat | s in sequences && at < m.position :: !MatchesAt(text, s, at)
    ensures Earliest(text, sequences) == Some(m)
  {
    EarliestMeaning(text, sequences);
    FirstAtMeaning(text, sequences, m.position);
    var r := Earliest(text, sequences);
    assert r.value.position == m.position;
  }

  predicate StartsSome(suffix: string, sequences: seq<string>) {
    exists s | s in sequences :: suffix <= s
  }

  /** Length of the longest suffix of `text` that begins some sequence. */
  function Pending(text: string, sequences: seq<string>): nat {
    if text == "" then 0
    else if StartsSome(text, sequences) then |text|
    else Pending(text[1..], sequences)
  }

  lemma {:induction false} PendingMeaning(text: string, sequences: seq<string>)
    ensures var keep := Pending(text, sequences);
            && keep <= |text|
            && (keep > 0 ==> StartsSome(text[|text| - keep..], sequences))
            && forall i: nat | i < |text| - keep :: !StartsSome(text[i..], sequences)
  {
    if text == "" {
    } else if StartsSome(text, sequences) {
      assert text[0..] == text;
    } else {
      PendingMeaning(text[1..], sequences);
      var keep := Pending(text[1..], sequences);
      assert keep > 0 ==> text[1..][|text| - 1 - keep..] == text[|text| - keep..];
      forall i: nat | i < |text| - keep
        ensures !StartsSome(text[i..], sequences)
      {
        if i == 0 {
          assert text[0..] == text;
        } else {
          assert text[1..][i - 1..] == text[i..];
        }
      }
    }
  }

  /** `Pending` is the only length with that meaning. */
  lemma PendingUnique(text: string, sequences: seq<string>, keep: nat)
    requires keep <= |text|
    requires keep > 0 ==> StartsSome(text[|text| - keep..], sequences)
    requires forall i: nat | i < |text| - keep :: !StartsSome(text[i..], sequences)
    ensures Pending(text, sequences) == keep
  {
    PendingMeaning(text, sequences);
  }

  lemma ShiftedMatch(head: string, tail: string, pattern: string, at: nat)
    ensures MatchesAt(head + tail, pattern, |head| + at) == MatchesAt(tail, pattern, at)
  {
    if at + |pattern| <= |tail| {
      assert (head + tail)[|head| + at..|head| + at + |pattern|] == tail[at..at + |pattern|];
    }
  }

  lemma PrefixMatch(head: string, tail: string, pattern: string, at: nat)
    requires at + |pattern| <= |head|
    ensures MatchesAt(head + tail, pattern, at) == MatchesAt(head, pattern, at)
  {
    assert (head + tail)[at..at + |pattern|] == head[at..at + |pattern|];
  }

  /** A new match cannot start left of the held-back suffix. */
  lemma MatchStartsInSuffix(text: string, delta: string, sequences: seq<string>, s: string, at: nat)
    requires Clean(text, sequences) && s in sequences
    requires MatchesAt(text + delta, s, at)
    ensures at + Pending(text, sequences) >= |text|
  {
    PendingMeaning(text, sequences);
    if at >= |text| {
    } else if at + |s| <= |text| {
      PrefixMatch(text, delta, s, at);
    } else {
      assert text[at..] == (text + delta)[at..at + |s|][..|text| - at] == s[..|text| - at];
      assert StartsSome(text[at..], sequences);
    }
  }

  lemma {:induction false} FirstAtShift(head: string, tail: string, sequences: seq<string>, at: nat)
    ensures FirstAt(head + tail, sequences, |head| + at) == FirstAt(tail, sequences, at)
  {
    if sequences == [] {
    } else {
      ShiftedMatch(head, tail, sequences[0], at);
      FirstAtShift(head, tail, sequences[1..], at);
    }
  }
}
