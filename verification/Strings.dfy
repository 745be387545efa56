/** Trimming of white space, for ASCII text. */
module Strings {
  predicate IsSpace(c: char) {
    c == ' ' || c == '\t' || c == '\n' || c == '\U{000B}' || c == '\U{000C}' || c == '\r'
  }

  function TrimStart(text: string): string {
    if text != "" && IsSpace(text[0]) then TrimStart(text[1..]) else text
  }

  function TrimEnd(text: string): string {
    if text != "" && IsSpace(text[|text| - 1]) then TrimEnd(text[..|text| - 1]) else text
  }

  function Trim(text: string): string {
    TrimEnd(TrimStart(text))
  }

  /** White space only. */
  predicate Blank(text: string) {
    forall c | c in text :: c in " \t\n\U{000B}\U{000C}\r"
  }

  /** `word` with white space around it, and none of its own at the ends. */
  ghost predicate Padded(text: string, word: string) {
    && (exists a, b :: Blank(a) && Blank(b) && text == a + word + b)
    && (word != "" ==> !Blank(word[..1]) && !Blank(word[|word| - 1..]))
  }

  lemma SpaceIff(c: char)
    ensures IsSpace(c) <==> Blank([c])
  {
    assert [c][0] == c && c in [c];
  }

  lemma {:induction false} TrimStartPads(text: string)
    ensures exists a :: Blank(a) && text == a + TrimStart(text)
    ensures TrimStart(text) != "" ==> !IsSpace(TrimStart(text)[0])
  {
    if text != "" && IsSpace(text[0]) {
      TrimStartPads(text[1..]);
      var a :| Blank(a) && text[1..] == a + TrimStart(text[1..]);
      SpaceIff(text[0]);
      assert Blank([text[0]] + a) && text == [text[0]] + a + TrimStart(text);
    } else {
      assert Blank("") && text == "" + TrimStart(text);
    }
  }

  lemma {:induction false} TrimEndPads(text: string)
    ensures exists b :: Blank(b) && text == TrimEnd(text) + b
    ensures TrimEnd(text) != "" ==> !IsSpace(TrimEnd(text)[|TrimEnd(text)| - 1])
  {
    if text != "" && IsSpace(text[|text| - 1]) {
      var init, last := text[..|text| - 1], text[|text| - 1];
      TrimEndPads(init);
      var b :| Blank(b) && init == TrimEnd(init) + b;
      SpaceIff(last);
      assert Blank(b + [last]) && text == TrimEnd(text) + (b + [last]);
    } else {
      assert Blank("") && text == TrimEnd(text) + "";
    }
  }

  lemma TrimPads(text: string)
    ensures Padded(text, Trim(text))
  {
    TrimStartPads(text);
    var start := TrimStart(text);
    var a :| Blank(a) && text == a + start;
    TrimEndPads(start);
    var word := TrimEnd(start);
    var b :| Blank(b) && start == word + b;
    assert text == a + word + b;
    if word != "" {
      assert word[0] == start[0] && word[..1] == [word[0]] && word[|word| - 1..] == [word[|word| - 1]];
      SpaceIff(word[0]);
      SpaceIff(word[|word| - 1]);
    }
  }

  lemma {:induction false} BlankTrims(text: string)
    requires Blank(text)
    ensures TrimStart(text) == "" && TrimEnd(text) == ""
  {
    if text != "" {
      SpaceIff(text[0]);
      SpaceIff(text[|text| - 1]);
      assert text[0] in text && text[|text| - 1] in text && Blank([text[0]]) && Blank([text[|text| - 1]]);
      assert Blank(text[1..]) && Blank(text[..|text| - 1]);
      BlankTrims(text[1..]);
      BlankTrims(text[..|text| - 1]);
    }
  }

  lemma {:induction false} StartTrimmed(a: string, rest: string)
    requires Blank(a) && (rest == "" || !IsSpace(rest[0]))
    ensures TrimStart(a + rest) == rest
  {
    if a == "" {
      assert a + rest == rest;
    } else {
      assert a[0] in a && Blank([a[0]]);
      SpaceIff(a[0]);
      assert (a + rest)[1..] == a[1..] + rest;
      StartTrimmed(a[1..], rest);
    }
  }

  lemma {:induction false} EndTrimmed(rest: string, b: string)
    requires Blank(b) && (rest == "" || !IsSpace(rest[|rest| - 1]))
    ensures TrimEnd(rest + b) == rest
  {
    if b == "" {
      assert rest + b == rest;
    } else {
      var last := b[|b| - 1];
      assert last in b && Blank([last]);
      SpaceIff(last);
      assert (rest + b)[..|rest + b| - 1] == rest + b[..|b| - 1];
      EndTrimmed(rest, b[..|b| - 1]);
    }
  }

  /** Trimming takes all white space at both ends, and nothing else. */
  lemma TrimIff(text: string, word: string)
    ensures Padded(text, word) <==> Trim(text) == word
  {
    TrimPads(text);
    if Padded(text, word) {
      var a, b :| Blank(a) && Blank(b) && text == a + word + b;
      if word == "" {
        assert Blank(a + b) && text == a + b;
        BlankTrims(text);
      } else {
        SpaceIff(word[0]);
        SpaceIff(word[|word| - 1]);
        assert word[..1] == [word[0]] && word[|word| - 1..] == [word[|word| - 1]];
        assert text == a + (word + b);
        StartTrimmed(a, word + b);
        EndTrimmed(word, b);
      }
    }
  }
}
