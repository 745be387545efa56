/** Headers before messages: the first header that says anything decides alone. */
module AssignmentHeaders {
  import opened Wrappers
  import opened DevinWire
  import opened Assignment

  /** A header that cannot be read, is a live token, or carries one behind `Bearer `. */
  predicate Speaks(live: map<string, string>, header: Option<string>) {
    match header
    case None => true
    case Some(value) => value in live || exists token :: token in live && value == "Bearer " + token
  }

  /** Position `k` is that of the first header that speaks. */
  predicate FirstToSpeak(live: map<string, string>, headers: seq<Option<string>>, k: nat) {
    && k < |headers| && Speaks(live, headers[k])
    && forall i | 0 <= i < k :: !Speaks(live, headers[i])
  }

  predicate NoneSpeaks(live: map<string, string>, headers: seq<Option<string>>) {
    forall i | 0 <= i < |headers| :: !Speaks(live, headers[i])
  }

  /** The answer of one header: a whole live token goes before one behind `Bearer `. */
  ghost predicate AnswersFor(r: Result<ModelReference, Error>, live: map<string, string>, header: Option<string>) {
    match header
    case None => r == Err(BadHeader)
    case Some(value) =>
      if value in live then r == Ok(ModelReference(live[value], TokenHeader, [], [], false))
      else exists token :: token in live && value == "Bearer " + token && r == Ok(ModelReference(live[token], TokenBearer, [], [], false))
  }

  lemma Carried(live: map<string, string>, value: string)
    ensures BEARER <= value && value[|BEARER|..] in live <==> exists token :: token in live && value == "Bearer " + token
  {
    if BEARER <= value && value[|BEARER|..] in live {
      assert value == "Bearer " + value[|BEARER|..];
    }
    if token :| token in live && value == "Bearer " + token {
      assert value[|BEARER|..] == token;
    }
  }

  lemma {:induction false} FirstAnswers(w: Scope, live: map<string, string>, headers: seq<Option<string>>, payload: Bytes, k: nat)
    requires FirstToSpeak(live, headers, k)
    ensures AnswersFor(Reference(w, live, headers, payload), live, headers[k])
    decreases k
  {
    hide Parsed, Scan, Resolved;
    if k > 0 {
      assert !Speaks(live, headers[0]);
      Carried(live, headers[0].value);
      FirstAnswers(w, live, headers[1..], payload, k - 1);
    } else if headers[0].Some? {
      var value := headers[0].value;
      Carried(live, value);
      if value !in live {
        assert value == "Bearer " + value[|BEARER|..];
      }
    }
  }

  lemma {:induction false} SilentHeaders(live: map<string, string>, headers: seq<Option<string>>)
    requires NoneSpeaks(live, headers)
    ensures HeaderReference(live, headers) == Ok(None)
  {
    if headers != [] {
      assert !Speaks(live, headers[0]);
      Carried(live, headers[0].value);
      SilentHeaders(live, headers[1..]);
    }
  }

  /**
   The first header that speaks decides, whatever the message says and whatever follows it; if
   none does, the message decides: a message that cannot be read is refused, and from any
   other comes the choice among its candidates.
   */
  lemma HeadersDecide(w: Scope, live: map<string, string>, headers: seq<Option<string>>, payload: Bytes)
    ensures forall k: nat :: FirstToSpeak(live, headers, k) ==> AnswersFor(Reference(w, live, headers, payload), live, headers[k])
    ensures NoneSpeaks(live, headers) ==>
              Reference(w, live, headers, payload) ==
              match Parsed(payload, 0)
              case None => Err(BadPayload)
              case Some(fields) => Ok(Resolved(Scan(w, live, fields, 0, [])))
    ensures NoneSpeaks(live, headers) <==> forall k: nat :: !FirstToSpeak(live, headers, k)
  {
    forall k: nat | FirstToSpeak(live, headers, k)
      ensures AnswersFor(Reference(w, live, headers, payload), live, headers[k])
    {
      FirstAnswers(w, live, headers, payload, k);
    }
    if NoneSpeaks(live, headers) {
      SilentHeaders(live, headers);
    } else {
      SomeFirst(live, headers, 0);
    }
  }

  lemma {:induction false} SomeFirst(live: map<string, string>, headers: seq<Option<string>>, from: nat)
    requires from <= |headers| && forall i | 0 <= i < from :: !Speaks(live, headers[i])
    requires !NoneSpeaks(live, headers)
    ensures exists k: nat :: FirstToSpeak(live, headers, k)
    decreases |headers| - from
  {
    if from < |headers| && Speaks(live, headers[from]) {
      assert FirstToSpeak(live, headers, from);
    } else if from < |headers| {
      SomeFirst(live, headers, from + 1);
    }
  }
}
