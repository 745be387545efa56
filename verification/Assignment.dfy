/**
 Which model a Devin request means: a header holding an assignment token, or a
 depth-bounded scan of the message for model uids and tokens.
 */
module Assignment {
  import opened Wrappers
  import opened DevinWire

  const MAX_SCAN_DEPTH: nat := 5
  const MAX_NESTED_BYTES: nat := 2 * 1024 * 1024
  const MODEL_FIELD: nat := 21
  const BEARER := "Bearer "

  /** What the scan takes from outside: UTF-8 decoding and the known model uids. */
  datatype Scope = Scope(utf8: Bytes -> Option<string>, models: set<string>)

  datatype Source = NoSource | ModelUid | TokenField | TokenHeader | TokenBearer

  datatype Candidate = Candidate(uid: string, source: Source, path: seq<nat>, priority: nat)

  datatype ModelReference = ModelReference(uid: string, source: Source, path: seq<nat>, candidates: seq<string>, ambiguous: bool)

  const NO_REFERENCE := ModelReference("", NoSource, [], [], false)

  datatype Error = BadHeader | BadPayload

  // Assignment tokens.

  datatype Issued = Issued(uid: string, token: string, expiresAt: nat)

  type Tokens = map<string, Issued>

  function Pruned(tokens: Tokens, now: nat): Tokens {
    map token | token in tokens && tokens[token].expiresAt > now :: tokens[token]
  }

  /** Unexpired tokens and their models. */
  function Live(tokens: Tokens, now: nat): map<string, string> {
    map token | token in tokens && tokens[token].expiresAt > now :: tokens[token].uid
  }

  datatype Call = Issue(uid: string, token: string, now: nat) | Resolve(token: string, now: nat) | Clear

  /** The tokens after a call: every call but clearing forgets expired ones first. */
  function After(tokens: Tokens, call: Call, ttl: nat): Tokens {
    match call
    case Issue(uid, token, now) => Pruned(tokens, now)[token := Issued(uid, token, now + ttl)]
    case Resolve(_, now) => Pruned(tokens, now)
    case Clear => map[]
  }

  class AssignmentSessions {
    const ttl: nat
    var tokens: Tokens

    constructor (ttl: nat)
      ensures this.ttl == ttl && tokens == map[]
    {
      this.ttl := ttl;
      tokens := map[];
    }

    method Prune(now: nat)
      modifies this
      ensures tokens == Pruned(old(tokens), now)
    {
      tokens := map token | token in tokens && tokens[token].expiresAt > now :: tokens[token];
    }

    method Issue(uid: string, token: string, now: nat) returns (assignment: Issued)
      modifies this
      ensures tokens == After(old(tokens), Call.Issue(uid, token, now), ttl)
      ensures Lookup(tokens, token) == Some(assignment)
    {
      assignment := Issued(uid, token, now + ttl);
      Prune(now);
      tokens := tokens[token := assignment];
    }

    method UidForToken(token: string, now: nat) returns (uid: Option<string>)
      modifies this
      ensures uid == Lookup(Live(old(tokens), now), token)
      ensures tokens == After(old(tokens), Resolve(token, now), ttl) && Live(tokens, now) == Live(old(tokens), now)
    {
      Prune(now);
      uid := if token in tokens then Some(tokens[token].uid) else None;
    }

    method Clear()
      modifies this
      ensures tokens == After(old(tokens), Call.Clear, ttl)
    {
      tokens := map[];
    }
  }

  // The scan.

  predicate IsHexDigit(b: byte) {
    48 <= b <= 57 || 65 <= b <= 70 || 97 <= b <= 102
  }

  /** The text form of a UUID: 8-4-4-4-12 hexadecimal digits. */
  predicate LooksLikeToken(value: Bytes) {
    && |value| == 36
    && forall i | 0 <= i < |value| :: if i in {8, 13, 18, 23} then value[i] == 45 else IsHexDigit(value[i])
  }

  /** The model that a value names, directly or through a live token. */
  function Named(w: Scope, live: map<string, string>, value: Bytes): Option<(string, Source)> {
    match w.utf8(value)
    case None => None
    case Some(text) =>
      if text in w.models then Some((text, ModelUid))
      else if LooksLikeToken(value) && text in live then Some((live[text], TokenField))
      else None
  }

  function Priority(depth: nat, number: nat): nat {
    if depth == 0 && number == MODEL_FIELD then 0 else if depth == 0 then 10 else depth * 100 + 10
  }

  /** The message nested in a value. */
  function Inside(w: Scope, value: Bytes): Option<seq<Field>> {
    if w.utf8(value).Some? && 0 < |value| <= MAX_NESTED_BYTES then Parsed(value, 0) else None
  }

  function Own(w: Scope, live: map<string, string>, field: Field, depth: nat, path: seq<nat>): seq<Candidate> {
    if !field.value.Delimited? then []
    else match Named(w, live, field.value.bytes)
         case None => []
         case Some(found) => [Candidate(found.0, found.1, path + [field.number], Priority(depth, field.number))]
  }

  function Nested(w: Scope, live: map<string, string>, field: Field, depth: nat, path: seq<nat>): seq<Candidate>
    decreases MAX_SCAN_DEPTH - depth, 0, 0
  {
    if !field.value.Delimited? || depth >= MAX_SCAN_DEPTH then []
    else match Inside(w, field.value.bytes)
         case None => []
         case Some(fields) => Scan(w, live, fields, depth + 1, path + [field.number])
  }

  /** All candidates in a message, in the order of the scan. */
  function Scan(w: Scope, live: map<string, string>, fields: seq<Field>, depth: nat, path: seq<nat>): seq<Candidate>
    decreases MAX_SCAN_DEPTH - depth, 1, |fields|
  {
    if fields == [] then []
    else
      Scan(w, live, fields[..|fields| - 1], depth, path) + FieldScan(w, live, fields[|fields| - 1], depth, path)
  }

  /** The candidates of one field: its value before what is nested in it. */
  function FieldScan(w: Scope, live: map<string, string>, field: Field, depth: nat, path: seq<nat>): seq<Candidate>
    decreases MAX_SCAN_DEPTH - depth, 0, 1
  {
    Own(w, live, field, depth, path) + Nested(w, live, field, depth, path)
  }

  class Scanner {
    var path: seq<nat>
    var output: seq<Candidate>

    constructor ()
      ensures path == [] && output == []
    {
      path, output := [], [];
    }

    method ScanFields(w: Scope, sessions: AssignmentSessions, now: nat, fields: seq<Field>, depth: nat)
      requires depth <= MAX_SCAN_DEPTH
      modifies this, sessions
      ensures path == old(path)
      ensures output == old(output) + Scan(w, Live(old(sessions.tokens), now), fields, depth, old(path))
      ensures Live(sessions.tokens, now) == Live(old(sessions.tokens), now)
      decreases MAX_SCAN_DEPTH - depth
    {
      hide Live, FieldScan, Parsed;
      ghost var live := Live(sessions.tokens, now);
      var i := 0;
      while i < |fields|
        invariant 0 <= i <= |fields|
        invariant path == old(path) && Live(sessions.tokens, now) == live
        invariant output == old(output) + Scan(w, live, fields[..i], depth, path)
      {
        assert fields[..i + 1][..i] == fields[..i];
        ScanField(w, sessions, now, fields[i], depth);
        assert output == old(output) + Scan(w, live, fields[..i + 1], depth, path);
        i := i + 1;
      }
      assert fields[..i] == fields;
    }

    method NameOf(w: Scope, sessions: AssignmentSessions, now: nat, value: Bytes, text: string) returns (found: Option<(string, Source)>)
      requires w.utf8(value) == Some(text)
      modifies sessions
      ensures found == Named(w, Live(old(sessions.tokens), now), value)
      ensures Live(sessions.tokens, now) == Live(old(sessions.tokens), now)
    {
      found := None;
      if text in w.models {
        found := Some((text, ModelUid));
      } else if LooksLikeToken(value) {
        var uid := sessions.UidForToken(text, now);
        if uid.Some? {
          found := Some((uid.value, TokenField));
        }
      }
    }

    /** The body of the loop over the fields. */
    method ScanField(w: Scope, sessions: AssignmentSessions, now: nat, field: Field, depth: nat)
      requires depth <= MAX_SCAN_DEPTH
      modifies this, sessions
      ensures path == old(path)
      ensures var live := Live(old(sessions.tokens), now);
              output == old(output) + FieldScan(w, live, field, depth, old(path))
      ensures Live(sessions.tokens, now) == Live(old(sessions.tokens), now)
      decreases MAX_SCAN_DEPTH - depth, 0
    {
      hide Live, LooksLikeToken, Parsed, Scan;
      if !field.value.Delimited? {
        return;
      }
      var value := field.value.bytes;
      var text := w.utf8(value);
      if text.None? {
        return;
      }
      var found := NameOf(w, sessions, now, value, text.value);
      if found.Some? {
        output := output + [Candidate(found.value.0, found.value.1, path + [field.number], Priority(depth, field.number))];
      }
      if depth < MAX_SCAN_DEPTH && value != [] && |value| <= MAX_NESTED_BYTES {
        var fields := ParseFields(value);
        if fields.Some? {
          path := path + [field.number];
          ScanFields(w, sessions, now, fields.value, depth + 1);
          path := path[..|path| - 1];
        }
      }
    }
  }

  // The choice.

  predicate KeyBelow(a: Candidate, b: Candidate) {
    a.priority < b.priority || (a.priority == b.priority && |a.path| < |b.path|)
  }

  function Insert(c: Candidate, sorted: seq<Candidate>): seq<Candidate> {
    if sorted == [] || !KeyBelow(sorted[0], c) then [c] + sorted else [sorted[0]] + Insert(c, sorted[1..])
  }

  /** Stable sort by priority, then path length. */
  function Sorted(matches: seq<Candidate>): seq<Candidate> {
    if matches == [] then [] else Insert(matches[0], Sorted(matches[1..]))
  }

  function Peers(sorted: seq<Candidate>, priority: nat): seq<string> {
    if sorted == [] || sorted[0].priority != priority then [] else [sorted[0].uid] + Peers(sorted[1..], priority)
  }

  /** Lexicographic order. */
  predicate Below(a: string, b: string) {
    b != "" && (a == "" || a[0] < b[0] || (a[0] == b[0] && Below(a[1..], b[1..])))
  }

  function InsertUid(uid: string, uids: seq<string>): seq<string> {
    if uids == [] || Below(uid, uids[0]) then [uid] + uids
    else if uid == uids[0] then uids
    else [uids[0]] + InsertUid(uid, uids[1..])
  }

  /** Sorted, without repetitions. */
  function Distinct(uids: seq<string>): seq<string> {
    if uids == [] then [] else InsertUid(uids[0], Distinct(uids[1..]))
  }

  function Resolved(matches: seq<Candidate>): ModelReference {
    var sorted := Sorted(matches);
    if sorted == [] then NO_REFERENCE
    else
      var best := sorted[0];
      var peers := Distinct(Peers(sorted, best.priority));
      if |peers| > 1 then NO_REFERENCE.(candidates := peers, ambiguous := true)
      else ModelReference(best.uid, best.source, best.path, peers, false)
  }

  /** The first header that is or carries a live token; a header that is not visible text is an error. */
  function HeaderReference(live: map<string, string>, headers: seq<Option<string>>): Result<Option<ModelReference>, Error> {
    if headers == [] then Ok(None)
    else match headers[0]
         case None => Err(BadHeader)
         case Some(value) =>
           if value in live then Ok(Some(NO_REFERENCE.(uid := live[value], source := TokenHeader)))
           else if BEARER <= value && value[|BEARER|..] in live then
             Ok(Some(NO_REFERENCE.(uid := live[value[|BEARER|..]], source := TokenBearer)))
           else HeaderReference(live, headers[1..])
  }

  function Reference(w: Scope, live: map<string, string>, headers: seq<Option<string>>, payload: Bytes): Result<ModelReference, Error> {
    match HeaderReference(live, headers)
    case Err(error) => Err(error)
    case Ok(Some(reference)) => Ok(reference)
    case Ok(None) =>
      match Parsed(payload, 0)
      case None => Err(BadPayload)
      case Some(fields) => Ok(Resolved(Scan(w, live, fields, 0, [])))
  }

  method FindModelReference(w: Scope, sessions: AssignmentSessions, now: nat, headers: seq<Option<string>>, payload: Bytes)
    returns (r: Result<ModelReference, Error>)
    modifies sessions
    ensures r == Reference(w, Live(old(sessions.tokens), now), headers, payload)
    ensures Live(sessions.tokens, now) == Live(old(sessions.tokens), now)
  {
    ghost var live := Live(sessions.tokens, now);
    var i := 0;
    while i < |headers|
      invariant 0 <= i <= |headers|
      invariant Live(sessions.tokens, now) == live
      invariant HeaderReference(live, headers) == HeaderReference(live, headers[i..])
    {
      if headers[i].None? {
        return Err(BadHeader);
      }
      var value := headers[i].value;
      var uid := sessions.UidForToken(value, now);
      if uid.Some? {
        return Ok(NO_REFERENCE.(uid := uid.value, source := TokenHeader));
      }
      if BEARER <= value {
        uid := sessions.UidForToken(value[|BEARER|..], now);
        if uid.Some? {
          return Ok(NO_REFERENCE.(uid := uid.value, source := TokenBearer));
        }
      }
      i := i + 1;
    }
    var fields := ParseFields(payload);
    if fields.None? {
      return Err(BadPayload);
    }
    var scanner := new Scanner();
    scanner.ScanFields(w, sessions, now, fields.value, 0);
    assert scanner.output == Scan(w, live, fields.value, 0, []);
    var matches := Sorted(scanner.output);
    if matches == [] {
      return Ok(NO_REFERENCE);
    }
    var best := matches[0];
    var peers := Distinct(Peers(matches, best.priority));
    if |peers| > 1 {
      return Ok(NO_REFERENCE.(candidates := peers, ambiguous := true));
    }
    return Ok(ModelReference(best.uid, best.source, best.path, peers, false));
  }

  // The response that hands out a token: a message of one nested message.

  function AssignmentFields(token: Bytes, uid: Bytes, harnessUid: Bytes): seq<Field> {
    [Field(1, Delimited(token)), Field(2, Delimited(uid)), Field(3, Delimited(harnessUid))]
  }

  function TokenResponse(token: Bytes, uid: Bytes, harnessUid: Bytes): Bytes {
    Serialized([Field(1, Delimited(Serialized(AssignmentFields(token, uid, harnessUid))))])
  }

  method AssignmentTokenResponse(token: Bytes, uid: Bytes, harnessUid: Bytes) returns (r: Option<Bytes>)
    ensures r == Some(TokenResponse(token, uid, harnessUid))
  {
    var assignment := SerializeFields(AssignmentFields(token, uid, harnessUid));
    if assignment.None? {
      return None;
    }
    r := SerializeFields([Field(1, Delimited(assignment.value))]);
  }
}
