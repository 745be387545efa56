/** The reference found does not depend on the order of the fields; what wins; how deep the scan goes. */
module AssignmentProperties {
  import opened Wrappers
  import opened DevinWire
  import opened Assignment
  import opened AssignmentNames

  // Candidates by their path.

  /** Following `path` from these fields leads to a value that names `uid`. */
  ghost predicate Leads(w: Scope, live: map<string, string>, fields: seq<Field>, path: seq<nat>, uid: string, source: Source)
    decreases |path|, 1
  {
    path != [] && exists i :: 0 <= i < |fields| && LeadsFrom(w, live, fields[i], path, uid, source)
  }

  ghost predicate LeadsFrom(w: Scope, live: map<string, string>, field: Field, path: seq<nat>, uid: string, source: Source)
    requires path != []
    decreases |path|, 0
  {
    && field.number == path[0] && field.value.Delimited?
    && if |path| == 1 then Names(w, live, field.value.bytes, uid, source)
       else exists fields :: Holds(w, field.value.bytes, fields) && Leads(w, live, fields, path[1..], uid, source)
  }

  lemma {:induction false} ScanExtendsPath(w: Scope, live: map<string, string>, fields: seq<Field>, depth: nat, path: seq<nat>, c: Candidate)
    requires c in Scan(w, live, fields, depth, path)
    ensures path < c.path
    decreases MAX_SCAN_DEPTH - depth, |fields|
  {
    var last := fields[|fields| - 1];
    if c in Scan(w, live, fields[..|fields| - 1], depth, path) {
      ScanExtendsPath(w, live, fields[..|fields| - 1], depth, path, c);
    } else if c in Nested(w, live, last, depth, path) {
      ScanExtendsPath(w, live, Inside(w, last.value.bytes).value, depth + 1, path + [last.number], c);
    }
  }

  lemma OwnCandidate(w: Scope, live: map<string, string>, field: Field, depth: nat, path: seq<nat>, p: seq<nat>, uid: string, source: Source, priority: nat)
    ensures Candidate(uid, source, path + p, priority) in Own(w, live, field, depth, path) <==>
            |p| == 1 && LeadsFrom(w, live, field, p, uid, source) && priority == Priority(depth, p[0])
  {
    assert (path + p)[|path|..] == p && (path + [field.number])[|path|..] == [field.number];
    if |p| == 1 && p[0] == field.number {
      assert p == [field.number];
    }
    if field.value.Delimited? {
      NamesIff(w, live, field.value.bytes, uid, source);
    }
  }

  lemma LeadsInside(w: Scope, live: map<string, string>, field: Field, p: seq<nat>, uid: string, source: Source)
    requires |p| > 1 && field.value.Delimited?
    ensures var inside := Inside(w, field.value.bytes);
            LeadsFrom(w, live, field, p, uid, source) <==>
            field.number == p[0] && inside.Some? && Leads(w, live, inside.value, p[1..], uid, source)
  {
    hide Leads, Parsed;
    var inside := Inside(w, field.value.bytes);
    if inside.Some? {
      HoldsIff(w, field.value.bytes, inside.value);
    }
  }

  /** What lies inside one field. */
  lemma {:induction false} NestedCandidate(w: Scope, live: map<string, string>, field: Field, depth: nat, path: seq<nat>, p: seq<nat>, uid: string, source: Source, priority: nat)
    requires depth <= MAX_SCAN_DEPTH
    ensures Candidate(uid, source, path + p, priority) in Nested(w, live, field, depth, path) <==>
            && 1 < |p| <= MAX_SCAN_DEPTH + 1 - depth && LeadsFrom(w, live, field, p, uid, source)
            && priority == Priority(depth + |p| - 1, p[|p| - 1])
    decreases MAX_SCAN_DEPTH - depth, 0
  {
    hide Scan, Leads, Inside, Names, Holds;
    var c := Candidate(uid, source, path + p, priority);
    if field.value.Delimited? && depth < MAX_SCAN_DEPTH && Inside(w, field.value.bytes).Some? {
      var fields := Inside(w, field.value.bytes).value;
      if c in Nested(w, live, field, depth, path) {
        ScanExtendsPath(w, live, fields, depth + 1, path + [field.number], c);
        assert c.path[|path|] == field.number;
      }
      if p != [] && p[0] == field.number {
        assert path + p == path + [field.number] + p[1..];
        ScanCandidates(w, live, fields, depth + 1, path + [field.number], p[1..], uid, source, priority);
      }
    }
    if |p| > 1 && field.value.Delimited? {
      LeadsInside(w, live, field, p, uid, source);
    }
  }

  /** The scan finds exactly the values that a path of at most depth-bounded length leads to. */
  lemma {:induction false} ScanCandidates(w: Scope, live: map<string, string>, fields: seq<Field>, depth: nat, path: seq<nat>, p: seq<nat>, uid: string, source: Source, priority: nat)
    requires depth <= MAX_SCAN_DEPTH
    ensures Candidate(uid, source, path + p, priority) in Scan(w, live, fields, depth, path) <==>
            && 0 < |p| <= MAX_SCAN_DEPTH + 1 - depth && Leads(w, live, fields, p, uid, source)
            && priority == Priority(depth + |p| - 1, p[|p| - 1])
    decreases MAX_SCAN_DEPTH - depth, 1, |fields|
  {
    if fields == [] {
    } else {
      var n := |fields| - 1;
      ScanCandidates(w, live, fields[..n], depth, path, p, uid, source, priority);
      OwnCandidate(w, live, fields[n], depth, path, p, uid, source, priority);
      NestedCandidate(w, live, fields[n], depth, path, p, uid, source, priority);
      LeadsSplit(w, live, fields, p, uid, source);
    }
  }

  lemma LeadsSplit(w: Scope, live: map<string, string>, fields: seq<Field>, p: seq<nat>, uid: string, source: Source)
    requires fields != []
    ensures var n := |fields| - 1;
            Leads(w, live, fields, p, uid, source) <==>
            Leads(w, live, fields[..n], p, uid, source) || (p != [] && LeadsFrom(w, live, fields[n], p, uid, source))
  {
    var n := |fields| - 1;
    if p != [] {
      if i :| 0 <= i < |fields| && LeadsFrom(w, live, fields[i], p, uid, source) {
        assert i < n ==> fields[..n][i] == fields[i];
      }
      if i :| 0 <= i < n && LeadsFrom(w, live, fields[..n][i], p, uid, source) {
        assert fields[..n][i] == fields[i];
      }
    }
  }

  /** Every candidate of a message: what leads to it, its depth bound, its priority. */
  lemma CandidateMeaning(w: Scope, live: map<string, string>, fields: seq<Field>, c: Candidate)
    ensures c in Scan(w, live, fields, 0, []) <==>
            && 0 < |c.path| <= 6 && Leads(w, live, fields, c.path, c.uid, c.source)
            && c.priority == Priority(|c.path| - 1, c.path[|c.path| - 1])
  {
    assert [] + c.path == c.path;
    ScanCandidates(w, live, fields, 0, [], c.path, c.uid, c.source, c.priority);
  }

  // The choice.

  ghost predicate Best(matches: seq<Candidate>, c: Candidate) {
    c in matches && forall d <- matches :: c.priority <= d.priority
  }

  predicate Ordered(s: seq<Candidate>) {
    s == [] || ((forall d <- s[1..] :: !KeyBelow(d, s[0])) && Ordered(s[1..]))
  }

  lemma {:induction false} InsertOrdered(c: Candidate, s: seq<Candidate>)
    requires Ordered(s)
    ensures Ordered(Insert(c, s)) && forall d :: d in Insert(c, s) <==> d == c || d in s
  {
    if s == [] {
    } else if !KeyBelow(s[0], c) {
      assert ([c] + s)[1..] == s;
      assert s == [s[0]] + s[1..];
    } else {
      InsertOrdered(c, s[1..]);
      assert s == [s[0]] + s[1..];
      assert ([s[0]] + Insert(c, s[1..]))[1..] == Insert(c, s[1..]);
    }
  }

  lemma {:induction false} SortedOrdered(s: seq<Candidate>)
    ensures Ordered(Sorted(s)) && forall d :: d in Sorted(s) <==> d in s
  {
    if s == [] {
    } else {
      SortedOrdered(s[1..]);
      InsertOrdered(s[0], Sorted(s[1..]));
      assert s == [s[0]] + s[1..];
    }
  }

  lemma {:induction false} PeersMeaning(s: seq<Candidate>, priority: nat, uid: string)
    requires Ordered(s) && forall d <- s :: priority <= d.priority
    ensures uid in Peers(s, priority) <==> exists d :: d in s && d.priority == priority && d.uid == uid
  {
    if s == [] {
    } else {
      assert s == [s[0]] + s[1..];
      if s[0].priority == priority {
        PeersMeaning(s[1..], priority, uid);
      } else {
        forall d <- s
          ensures d.priority != priority
        {
          assert d == s[0] || d in s[1..];
        }
      }
    }
  }

  predicate Ascending(uids: seq<string>) {
    uids == [] || ((forall u <- uids[1..] :: Below(uids[0], u)) && Ascending(uids[1..]))
  }

  lemma {:induction false} BelowTransitive(a: string, b: string, c: string)
    requires Below(a, b) && Below(b, c)
    ensures Below(a, c)
  {
    if a == "" || a[0] < b[0] || b[0] < c[0] {
    } else {
      BelowTransitive(a[1..], b[1..], c[1..]);
    }
  }

  lemma {:induction false} BelowTotal(a: string, b: string)
    ensures (Below(a, b) || a == b || Below(b, a)) && !(Below(a, b) && Below(b, a))
  {
    if a == "" || b == "" {
    } else {
      BelowTotal(a[1..], b[1..]);
      assert a == [a[0]] + a[1..] && b == [b[0]] + b[1..];
    }
  }

  lemma {:induction false} BelowIrreflexive(a: string)
    ensures !Below(a, a)
  {
    if a != "" {
      BelowIrreflexive(a[1..]);
    }
  }

  lemma {:induction false} InsertUidAscending(uid: string, uids: seq<string>)
    requires Ascending(uids)
    ensures Ascending(InsertUid(uid, uids)) && forall u :: u in InsertUid(uid, uids) <==> u == uid || u in uids
  {
    if uids == [] {
    } else {
      assert uids == [uids[0]] + uids[1..];
      BelowTotal(uid, uids[0]);
      if Below(uid, uids[0]) {
        assert ([uid] + uids)[1..] == uids;
        forall u <- uids
          ensures Below(uid, u)
        {
          if u != uids[0] {
            BelowTransitive(uid, uids[0], u);
          }
        }
      } else if uid != uids[0] {
        InsertUidAscending(uid, uids[1..]);
        assert ([uids[0]] + InsertUid(uid, uids[1..]))[1..] == InsertUid(uid, uids[1..]);
      }
    }
  }

  lemma {:induction false} DistinctAscending(uids: seq<string>)
    ensures Ascending(Distinct(uids)) && forall u :: u in Distinct(uids) <==> u in uids
  {
    if uids == [] {
    } else {
      DistinctAscending(uids[1..]);
      InsertUidAscending(uids[0], Distinct(uids[1..]));
      assert uids == [uids[0]] + uids[1..];
    }
  }

  /** Ascending sequences with the same elements are equal. */
  lemma {:induction false} AscendingUnique(a: seq<string>, b: seq<string>)
    requires Ascending(a) && Ascending(b) && forall u :: u in a <==> u in b
    ensures a == b
  {
    assert |a| > 0 ==> a[0] in b;
    assert |b| > 0 ==> b[0] in a;
    if a == [] || b == [] {
    } else {
      assert a == [a[0]] + a[1..] && b == [b[0]] + b[1..];
      assert a[0] in b && b[0] in a;
      BelowTotal(a[0], b[0]);
      assert a[0] == b[0];
      forall u
        ensures u in a[1..] <==> u in b[1..]
      {
        BelowIrreflexive(a[0]);
        assert u in a <==> u in b;
      }
      AscendingUnique(a[1..], b[1..]);
    }
  }

  /**
   What the choice means: the uids that share the best priority, sorted; ambiguous exactly
   when two of them differ; otherwise the reference is one of the best candidates.
   */
  lemma ResolvedMeaning(matches: seq<Candidate>)
    ensures var r := Resolved(matches);
            && Ascending(r.candidates)
            && (forall u :: u in r.candidates <==> exists c :: Best(matches, c) && c.uid == u)
            && (r.ambiguous <==> exists c, d :: Best(matches, c) && Best(matches, d) && c.uid != d.uid)
            && (r.ambiguous <==> |r.candidates| > 1)
            && r.uid == (if |r.candidates| == 1 then r.candidates[0] else "")
            && (matches == [] || r.ambiguous || exists c :: Best(matches, c) && c.uid == r.uid && c.path == r.path && c.source == r.source)
            && (matches == [] ==> r == NO_REFERENCE)
  {
    var sorted := Sorted(matches);
    SortedOrdered(matches);
    assert |matches| > 0 ==> matches[0] in sorted;
    if sorted != [] {
      var best := sorted[0];
      forall d <- matches
        ensures best.priority <= d.priority
      {
        assert d in sorted && sorted == [best] + sorted[1..];
      }
      assert Best(matches, best);
      var uids := Peers(sorted, best.priority);
      var peers := Distinct(uids);
      DistinctAscending(uids);
      forall u
        ensures u in peers <==> exists c :: Best(matches, c) && c.uid == u
      {
        PeersMeaning(sorted, best.priority, u);
      }
      assert best.uid in peers;
      TwoDiffer(peers);
      TwoBest(matches, peers);
    }
  }

  lemma TwoBest(matches: seq<Candidate>, uids: seq<string>)
    requires forall u :: u in uids <==> exists c :: Best(matches, c) && c.uid == u
    ensures (exists u, v :: u in uids && v in uids && u != v) <==> exists c, d :: Best(matches, c) && Best(matches, d) && c.uid != d.uid
  {
    if u, v :| u in uids && v in uids && u != v {
      var c :| Best(matches, c) && c.uid == u;
      var d :| Best(matches, d) && d.uid == v;
    }
    if c, d :| Best(matches, c) && Best(matches, d) && c.uid != d.uid {
      assert c.uid in uids && d.uid in uids;
    }
  }

  lemma TwoDiffer(uids: seq<string>)
    requires Ascending(uids)
    ensures |uids| > 1 <==> exists u, v :: u in uids && v in uids && u != v
  {
    if |uids| > 1 {
      assert uids[1] in uids[1..];
      BelowIrreflexive(uids[0]);
      assert uids[0] in uids && uids[1] in uids && uids[0] != uids[1];
    }
  }

  // Order independence.

  lemma ScanSnoc(w: Scope, live: map<string, string>, fields: seq<Field>, field: Field)
    ensures Scan(w, live, fields + [field], 0, []) == Scan(w, live, fields, 0, []) + FieldScan(w, live, field, 0, [])
  {
    assert (fields + [field])[..|fields|] == fields;
  }

  lemma {:induction false} ScanConcat(w: Scope, live: map<string, string>, a: seq<Field>, b: seq<Field>)
    ensures Scan(w, live, a + b, 0, []) == Scan(w, live, a, 0, []) + Scan(w, live, b, 0, [])
    decreases |b|
  {
    if b == [] {
      assert a + b == a;
    } else {
      var init, last := b[..|b| - 1], b[|b| - 1];
      assert a + b == a + init + [last] && b == init + [last];
      ScanConcat(w, live, a, init);
      ScanSnoc(w, live, a + init, last);
      ScanSnoc(w, live, init, last);
      Regroup(Scan(w, live, a, 0, []), Scan(w, live, init, 0, []), FieldScan(w, live, last, 0, []));
    }
  }

  lemma {:induction false} ScanBag(w: Scope, live: map<string, string>, a: seq<Field>, b: seq<Field>)
    requires multiset(a) == multiset(b)
    ensures multiset(Scan(w, live, a, 0, [])) == multiset(Scan(w, live, b, 0, []))
  {
    if a == [] {
      assert |multiset(b)| == |b|;
      assert |multiset(a)| == 0;
    } else {
      hide Scan, FieldScan;
      var n := |a| - 1;
      var x := a[n];
      assert a == a[..n] + [x];
      assert x in multiset(b);
      var i :| 0 <= i < |b| && b[i] == x;
      assert b == b[..i] + [x] + b[i + 1..];
      assert multiset(a[..n]) == multiset(a) - multiset{x};
      assert multiset(b[..i] + b[i + 1..]) == multiset(b) - multiset{x};
      ScanBag(w, live, a[..n], b[..i] + b[i + 1..]);
      ScanSnoc(w, live, a[..n], x);
      ScanSnoc(w, live, b[..i], x);
      ScanConcat(w, live, b[..i] + [x], b[i + 1..]);
      ScanConcat(w, live, b[..i], b[i + 1..]);
    }
  }

  /** Permuting the top-level fields changes neither the uid, nor the ambiguity, nor the candidates. */
  lemma OrderIndependence(w: Scope, live: map<string, string>, a: seq<Field>, b: seq<Field>)
    requires multiset(a) == multiset(b)
    ensures var (r, s) := (Resolved(Scan(w, live, a, 0, [])), Resolved(Scan(w, live, b, 0, [])));
            r.uid == s.uid && r.ambiguous == s.ambiguous && r.candidates == s.candidates
  {
    ScanBag(w, live, a, b);
    var ma, mb := Scan(w, live, a, 0, []), Scan(w, live, b, 0, []);
    SameBest(ma, mb);
    ResolvedMeaning(ma);
    ResolvedMeaning(mb);
    AscendingUnique(Resolved(ma).candidates, Resolved(mb).candidates);
  }

  lemma SameBest(a: seq<Candidate>, b: seq<Candidate>)
    requires multiset(a) == multiset(b)
    ensures forall c :: Best(a, c) <==> Best(b, c)
  {
    assert forall c :: c in a <==> c in multiset(a);
    assert forall c :: c in b <==> c in multiset(b);
  }

  // What wins.

  /** The best candidates are the shallowest ones, and at the top level field 21 alone if it names a model. */
  lemma ShallowestWins(w: Scope, live: map<string, string>, fields: seq<Field>, c: Candidate)
    ensures var matches := Scan(w, live, fields, 0, []);
            Best(matches, c) <==>
            && c in matches
            && (forall d <- matches :: |c.path| <= |d.path|)
            && (c.path == [21] || forall d <- matches :: d.path != [21])
  {
    var matches := Scan(w, live, fields, 0, []);
    forall d <- matches
      ensures 0 < |d.path| && d.priority == if d.path == [21] then 0 else if |d.path| == 1 then 10 else (|d.path| - 1) * 100 + 10
    {
      CandidateMeaning(w, live, fields, d);
      assert |d.path| == 1 ==> d.path == [d.path[0]];
    }
  }

  /** Field 21 of the message names this model. */
  ghost predicate ModelFieldNames(w: Scope, live: map<string, string>, fields: seq<Field>, uid: string) {
    exists s :: Leads(w, live, fields, [21], uid, s)
  }

  /** A model named by field 21 of the message itself is the only thing that counts. */
  lemma ModelFieldWins(w: Scope, live: map<string, string>, fields: seq<Field>, uid: string, source: Source)
    requires Leads(w, live, fields, [21], uid, source)
    ensures var r := Resolved(Scan(w, live, fields, 0, []));
            && (forall u :: u in r.candidates <==> ModelFieldNames(w, live, fields, u))
            && (!r.ambiguous ==> r.uid == uid && r.path == [21])
  {
    var matches := Scan(w, live, fields, 0, []);
    var r := Resolved(matches);
    ResolvedMeaning(matches);
    forall u
      ensures u in r.candidates <==> ModelFieldNames(w, live, fields, u)
    {
      ModelFieldCandidate(w, live, fields, u, uid, source);
    }
    assert uid in r.candidates;
    if !r.ambiguous {
      var c :| Best(matches, c) && c.uid == r.uid && c.path == r.path && c.source == r.source;
      BestIsModelField(w, live, fields, c, uid, source);
    }
  }

  lemma ModelFieldCandidate(w: Scope, live: map<string, string>, fields: seq<Field>, u: string, uid: string, source: Source)
    requires Leads(w, live, fields, [21], uid, source)
    ensures u in Resolved(Scan(w, live, fields, 0, [])).candidates <==> ModelFieldNames(w, live, fields, u)
  {
    var matches := Scan(w, live, fields, 0, []);
    ResolvedMeaning(matches);
    if c :| Best(matches, c) && c.uid == u {
      BestIsModelField(w, live, fields, c, uid, source);
    }
    if ModelFieldNames(w, live, fields, u) {
      var s :| Leads(w, live, fields, [21], u, s);
      BestIsModelField(w, live, fields, Candidate(u, s, [21], 0), uid, source);
    }
  }

  lemma BestIsModelField(w: Scope, live: map<string, string>, fields: seq<Field>, c: Candidate, uid: string, source: Source)
    requires Leads(w, live, fields, [21], uid, source)
    ensures Best(Scan(w, live, fields, 0, []), c) <==>
            c.path == [21] && c.priority == 0 && Leads(w, live, fields, [21], c.uid, c.source)
  {
    CandidateMeaning(w, live, fields, Candidate(uid, source, [21], 0));
    CandidateMeaning(w, live, fields, c);
    ShallowestWins(w, live, fields, c);
  }

  /** The client reads back one nested message, and in it the token, the model and the harness. */
  lemma TokenResponseIsReadable(token: Bytes, uid: Bytes, harnessUid: Bytes)
    requires |token| < TWO_TO_THE_64 && |uid| < TWO_TO_THE_64 && |harnessUid| < TWO_TO_THE_64
    requires |TokenResponse(token, uid, harnessUid)| < TWO_TO_THE_64
    ensures exists inner ::
              && Parsed(TokenResponse(token, uid, harnessUid), 0) == Some([Field(1, Delimited(inner))])
              && Parsed(inner, 0) == Some([Field(1, Delimited(token)), Field(2, Delimited(uid)), Field(3, Delimited(harnessUid))])
  {
    hide Parsed, Serialized;
    var inner := Serialized(AssignmentFields(token, uid, harnessUid));
    OneField(inner);
    RoundTrip([Field(1, Delimited(inner))]);
    RoundTrip(AssignmentFields(token, uid, harnessUid));
  }

  /** A message of one field is longer than the field. */
  lemma OneField(inner: Bytes)
    ensures |inner| < |Serialized([Field(1, Delimited(inner))])|
  {
    hide Encoded;
    assert [Field(1, Delimited(inner))][1..] == [];
  }
}
