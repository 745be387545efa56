/** When does the path reported with a model reference depend on the order of the fields? */
module AssignmentPaths {
  import opened Wrappers
  import opened DevinWire
  import opened Assignment
  import opened AssignmentProperties

  /** The best priority. */
  function Least(matches: seq<Candidate>): nat
    requires matches != []
  {
    if |matches| == 1 || matches[0].priority <= Least(matches[1..]) then matches[0].priority else Least(matches[1..])
  }

  lemma {:induction false} LeastMeaning(matches: seq<Candidate>)
    requires matches != []
    ensures forall c <- matches :: Least(matches) <= c.priority
    ensures exists c :: c in matches && c.priority == Least(matches)
  {
    assert matches == [matches[0]] + matches[1..];
    assert matches[0] in matches;
    if |matches| > 1 {
      LeastMeaning(matches[1..]);
      var c :| c in matches[1..] && c.priority == Least(matches[1..]);
      assert c in matches;
    }
  }

  /** The first candidate with a priority, in the order of the scan. */
  function First(matches: seq<Candidate>, priority: nat): Option<Candidate> {
    if matches == [] then None
    else if matches[0].priority == priority then Some(matches[0])
    else First(matches[1..], priority)
  }

  lemma {:induction false} FirstMeaning(matches: seq<Candidate>, priority: nat)
    ensures First(matches, priority).Some? <==> exists c :: c in matches && c.priority == priority
    ensures var c := First(matches, priority); c.Some? ==> c.value in matches && c.value.priority == priority
  {
    if matches != [] {
      assert matches == [matches[0]] + matches[1..];
      FirstMeaning(matches[1..], priority);
    }
  }

  lemma {:induction false} FirstConcat(a: seq<Candidate>, b: seq<Candidate>, priority: nat)
    ensures First(a + b, priority) == if First(a, priority).Some? then First(a, priority) else First(b, priority)
  {
    if a == [] {
      assert a + b == b;
    } else {
      assert (a + b)[1..] == a[1..] + b;
      FirstConcat(a[1..], b, priority);
    }
  }

  /** Candidates of the best priority have paths of one length, so the stable sort brings the first of them to the front. */
  lemma {:induction false} SortedHead(matches: seq<Candidate>, priority: nat, length: nat)
    requires forall c <- matches :: c.priority >= priority && (c.priority == priority ==> |c.path| == length)
    requires First(matches, priority).Some?
    ensures Sorted(matches) != [] && Some(Sorted(matches)[0]) == First(matches, priority)
  {
    var rest := Sorted(matches[1..]);
    assert matches == [matches[0]] + matches[1..];
    SortedOrdered(matches[1..]);
    if matches[0].priority == priority {
      assert rest == [] || rest[0] in rest;
    } else {
      SortedHead(matches[1..], priority, length);
      FirstMeaning(matches[1..], priority);
      assert KeyBelow(rest[0], matches[0]);
    }
  }

  /** The path of a message's reference: that of its first best candidate, if the reference is not ambiguous. */
  lemma ResolvedPath(w: Scope, live: map<string, string>, fields: seq<Field>)
    ensures var (matches, r) := (Scan(w, live, fields, 0, []), Resolved(Scan(w, live, fields, 0, [])));
            if matches == [] || r.ambiguous then r.path == []
            else First(matches, Least(matches)).Some? && r.path == First(matches, Least(matches)).value.path
  {
    var matches := Scan(w, live, fields, 0, []);
    if matches != [] {
      LeastMeaning(matches);
      FirstMeaning(matches, Least(matches));
      var c := First(matches, Least(matches)).value;
      forall d <- matches
        ensures d.priority == c.priority ==> |d.path| == |c.path|
      {
        if d.priority == c.priority {
          assert Best(matches, c) && Best(matches, d);
          ShallowestWins(w, live, fields, c);
          ShallowestWins(w, live, fields, d);
        }
      }
      SortedHead(matches, c.priority, |c.path|);
    }
  }

  // One field at a time.

  function FirstOf(w: Scope, live: map<string, string>, field: Field, priority: nat): Option<Candidate> {
    First(FieldScan(w, live, field, 0, []), priority)
  }

  /** A scan starts with what its first field contributes. */
  lemma ScanCons(w: Scope, live: map<string, string>, field: Field, rest: seq<Field>)
    ensures Scan(w, live, [field] + rest, 0, []) == FieldScan(w, live, field, 0, []) + Scan(w, live, rest, 0, [])
  {
    hide FieldScan;
    ScanConcat(w, live, [field], rest);
    assert [field][..0] == [] && [] + FieldScan(w, live, field, 0, []) == FieldScan(w, live, field, 0, []);
  }

  /** The first best candidate is the first one of some field. */
  lemma {:induction false} FirstFrom(w: Scope, live: map<string, string>, fields: seq<Field>, priority: nat)
    ensures var c := First(Scan(w, live, fields, 0, []), priority);
            && (c.Some? ==> exists f :: f in fields && FirstOf(w, live, f, priority) == c)
            && (c.None? ==> forall f <- fields :: FirstOf(w, live, f, priority).None?)
  {
    if fields == [] {
    } else {
      hide Scan, FieldScan;
      var f, rest := fields[0], fields[1..];
      assert fields == [f] + rest;
      ScanCons(w, live, f, rest);
      FirstConcat(FieldScan(w, live, f, 0, []), Scan(w, live, rest, 0, []), priority);
      FirstFrom(w, live, rest, priority);
      assert f in fields && forall g <- rest :: g in fields;
    }
  }

  /**
   All top-level fields with a candidate of the best priority have the same path for their
   first one.
   */
  ghost predicate OnePath(w: Scope, live: map<string, string>, fields: seq<Field>) {
    var matches := Scan(w, live, fields, 0, []);
    matches != [] ==>
      forall f <- fields, g <- fields ::
        SamePath(FirstOf(w, live, f, Least(matches)), FirstOf(w, live, g, Least(matches)))
  }

  predicate SamePath(a: Option<Candidate>, b: Option<Candidate>) {
    a.Some? && b.Some? ==> a.value.path == b.value.path
  }

  ghost predicate PathIndependent(w: Scope, live: map<string, string>, fields: seq<Field>) {
    forall other: seq<Field> | multiset(other) == multiset(fields) ::
      Resolved(Scan(w, live, other, 0, [])).path == Resolved(Scan(w, live, fields, 0, [])).path
  }

  /** Permuting the fields permutes the candidates. */
  lemma SamePriority(w: Scope, live: map<string, string>, a: seq<Field>, b: seq<Field>)
    requires multiset(a) == multiset(b)
    ensures var (ma, mb) := (Scan(w, live, a, 0, []), Scan(w, live, b, 0, []));
            (ma == [] <==> mb == []) && (ma != [] ==> Least(ma) == Least(mb))
    ensures forall f :: f in a <==> f in b
  {
    ScanBag(w, live, a, b);
    var ma, mb := Scan(w, live, a, 0, []), Scan(w, live, b, 0, []);
    assert |ma| == |multiset(ma)| && |mb| == |multiset(mb)|;
    SameElements(ma, mb);
    SameElements(a, b);
    if ma != [] {
      LeastMeaning(ma);
      LeastMeaning(mb);
    }
  }

  lemma SameElements<T>(a: seq<T>, b: seq<T>)
    requires multiset(a) == multiset(b)
    ensures forall x :: x in a <==> x in b
  {
    assert forall x :: x in a <==> x in multiset(a);
    assert forall x :: x in b <==> x in multiset(b);
  }

  /** This field, then the others. */
  function Front(fields: seq<Field>, i: nat): seq<Field>
    requires i < |fields|
  {
    [fields[i]] + (fields[..i] + fields[i + 1..])
  }

  lemma FrontIsPermutation(fields: seq<Field>, i: nat)
    requires i < |fields|
    ensures multiset(Front(fields, i)) == multiset(fields)
  {
    assert fields == fields[..i] + [fields[i]] + fields[i + 1..];
  }

  /** With a best candidate in the field at the front, its first one gives the path. */
  lemma FrontPath(w: Scope, live: map<string, string>, fields: seq<Field>, i: nat)
    requires i < |fields| && Scan(w, live, fields, 0, []) != []
    requires FirstOf(w, live, fields[i], Least(Scan(w, live, fields, 0, []))).Some?
    requires !Resolved(Scan(w, live, fields, 0, [])).ambiguous
    ensures Resolved(Scan(w, live, Front(fields, i), 0, [])).path == FirstOf(w, live, fields[i], Least(Scan(w, live, fields, 0, []))).value.path
  {
    hide Scan, FieldScan, Resolved;
    var front := Front(fields, i);
    FrontIsPermutation(fields, i);
    SamePriority(w, live, front, fields);
    OrderIndependence(w, live, front, fields);
    ResolvedPath(w, live, front);
    var rest := fields[..i] + fields[i + 1..];
    ScanCons(w, live, fields[i], rest);
    FirstConcat(FieldScan(w, live, fields[i], 0, []), Scan(w, live, rest, 0, []), Least(Scan(w, live, fields, 0, [])));
  }

  /**
   The reported path is the same for every order of the top-level fields if and only if the
   reference is ambiguous, and has none, or all fields with a best candidate agree on the
   path of their first one.
   */
  lemma PathIndependentIff(w: Scope, live: map<string, string>, fields: seq<Field>)
    ensures PathIndependent(w, live, fields) <==> Resolved(Scan(w, live, fields, 0, [])).ambiguous || OnePath(w, live, fields)
  {
    hide Scan, FieldScan, Resolved, FirstOf;
    var matches := Scan(w, live, fields, 0, []);
    if Resolved(matches).ambiguous || OnePath(w, live, fields) {
      forall other: seq<Field> | multiset(other) == multiset(fields)
        ensures Resolved(Scan(w, live, other, 0, [])).path == Resolved(matches).path
      {
        AgreeingPath(w, live, fields, other);
      }
    } else {
      var f, g :| f in fields && g in fields && !SamePath(FirstOf(w, live, f, Least(matches)), FirstOf(w, live, g, Least(matches)));
      var i :| 0 <= i < |fields| && fields[i] == f;
      var j :| 0 <= j < |fields| && fields[j] == g;
      FrontPath(w, live, fields, i);
      FrontPath(w, live, fields, j);
      FrontIsPermutation(fields, i);
      FrontIsPermutation(fields, j);
    }
  }

  lemma AgreeingPath(w: Scope, live: map<string, string>, fields: seq<Field>, other: seq<Field>)
    requires multiset(other) == multiset(fields)
    requires Resolved(Scan(w, live, fields, 0, [])).ambiguous || OnePath(w, live, fields)
    ensures Resolved(Scan(w, live, other, 0, [])).path == Resolved(Scan(w, live, fields, 0, [])).path
  {
    hide Scan, FieldScan, Resolved, FirstOf;
    SamePriority(w, live, other, fields);
    OrderIndependence(w, live, other, fields);
    ResolvedPath(w, live, fields);
    ResolvedPath(w, live, other);
    var matches := Scan(w, live, fields, 0, []);
    if matches != [] {
      FirstFrom(w, live, fields, Least(matches));
      FirstFrom(w, live, other, Least(matches));
    }
  }

  /** The path reported does depend on the order: two fields with the same uid. */
  lemma PathDependsOnOrder(w: Scope, live: map<string, string>, value: Bytes, uid: string)
    requires Named(w, live, value) == Some((uid, ModelUid)) && Parsed(value, 0).None?
    ensures var (a, b) := ([Field(1, Delimited(value)), Field(2, Delimited(value))], [Field(2, Delimited(value)), Field(1, Delimited(value))]);
            && multiset(a) == multiset(b)
            && Resolved(Scan(w, live, a, 0, [])).path == [1] && Resolved(Scan(w, live, b, 0, [])).path == [2]
            && !PathIndependent(w, live, a)
  {
    PairPath(w, live, value, uid, 1, 2);
    PairPath(w, live, value, uid, 2, 1);
  }

  lemma FieldAlone(w: Scope, live: map<string, string>, value: Bytes, uid: string, number: nat)
    requires Named(w, live, value) == Some((uid, ModelUid)) && Parsed(value, 0).None? && number != 21
    ensures Scan(w, live, [Field(number, Delimited(value))], 0, []) == [Candidate(uid, ModelUid, [number], 10)]
  {
    var f := Field(number, Delimited(value));
    assert [f][..0] == [];
    assert Scan(w, live, [], 0, []) == [];
    assert [] + [number] == [number];
    assert Own(w, live, f, 0, []) == [Candidate(uid, ModelUid, [number], 10)];
    assert Nested(w, live, f, 0, []) == [];
  }

  lemma PairPath(w: Scope, live: map<string, string>, value: Bytes, uid: string, first: nat, second: nat)
    requires Named(w, live, value) == Some((uid, ModelUid)) && Parsed(value, 0).None?
    requires first != 21 && second != 21
    ensures Resolved(Scan(w, live, [Field(first, Delimited(value)), Field(second, Delimited(value))], 0, [])).path == [first]
  {
    var f, g := Field(first, Delimited(value)), Field(second, Delimited(value));
    var c, d := Candidate(uid, ModelUid, [first], 10), Candidate(uid, ModelUid, [second], 10);
    FieldAlone(w, live, value, uid, first);
    FieldAlone(w, live, value, uid, second);
    ScanConcat(w, live, [f], [g]);
    assert [f] + [g] == [f, g] && [c] + [d] == [c, d];
    FirstOfTwo(c, d);
  }

  lemma FirstOfTwo(c: Candidate, d: Candidate)
    requires c.uid == d.uid && c.priority == d.priority && |c.path| == |d.path|
    ensures Resolved([c, d]).path == c.path
  {
    assert [c, d][1..] == [d] && [d][1..] == [];
    assert Sorted([d]) == [d];
    assert Sorted([c, d]) == [c, d];
    ResolvedMeaning([c, d]);
    assert forall x :: Best([c, d], x) ==> x.uid == c.uid;
  }
}
