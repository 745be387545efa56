/**
 The Desktop takeover over whole runs. The quantity to conserve is the state that undoing now
 would leave: applies, undos and crashes must not change it.
 */
module DesktopRuns {
  import opened Wrappers
  import opened JsonValues
  import opened Desktop
  import opened DesktopTakeover

  // What an apply and an undo leave of a table, field by field.

  function OriginalId(receipt: Receipt): Option<Json> {
    if receipt.appliedIdPresent then Some(receipt.originalAppliedId.GetOr(Null)) else None
  }

  function FieldsOf(s: Desk): Fields {
    DocumentOf(s.meta).GetOr(map[])
  }

  lemma ReleasedAt(fields: Fields, receipt: Receipt, key: string)
    ensures Lookup(ReleasedMeta(fields, receipt), key) ==
            if key == ENTRIES_KEY && key in fields && fields[key].Array? then Some(Array(Without(fields[key].items, receipt.uuid)))
            else if key == APPLIED_ID_KEY && Lookup(fields, key) == Some(String(receipt.uuid)) then OriginalId(receipt)
            else Lookup(fields, key)
  {
    KeysDiffer();
  }

  lemma {:induction false} WithoutAdded(entries: seq<Json>, uuid: string)
    ensures Without(WithEntry(entries, uuid), uuid) == Without(entries, uuid)
  {
    hide NewEntry, Renamed;
    OursIsStable(uuid);
    if entries == [] {
      assert [NewEntry(uuid)][1..] == [];
    } else if HasId(entries[0], uuid) {
      RenamedIsOurs(entries[0], uuid);
      assert ([Renamed(entries[0])] + entries[1..])[1..] == entries[1..];
    } else {
      WithoutAdded(entries[1..], uuid);
      assert ([entries[0]] + WithEntry(entries[1..], uuid))[1..] == WithEntry(entries[1..], uuid);
    }
  }

  lemma RenamedIsOurs(entry: Json, uuid: string)
    requires HasId(entry, uuid)
    ensures HasId(Renamed(entry), uuid)
  {
    KeysDiffer();
  }

  lemma {:induction false} WithoutIff(entries: seq<Json>, uuid: string)
    ensures |Without(entries, uuid)| <= |entries|
    ensures Without(entries, uuid) == entries <==> Unused(entries, uuid)
  {
    hide HasId;
    if entries != [] {
      WithoutIff(entries[1..], uuid);
      var rest := Without(entries[1..], uuid);
      assert entries == [entries[0]] + entries[1..];
      if HasId(entries[0], uuid) {
        assert [] + rest == rest;
      } else {
        assert ([entries[0]] + rest)[1..] == rest;
        assert forall i | 0 <= i < |entries| :: i > 0 ==> entries[i] == entries[1..][i - 1];
        assert forall i | 0 <= i < |entries| - 1 :: entries[1..][i] == entries[i + 1];
      }
    }
  }

  lemma TakenAt(fields: Fields, receipt: Receipt, key: string)
    ensures Lookup(ReleasedMeta(TakenMeta(fields, receipt.uuid), receipt), key) ==
            if key == ENTRIES_KEY then Some(Array(Without(EntriesOf(fields), receipt.uuid)))
            else if key == APPLIED_ID_KEY then OriginalId(receipt)
            else Lookup(fields, key)
  {
    KeysDiffer();
    ReleasedAt(TakenMeta(fields, receipt.uuid), receipt, key);
    WithoutAdded(EntriesOf(fields), receipt.uuid);
  }

  /** The applied id is ours or the original one. */
  predicate IdInPlace(fields: Fields, receipt: Receipt) {
    Lookup(fields, APPLIED_ID_KEY) == Some(String(receipt.uuid)) || Lookup(fields, APPLIED_ID_KEY) == OriginalId(receipt)
  }

  /** Taking a table over again changes what undo makes of it, but for these cases. */
  lemma RetakenIff(fields: Fields, receipt: Receipt)
    requires ENTRIES_KEY in fields ==> fields[ENTRIES_KEY].Array?
    ensures ReleasedMeta(TakenMeta(fields, receipt.uuid), receipt) == ReleasedMeta(fields, receipt) <==>
            ENTRIES_KEY in fields && IdInPlace(fields, receipt)
  {
    hide ReleasedMeta, TakenMeta;
    KeysDiffer();
    var after, before := ReleasedMeta(TakenMeta(fields, receipt.uuid), receipt), ReleasedMeta(fields, receipt);
    forall key
      ensures Lookup(after, key) == Lookup(before, key) <==>
              (key == ENTRIES_KEY ==> key in fields) && (key == APPLIED_ID_KEY ==> IdInPlace(fields, receipt))
    {
      TakenAt(fields, receipt, key);
      ReleasedAt(fields, receipt, key);
    }
    if ENTRIES_KEY in fields && IdInPlace(fields, receipt) {
      SameLookups(after, before);
    }
  }

  /** With the present id as the original, undo gives a table back if and only if no entry of it has our id. */
  lemma ReleasedIff(fields: Fields, receipt: Receipt)
    requires ENTRIES_KEY in fields ==> fields[ENTRIES_KEY].Array?
    requires OriginalId(receipt) == Lookup(fields, APPLIED_ID_KEY)
    ensures ReleasedMeta(fields, receipt) == fields <==> Unused(EntriesOf(fields), receipt.uuid)
    ensures ReleasedMeta(TakenMeta(fields, receipt.uuid), receipt) == fields <==>
            ENTRIES_KEY in fields && Unused(EntriesOf(fields), receipt.uuid)
  {
    hide ReleasedMeta, TakenMeta, Unused;
    KeysDiffer();
    var released := ReleasedMeta(fields, receipt);
    WithoutIff(EntriesOf(fields), receipt.uuid);
    forall key
      ensures Lookup(released, key) == Lookup(fields, key) <==> (key == ENTRIES_KEY ==> Unused(EntriesOf(fields), receipt.uuid))
    {
      ReleasedAt(fields, receipt, key);
    }
    if Unused(EntriesOf(fields), receipt.uuid) {
      SameLookups(released, fields);
    }
    RetakenIff(fields, receipt);
    TakenAt(fields, receipt, ENTRIES_KEY);
  }

  // One action.

  /** No profile and no entry has this id. */
  ghost predicate IsNew(s: Desk, uuid: string) {
    uuid !in s.profiles && Unused(EntriesOf(FieldsOf(s)), uuid)
  }

  /**
   The losing actions: a takeover under an id in use, an apply to a table without an entry list
   or, when repeated, with someone else's applied id, and a re-apply that crashes behind its
   receipt write and was going to change the profile.
   */
  ghost predicate Loses(s: Desk, action: Action) {
    match action
    case ApplyProfile(freshId, _) =>
      && CanApply(s, freshId)
      && (ENTRIES_KEY !in FieldsOf(s) || if s.receipt.None? then !IsNew(s, freshId) else !IdInPlace(FieldsOf(s), s.receipt.value))
    case CrashedApply(freshId, profile, behindProfile) =>
      && CanApply(s, freshId)
      && if s.receipt.None? then !IsNew(s, freshId)
         else !behindProfile && s.receipt.value.uuid in s.profiles && profile != s.profiles[s.receipt.value.uuid]
    case _ => false
  }

  lemma FirstApplyIff(s: Desk, freshId: string, profile: Json)
    requires CanApply(s, freshId) && s.receipt.None?
    ensures var t := Applied(s, freshId, profile);
            CanUndo(t) && (Undone(t) == s <==> !Loses(s, ApplyProfile(freshId, profile)))
  {
    hide ReleasedMeta, TakenMeta, Unused;
    var receipt := NewReceipt(s, FieldsOf(s), freshId, profile);
    ReleasedIff(FieldsOf(s), receipt);
    if freshId in s.profiles {
      assert freshId !in s.profiles[freshId := profile] - {freshId};
    } else {
      assert s.profiles[freshId := profile] - {freshId} == s.profiles;
    }
  }

  lemma ReapplyIff(s: Desk, freshId: string, profile: Json)
    requires CanApply(s, freshId) && s.receipt.Some?
    ensures var t := Applied(s, freshId, profile);
            CanUndo(t) && (Undone(t) == Undone(s) <==> !Loses(s, ApplyProfile(freshId, profile)))
  {
    hide ReleasedMeta, TakenMeta;
    var receipt := NewReceipt(s, FieldsOf(s), freshId, profile);
    RetakenIff(FieldsOf(s), s.receipt.value);
    SameRelease(FieldsOf(s), s.receipt.value, receipt);
    SameRelease(TakenMeta(FieldsOf(s), receipt.uuid), s.receipt.value, receipt);
    assert s.profiles[receipt.uuid := profile] - {receipt.uuid} == s.profiles - {receipt.uuid};
  }

  lemma SameRelease(fields: Fields, a: Receipt, b: Receipt)
    requires a.uuid == b.uuid && OriginalId(a) == OriginalId(b)
    ensures ReleasedMeta(fields, a) == ReleasedMeta(fields, b)
  {
  }

  lemma FirstCrashIff(s: Desk, freshId: string, profile: Json, behindProfile: bool)
    requires CanApply(s, freshId) && s.receipt.None?
    ensures var t := Act(s, CrashedApply(freshId, profile, behindProfile));
            CanUndo(t) && (Undone(t) == s <==> IsNew(s, freshId))
  {
    hide ReleasedMeta;
    ReleasedIff(FieldsOf(s), NewReceipt(s, FieldsOf(s), freshId, profile));
    if freshId in s.profiles {
      assert freshId !in s.profiles - {freshId} && freshId !in s.profiles[freshId := profile] - {freshId};
    } else {
      assert s.profiles - {freshId} == s.profiles && s.profiles[freshId := profile] - {freshId} == s.profiles;
    }
  }

  /** One action of the program, refused, done or crashed, conserves what undo would leave if and only if it is not a losing one. */
  lemma StepConservesIff(s: Desk, action: Action)
    requires CanUndo(s) && !action.Edit?
    ensures CanUndo(Act(s, action)) && (Undone(Act(s, action)) == Undone(s) <==> !Loses(s, action))
  {
    hide ReleasedMeta, TakenMeta, IsNew, IdInPlace;
    match action
    case ApplyProfile(freshId, profile) =>
      if CanApply(s, freshId) {
        if s.receipt.None? {
          FirstApplyIff(s, freshId, profile);
        } else {
          ReapplyIff(s, freshId, profile);
        }
      }
    case UndoTakeover =>
    case CrashedApply(freshId, profile, behindProfile) =>
      if CanApply(s, freshId) {
        if s.receipt.None? {
          FirstCrashIff(s, freshId, profile, behindProfile);
        } else {
          CrashedReapplyIff(s, freshId, freshId, profile);
        }
      }
    case CrashedUndo(_) =>
      if s.receipt.Some? && !ProfileChanged(s) {
        CrashedUndoIsFinished(s);
      }
    case Edit(_, _) =>
  }

  /** A losing re-apply: the id that was chosen in Desktop since the takeover gives way to the older original. */
  lemma ChosenIdIsLost(s: Desk, freshId: string, profile: Json)
    requires s == Desk("m", true, false, false, Parsed(Object(map[ENTRIES_KEY := Array([]), APPLIED_ID_KEY := String("b")])),
                       map[], Some(Receipt("u", "m", true, Some(String("a")), Null)))
    ensures CanApply(s, freshId) && CanUndo(s) && CanUndo(Applied(s, freshId, profile))
    ensures Lookup(FieldsOf(Undone(s)), APPLIED_ID_KEY) == Some(String("b"))
    ensures Lookup(FieldsOf(Undone(Applied(s, freshId, profile))), APPLIED_ID_KEY) == Some(String("a"))
  {
    hide ReleasedMeta, TakenMeta;
    KeysDiffer();
    var receipt := NewReceipt(s, FieldsOf(s), freshId, profile);
    assert "u" != "b";
    ReleasedAt(FieldsOf(s), s.receipt.value, APPLIED_ID_KEY);
    TakenAt(FieldsOf(s), receipt, APPLIED_ID_KEY);
  }

  // Runs.

  /** The state before action `n`. */
  function Before(s: Desk, actions: seq<Action>, n: nat): Desk
    requires n <= |actions|
  {
    Acts(s, actions[..n])
  }

  lemma BeforeNext(s: Desk, actions: seq<Action>, n: nat)
    requires n < |actions|
    ensures Before(s, actions, n + 1) == Act(Before(s, actions, n), actions[n])
  {
    assert actions[..n + 1][..n] == actions[..n];
  }

  ghost predicate NoEdits(actions: seq<Action>) {
    forall i | 0 <= i < |actions| :: !actions[i].Edit?
  }

  ghost predicate NothingLost(s: Desk, actions: seq<Action>, n: nat)
    requires n <= |actions|
  {
    forall i | 0 <= i < n :: !Loses(Before(s, actions, i), actions[i])
  }

  lemma {:induction false} StaysUndoable(s: Desk, actions: seq<Action>, n: nat)
    requires CanUndo(s) && NoEdits(actions) && n <= |actions|
    ensures CanUndo(Before(s, actions, n))
  {
    hide CanUndo, Act;
    if n > 0 {
      StaysUndoable(s, actions, n - 1);
      BeforeNext(s, actions, n - 1);
      StepConservesIff(Before(s, actions, n - 1), actions[n - 1]);
    }
  }

  /** While nothing is edited, what undo would leave stays the same exactly as long as no action loses something. */
  lemma {:induction false} UndoneIsConstantIff(s: Desk, actions: seq<Action>, n: nat)
    requires CanUndo(s) && NoEdits(actions) && n <= |actions|
    ensures (forall i | 0 <= i <= n :: CanUndo(Before(s, actions, i)) && Undone(Before(s, actions, i)) == Undone(s)) <==>
            NothingLost(s, actions, n)
  {
    hide CanUndo, Undone, Loses, Act;
    if n > 0 {
      UndoneIsConstantIff(s, actions, n - 1);
      StaysUndoable(s, actions, n - 1);
      BeforeNext(s, actions, n - 1);
      StepConservesIff(Before(s, actions, n - 1), actions[n - 1]);
    }
  }

  // From a table with an entry list, with new ids, only a re-apply that crashes can lose something.

  ghost predicate Sound(s: Desk) {
    && CanUndo(s) && ValidMeta(s.meta) && ENTRIES_KEY in FieldsOf(s)
    && (s.receipt.Some? ==> IdInPlace(FieldsOf(s), s.receipt.value))
  }

  ghost predicate Harmless(s: Desk, action: Action) {
    && (action.ApplyProfile? && s.receipt.None? && CanApply(s, action.freshId) ==> IsNew(s, action.freshId))
    && (action.CrashedApply? ==> !Loses(s, action))
  }

  lemma ReleasedIsSound(fields: Fields, receipt: Receipt)
    requires ENTRIES_KEY in fields && fields[ENTRIES_KEY].Array? && IdInPlace(fields, receipt)
    ensures var after := ReleasedMeta(fields, receipt);
            ENTRIES_KEY in after && after[ENTRIES_KEY].Array? && IdInPlace(after, receipt)
  {
    hide ReleasedMeta;
    KeysDiffer();
    ReleasedAt(fields, receipt, ENTRIES_KEY);
    ReleasedAt(fields, receipt, APPLIED_ID_KEY);
  }

  lemma StaysSound(s: Desk, action: Action)
    requires Sound(s) && !action.Edit? && Harmless(s, action)
    ensures !Loses(s, action) && Sound(Act(s, action))
  {
    hide ReleasedMeta, IsNew;
    KeysDiffer();
    StepConservesIff(s, action);
    if s.receipt.Some? {
      ReleasedIsSound(FieldsOf(s), s.receipt.value);
    }
  }

  ghost predicate AllHarmless(s: Desk, actions: seq<Action>) {
    forall i | 0 <= i < |actions| :: Harmless(Before(s, actions, i), actions[i])
  }

  lemma {:induction false} OnlyCrashesLose(s: Desk, actions: seq<Action>, n: nat)
    requires Sound(s) && NoEdits(actions) && AllHarmless(s, actions) && n <= |actions|
    ensures Sound(Before(s, actions, n)) && NothingLost(s, actions, n)
  {
    hide Sound, Loses, Act, Harmless;
    if n > 0 {
      OnlyCrashesLose(s, actions, n - 1);
      BeforeNext(s, actions, n - 1);
      StaysSound(Before(s, actions, n - 1), actions[n - 1]);
    }
  }

  /**
   After any applies, undos and crashes, one undo gives table, profiles and receipt back
   exactly, if the table had an entry list, ids of new takeovers are new, and no re-apply
   crashed behind its receipt write with another profile in hand.
   */
  lemma RoundTrip(s: Desk, fields: Fields, actions: seq<Action>)
    requires Untaken(s, fields) && ENTRIES_KEY in fields
    requires NoEdits(actions) && AllHarmless(s, actions)
    ensures Acts(s, actions + [UndoTakeover]) == s
  {
    OnlyCrashesLose(s, actions, |actions|);
    UndoneIsConstantIff(s, actions, |actions|);
    assert actions[..|actions|] == actions && (actions + [UndoTakeover])[..|actions|] == actions;
    assert CanUndo(Before(s, actions, |actions|)) && Undone(Before(s, actions, |actions|)) == Undone(s);
  }

  // When the program keeps its hands off.

  /** Whatever is tried while Desktop runs, or under a policy or without Desktop and no takeover, nothing is written. */
  lemma {:induction false} BlockedRun(s: Desk, actions: seq<Action>)
    requires s.running || (s.receipt.None? && (s.guided || !s.installed))
    requires NoEdits(actions)
    ensures Acts(s, actions) == s
  {
    if actions != [] {
      BlockedRun(s, actions[..|actions| - 1]);
    }
  }

  /** Otherwise a first takeover is accepted exactly if the table is readable and its entries are a list. */
  lemma FirstAcceptedIff(s: Desk, freshId: string)
    requires s.receipt.None?
    ensures CanApply(s, freshId) <==>
            && s.installed && !s.guided && !s.running
            && (s.meta.Missing? || (s.meta.Parsed? && s.meta.document.Object?
                && ("entries" in s.meta.document.fields ==> s.meta.document.fields["entries"].Array?)))
  {
  }

  /** Undo refuses a receipt for another table, a running Desktop, and, unless it leaves an edited profile alone, a table it cannot read. */
  lemma UndoAcceptedIff(s: Desk)
    requires s.receipt.Some?
    ensures var r := s.receipt.value;
            var edited := r.uuid in s.profiles && s.profiles[r.uuid] != r.appliedProfile;
            CanUndo(s) <==>
            && r.metaPath == s.path && !s.running
            && (edited || s.meta.Missing? || (s.meta.Parsed? && s.meta.document.Object?))
  {
  }

  // What holds once a takeover is in place.

  /** The first entry with our id carries our name. */
  ghost predicate ListsUs(entries: seq<Json>, uuid: string) {
    exists i :: 0 <= i < |entries| && HasId(entries[i], uuid) && entries[i].GetString("name") == Some("haxsd byok")
      && forall j | 0 <= j < i :: !HasId(entries[j], uuid)
  }

  lemma {:induction false} WithEntryListsUs(entries: seq<Json>, uuid: string)
    ensures ListsUs(WithEntry(entries, uuid), uuid)
  {
    KeysDiffer();
    var now := WithEntry(entries, uuid);
    if entries == [] {
      assert HasId(now[0], uuid) && now[0].GetString("name") == Some("haxsd byok");
    } else if HasId(entries[0], uuid) {
      assert HasId(now[0], uuid) && now[0].GetString("name") == Some("haxsd byok");
    } else {
      var rest := WithEntry(entries[1..], uuid);
      WithEntryListsUs(entries[1..], uuid);
      var i :| 0 <= i < |rest| && HasId(rest[i], uuid) && rest[i].GetString("name") == Some("haxsd byok")
               && forall j | 0 <= j < i :: !HasId(rest[j], uuid);
      assert now[i + 1] == rest[i] && forall j | 0 < j < i + 1 :: now[j] == rest[j - 1];
    }
  }

  /** After an apply our profile is written, our entry is listed under our name and applied; the receipt knows the profile. */
  lemma ProfileIsInEffect(s: Desk, freshId: string, profile: Json)
    requires CanApply(s, freshId)
    ensures var (t, uuid) := (Applied(s, freshId, profile), if s.receipt.Some? then s.receipt.value.uuid else freshId);
            && Lookup(t.profiles, uuid) == Some(profile) && t.profiles - {uuid} == s.profiles - {uuid}
            && Lookup(FieldsOf(t), "appliedId") == Some(String(uuid)) && ListsUs(EntriesOf(FieldsOf(t)), uuid)
            && t.receipt.Some? && t.receipt.value.uuid == uuid && t.receipt.value.appliedProfile == profile
  {
    hide WithEntry, ListsUs;
    KeysDiffer();
    WithEntryListsUs(EntriesOf(FieldsOf(s)), if s.receipt.Some? then s.receipt.value.uuid else freshId);
  }
}
