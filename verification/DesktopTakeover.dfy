/** What the Desktop takeover leaves alone, and what undo gives back. */
module DesktopTakeover {
  import opened Wrappers
  import opened JsonValues
  import opened Desktop

  lemma KeysDiffer()
    ensures ENTRIES_KEY != APPLIED_ID_KEY && ID_KEY != NAME_KEY
  {
    assert |ENTRIES_KEY| == 7 && |APPLIED_ID_KEY| == 9 && |ID_KEY| == 2 && |NAME_KEY| == 4;
  }

  // Entries.

  /** No entry carries this id. */
  ghost predicate Unused(entries: seq<Json>, uuid: string) {
    forall i | 0 <= i < |entries| :: !HasId(entries[i], uuid)
  }

  lemma UnusedRest(entries: seq<Json>, uuid: string)
    requires entries != [] && Unused(entries, uuid)
    ensures !HasId(entries[0], uuid) && Unused(entries[1..], uuid)
    ensures (entries + [NewEntry(uuid)])[1..] == entries[1..] + [NewEntry(uuid)] && entries == [entries[0]] + entries[1..]
  {
  }

  lemma OursIsStable(uuid: string)
    ensures var ours := NewEntry(uuid); HasId(ours, uuid) && Renamed(ours) == ours
  {
    KeysDiffer();
    var ours := NewEntry(uuid);
    assert ours.fields[NAME_KEY := String(DESKTOP_ENTRY_NAME)] == ours.fields;
  }

  lemma {:induction false} AddToUnused(entries: seq<Json>, uuid: string)
    requires Unused(entries, uuid)
    ensures WithEntry(entries, uuid) == entries + [NewEntry(uuid)]
    ensures WithEntry(entries + [NewEntry(uuid)], uuid) == entries + [NewEntry(uuid)]
  {
    hide Unused, HasId, NewEntry, Renamed;
    OursIsStable(uuid);
    if entries == [] {
      assert [NewEntry(uuid)][1..] == [];
    } else {
      UnusedRest(entries, uuid);
      AddToUnused(entries[1..], uuid);
    }
  }

  lemma {:induction false} RemoveFromUnused(entries: seq<Json>, uuid: string)
    requires Unused(entries, uuid)
    ensures Without(entries, uuid) == entries
    ensures Without(entries + [NewEntry(uuid)], uuid) == entries
  {
    hide Unused, HasId, NewEntry;
    OursIsStable(uuid);
    if entries == [] {
      assert [NewEntry(uuid)][1..] == [];
    } else {
      UnusedRest(entries, uuid);
      RemoveFromUnused(entries[1..], uuid);
    }
  }

  lemma AddThenRemove(entries: seq<Json>, uuid: string)
    requires Unused(entries, uuid)
    ensures WithEntry(entries, uuid) == entries + [NewEntry(uuid)]
    ensures Without(entries, uuid) == entries
    ensures Without(entries + [NewEntry(uuid)], uuid) == entries
    ensures WithEntry(entries + [NewEntry(uuid)], uuid) == entries + [NewEntry(uuid)]
  {
    AddToUnused(entries, uuid);
    RemoveFromUnused(entries, uuid);
  }

  predicate IdIn(entry: Json, uuids: set<string>) {
    entry.GetString(ID_KEY).Some? && entry.GetString(ID_KEY).value in uuids
  }

  /** The entries of others, in order. */
  function Others(entries: seq<Json>, uuids: set<string>): seq<Json> {
    if entries == [] then []
    else (if IdIn(entries[0], uuids) then [] else [entries[0]]) + Others(entries[1..], uuids)
  }

  lemma {:induction false} OthersStay(entries: seq<Json>, uuid: string, uuids: set<string>)
    requires uuid in uuids
    ensures Others(WithEntry(entries, uuid), uuids) == Others(entries, uuids)
    ensures Others(Without(entries, uuid), uuids) == Others(entries, uuids)
  {
    KeysDiffer();
    if entries == [] {
      assert IdIn(NewEntry(uuid), uuids) && [NewEntry(uuid)][1..] == [];
    } else {
      OthersStay(entries[1..], uuid, uuids);
      var e := entries[0];
      if HasId(e, uuid) {
        assert HasId(Renamed(e), uuid);
        assert ([Renamed(e)] + entries[1..])[1..] == entries[1..];
        assert [] + Without(entries[1..], uuid) == Without(entries[1..], uuid);
      } else {
        assert ([e] + WithEntry(entries[1..], uuid))[1..] == WithEntry(entries[1..], uuid);
        assert ([e] + Without(entries[1..], uuid))[1..] == Without(entries[1..], uuid);
      }
    }
  }

  // Runs.

  /** The crashed actions stop behind their first write, or behind their second, which is the one to the profile. */
  datatype Action =
    | ApplyProfile(freshId: string, profile: Json) | UndoTakeover
    | CrashedApply(freshId: string, profile: Json, behindProfile: bool) | CrashedUndo(behindProfile: bool)
    | Edit(meta: File, profiles: map<string, Json>)

  function Act(s: Desk, action: Action): Desk {
    match action
    case ApplyProfile(freshId, profile) => if CanApply(s, freshId) then Applied(s, freshId, profile) else s
    case UndoTakeover => if CanUndo(s) then Undone(s) else s
    case CrashedApply(freshId, profile, behindProfile) =>
      if !CanApply(s, freshId) then s
      else if behindProfile then ProfileWritten(s, freshId, profile) else ReceiptWritten(s, freshId, profile)
    case CrashedUndo(behindProfile) =>
      if !CanUndo(s) then s
      else s.(meta := Undone(s).meta, profiles := if behindProfile then Undone(s).profiles else s.profiles)
    case Edit(meta, profiles) => s.(meta := meta, profiles := profiles)
  }

  function Acts(s: Desk, actions: seq<Action>): Desk {
    if actions == [] then s else Act(Acts(s, actions[..|actions| - 1]), actions[|actions| - 1])
  }

  function LastMeta(meta: File, actions: seq<Action>): File {
    if actions == [] then meta
    else
      var last := actions[|actions| - 1];
      if last.Edit? then last.meta else LastMeta(meta, actions[..|actions| - 1])
  }

  function EntriesIn(file: File): seq<Json> {
    if DocumentOf(file).Some? then EntriesOf(DocumentOf(file).value) else []
  }

  function FieldIn(file: File, key: string): Option<Json> {
    if DocumentOf(file).Some? then Lookup(DocumentOf(file).value, key) else None
  }

  /** All ids the takeover has used. */
  ghost predicate OursAmong(s: Desk, actions: seq<Action>, uuids: set<string>) {
    && (s.receipt.Some? ==> s.receipt.value.uuid in uuids)
    && forall i | 0 <= i < |actions| && (actions[i].ApplyProfile? || actions[i].CrashedApply?) :: actions[i].freshId in uuids
  }

  lemma ActFrame(s: Desk, action: Action, uuids: set<string>, key: string)
    requires s.receipt.Some? ==> s.receipt.value.uuid in uuids
    requires action.ApplyProfile? || action.CrashedApply? ==> action.freshId in uuids
    requires !action.Edit?
    ensures Others(EntriesIn(Act(s, action).meta), uuids) == Others(EntriesIn(s.meta), uuids)
    ensures key != ENTRIES_KEY && key != APPLIED_ID_KEY ==> FieldIn(Act(s, action).meta, key) == FieldIn(s.meta, key)
    ensures Act(s, action).receipt.Some? ==> Act(s, action).receipt.value.uuid in uuids
  {
    hide Others, EntriesOf, TakenMeta, ReleasedMeta;
    match action
    case ApplyProfile(freshId, profile) =>
      if CanApply(s, freshId) {
        TakenFrame(DocumentOf(s.meta).value, Applied(s, freshId, profile).receipt.value.uuid, uuids, key);
      }
    case CrashedApply(_, _, _) =>
    case Edit(_, _) =>
    case _ =>
      if CanUndo(s) && s.receipt.Some? && !ProfileChanged(s) && !s.meta.Missing? {
        ReleasedFrame(DocumentOf(s.meta).value, s.receipt.value, uuids, key);
      }
  }

  lemma TakenFrame(fields: Fields, uuid: string, uuids: set<string>, key: string)
    requires uuid in uuids
    ensures Others(EntriesOf(TakenMeta(fields, uuid)), uuids) == Others(EntriesOf(fields), uuids)
    ensures key != ENTRIES_KEY && key != APPLIED_ID_KEY ==> Lookup(TakenMeta(fields, uuid), key) == Lookup(fields, key)
  {
    KeysDiffer();
    OthersStay(EntriesOf(fields), uuid, uuids);
  }

  lemma ReleasedFrame(fields: Fields, receipt: Receipt, uuids: set<string>, key: string)
    requires receipt.uuid in uuids
    ensures Others(EntriesOf(ReleasedMeta(fields, receipt)), uuids) == Others(EntriesOf(fields), uuids)
    ensures key != ENTRIES_KEY && key != APPLIED_ID_KEY ==> Lookup(ReleasedMeta(fields, receipt), key) == Lookup(fields, key)
  {
    KeysDiffer();
    OthersStay(EntriesOf(fields), receipt.uuid, uuids);
  }

  /** In every interleaving, the entries of others and all unknown fields are what was last written from outside. */
  lemma {:induction false} OthersAreUntouched(s: Desk, actions: seq<Action>, uuids: set<string>, key: string)
    requires OursAmong(s, actions, uuids)
    ensures Others(EntriesIn(Acts(s, actions).meta), uuids) == Others(EntriesIn(LastMeta(s.meta, actions)), uuids)
    ensures key != ENTRIES_KEY && key != APPLIED_ID_KEY ==>
              FieldIn(Acts(s, actions).meta, key) == FieldIn(LastMeta(s.meta, actions), key)
    ensures Acts(s, actions).receipt.Some? ==> Acts(s, actions).receipt.value.uuid in uuids
  {
    if actions == [] {
    } else {
      var init, last := actions[..|actions| - 1], actions[|actions| - 1];
      OthersAreUntouched(s, init, uuids, key);
      if !last.Edit? {
        ActFrame(Acts(s, init), last, uuids, key);
      }
    }
  }

  // Round trip.

  /** `t` is `s` with a takeover under `uuid` in place. */
  ghost predicate Taken(s: Desk, t: Desk, fields: Fields, uuid: string) {
    && Fresh(s, fields, uuid) && ValidMeta(s.meta)
    && t.receipt.Some?
    && t == Applied(s, uuid, t.receipt.value.appliedProfile)
  }

  /** A new id: no entry and no profile has it, and it is not the applied one. */
  ghost predicate Fresh(s: Desk, fields: Fields, uuid: string) {
    && Unused(EntriesOf(fields), uuid) && uuid !in s.profiles
    && Object(fields).GetString(APPLIED_ID_KEY) != Some(uuid)
  }

  ghost predicate Untaken(s: Desk, fields: Fields) {
    && s.installed && !s.guided && !s.running && s.receipt.None?
    && ValidMeta(s.meta) && DocumentOf(s.meta) == Some(fields)
  }

  lemma ReapplyKeepsTaken(s: Desk, t: Desk, fields: Fields, uuid: string, freshId: string, profile: Json)
    requires Untaken(s, fields) && Taken(s, t, fields, uuid)
    ensures CanApply(t, freshId) && Taken(s, Applied(t, freshId, profile), fields, uuid)
  {
    KeysDiffer();
    TakenTwice(fields, uuid);
    var next := Applied(t, freshId, profile);
    assert next.profiles == s.profiles[uuid := profile];
    assert next == Applied(s, uuid, profile);
  }

  lemma TakenTwice(fields: Fields, uuid: string)
    requires Unused(EntriesOf(fields), uuid)
    ensures TakenMeta(TakenMeta(fields, uuid), uuid) == TakenMeta(fields, uuid)
  {
    KeysDiffer();
    AddThenRemove(EntriesOf(fields), uuid);
    assert EntriesOf(TakenMeta(fields, uuid)) == EntriesOf(fields) + [NewEntry(uuid)];
  }

  lemma ReleaseTaken(fields: Fields, uuid: string, receipt: Receipt)
    requires Unused(EntriesOf(fields), uuid)
    requires ENTRIES_KEY in fields ==> fields[ENTRIES_KEY].Array?
    requires receipt.uuid == uuid && receipt.appliedIdPresent == (APPLIED_ID_KEY in fields)
    requires receipt.appliedIdPresent ==> receipt.originalAppliedId.GetOr(Null) == fields[APPLIED_ID_KEY]
    ensures ReleasedMeta(TakenMeta(fields, uuid), receipt) ==
            if ENTRIES_KEY in fields then fields else fields[ENTRIES_KEY := Array([])]
  {
    KeysDiffer();
    AddThenRemove(EntriesOf(fields), uuid);
    var taken := TakenMeta(fields, uuid);
    assert taken[ENTRIES_KEY] == Array(EntriesOf(fields) + [NewEntry(uuid)]);
    var original := fields[ENTRIES_KEY := Array(EntriesOf(fields))];
    assert Object(taken).GetString(APPLIED_ID_KEY) == Some(uuid);
    var pruned := taken[ENTRIES_KEY := Array(EntriesOf(fields))];
    assert APPLIED_ID_KEY in fields ==> pruned[APPLIED_ID_KEY := fields[APPLIED_ID_KEY]] == original;
    assert APPLIED_ID_KEY !in fields ==> pruned - {APPLIED_ID_KEY} == original;
    assert ENTRIES_KEY in fields ==> original == fields;
  }

  /** Undo of a takeover gives everything back, but an absent entry list comes back empty. */
  lemma UndoTaken(s: Desk, t: Desk, fields: Fields, uuid: string)
    requires Untaken(s, fields) && Taken(s, t, fields, uuid)
    ensures CanUndo(t)
    ensures Undone(t) == s.(meta := Parsed(Object(if ENTRIES_KEY in fields then fields else fields[ENTRIES_KEY := Array([])])))
  {
    ReleaseTaken(fields, uuid, t.receipt.value);
    assert s.profiles[uuid := t.receipt.value.appliedProfile] - {uuid} == s.profiles;
  }

  /** Every run of applies, with any profiles, ends in the same takeover. */
  lemma {:induction false} AppliesKeepTaken(s: Desk, fields: Fields, actions: seq<Action>)
    requires Untaken(s, fields) && |actions| > 0
    requires forall i | 0 <= i < |actions| :: actions[i].ApplyProfile?
    requires Fresh(s, fields, actions[0].freshId)
    ensures Taken(s, Acts(s, actions), fields, actions[0].freshId)
  {
    var init, last := actions[..|actions| - 1], actions[|actions| - 1];
    if init == [] {
      assert CanApply(s, last.freshId);
    } else {
      AppliesKeepTaken(s, fields, init);
      ReapplyKeepsTaken(s, Acts(s, init), fields, actions[0].freshId, last.freshId, last.profile);
    }
  }

  /** n >= 1 applies and one undo restore the exact state if and only if the table had an entry list. */
  lemma RoundTripIff(s: Desk, fields: Fields, actions: seq<Action>)
    requires Untaken(s, fields) && |actions| > 0
    requires forall i | 0 <= i < |actions| :: actions[i].ApplyProfile?
    requires Fresh(s, fields, actions[0].freshId)
    ensures Acts(s, actions + [UndoTakeover]) == s <==> ENTRIES_KEY in fields
  {
    AppliesKeepTaken(s, fields, actions);
    UndoTaken(s, Acts(s, actions), fields, actions[0].freshId);
    assert (actions + [UndoTakeover])[..|actions|] == actions;
  }

  // A crash during the first takeover.

  lemma ReleaseUntaken(fields: Fields, receipt: Receipt)
    requires Unused(EntriesOf(fields), receipt.uuid)
    requires Object(fields).GetString(APPLIED_ID_KEY) != Some(receipt.uuid)
    ensures ReleasedMeta(fields, receipt) == fields
  {
    AddThenRemove(EntriesOf(fields), receipt.uuid);
    assert ENTRIES_KEY in fields && fields[ENTRIES_KEY].Array? ==>
             fields[ENTRIES_KEY := Array(fields[ENTRIES_KEY].items)] == fields;
  }

  /** After a crash behind the receipt write, or behind the profile write, undo restores the exact state. */
  lemma CrashedTakeoverIsUndone(s: Desk, fields: Fields, uuid: string, profile: Json)
    requires Untaken(s, fields) && Fresh(s, fields, uuid)
    ensures var r := ReceiptWritten(s, uuid, profile); CanUndo(r) && Undone(r) == s
    ensures var p := ProfileWritten(s, uuid, profile); CanUndo(p) && Undone(p) == s
  {
    var receipt := NewReceipt(s, fields, uuid, profile);
    ReleaseUntaken(fields, receipt);
    assert s.profiles - {uuid} == s.profiles;
    assert s.profiles[uuid := profile] - {uuid} == s.profiles;
  }

  // A crash during a re-apply.

  /**
   Behind the receipt write of a re-apply, undo still releases the takeover, and apply is still
   accepted, if and only if the receipt did not change what it says about the profile on disk:
   the new profile is the old one, or the profile is gone. Otherwise the profile looks edited,
   undo changes nothing and apply is refused. Behind the profile write, undo is as good as before.
   */
  lemma CrashedReapplyIff(s: Desk, freshId: string, next: string, profile: Json)
    requires CanApply(s, freshId) && s.receipt.Some?
    ensures var (r, uuid) := (ReceiptWritten(s, freshId, profile), s.receipt.value.uuid);
            var known := uuid !in s.profiles || profile == s.profiles[uuid];
            && CanUndo(r) && (Undone(r) == Undone(s) <==> known)
            && (CanApply(r, next) <==> known)
            && (!known ==> Undone(r) == r)
    ensures var p := ProfileWritten(s, freshId, profile); CanUndo(p) && Undone(p) == Undone(s) && CanApply(p, next)
  {
    var uuid := s.receipt.value.uuid;
    assert s.profiles[uuid := profile] - {uuid} == s.profiles - {uuid};
  }

  // A crash during undo, at any time.

  lemma {:induction false} WithoutTwice(entries: seq<Json>, uuid: string)
    ensures Without(Without(entries, uuid), uuid) == Without(entries, uuid)
  {
    if entries == [] {
    } else {
      WithoutTwice(entries[1..], uuid);
      var rest := Without(entries[1..], uuid);
      assert [] + rest == rest && ([entries[0]] + rest)[1..] == rest;
    }
  }

  lemma ReleasedTwice(fields: Fields, receipt: Receipt)
    ensures ReleasedMeta(ReleasedMeta(fields, receipt), receipt) == ReleasedMeta(fields, receipt)
  {
    KeysDiffer();
    if ENTRIES_KEY in fields && fields[ENTRIES_KEY].Array? {
      WithoutTwice(fields[ENTRIES_KEY].items, receipt.uuid);
    }
  }

  /** An undo that crashed behind the table write, or behind the removal of the profile, is finished by the next one. */
  lemma CrashedUndoIsFinished(s: Desk)
    requires CanUndo(s) && s.receipt.Some? && !ProfileChanged(s)
    ensures var m := s.(meta := Undone(s).meta); CanUndo(m) && Undone(m) == Undone(s)
    ensures var p := s.(meta := Undone(s).meta, profiles := Undone(s).profiles); CanUndo(p) && Undone(p) == Undone(s)
  {
    if !s.meta.Missing? {
      ReleasedTwice(DocumentOf(s.meta).value, s.receipt.value);
    }
    var id := s.receipt.value.uuid;
    assert s.profiles - {id} - {id} == s.profiles - {id};
  }
}
