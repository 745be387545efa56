/**
 Takeover of Claude Desktop's `configLibrary`: one entry and one profile of our own in a
 table that others share.
 */
module Desktop {
  import opened Wrappers
  import opened JsonValues

  type Fields = map<string, Json>

  const ENTRIES_KEY := "entries"
  const APPLIED_ID_KEY := "appliedId"
  const ID_KEY := "id"
  const NAME_KEY := "name"
  const DESKTOP_ENTRY_NAME := "haxsd byok"

  /** The profile hash stands for the profile itself; a `null` original id is stored as none. */
  datatype Receipt = Receipt(
    uuid: string,
    metaPath: string,
    appliedIdPresent: bool,
    originalAppliedId: Option<Json>,
    appliedProfile: Json)

  datatype Desk = Desk(
    path: string,
    installed: bool,
    guided: bool,
    running: bool,
    meta: File,
    profiles: map<string, Json>,
    receipt: Option<Receipt>)

  predicate HasId(entry: Json, uuid: string) {
    entry.GetString(ID_KEY) == Some(uuid)
  }

  function NewEntry(uuid: string): Json {
    Object(map[ID_KEY := String(uuid), NAME_KEY := String(DESKTOP_ENTRY_NAME)])
  }

  function Renamed(entry: Json): Json
    requires entry.Object?
  {
    Object(entry.fields[NAME_KEY := String(DESKTOP_ENTRY_NAME)])
  }

  /** Our entry is renamed where it stands, or added at the end. */
  function WithEntry(entries: seq<Json>, uuid: string): seq<Json> {
    if entries == [] then [NewEntry(uuid)]
    else if HasId(entries[0], uuid) then [Renamed(entries[0])] + entries[1..]
    else [entries[0]] + WithEntry(entries[1..], uuid)
  }

  /** The entries with other ids, in order. */
  function Without(entries: seq<Json>, uuid: string): seq<Json> {
    if entries == [] then []
    else (if HasId(entries[0], uuid) then [] else [entries[0]]) + Without(entries[1..], uuid)
  }

  lemma WithEntryStep(entries: seq<Json>, i: nat, uuid: string)
    requires i < |entries|
    ensures !HasId(entries[i], uuid) ==>
              entries[..i] + WithEntry(entries[i..], uuid) == entries[..i + 1] + WithEntry(entries[i + 1..], uuid)
    ensures HasId(entries[i], uuid) ==> entries[..i] + WithEntry(entries[i..], uuid) == entries[i := Renamed(entries[i])]
  {
    assert entries[i..][1..] == entries[i + 1..];
  }

  method AddEntry(entries: seq<Json>, uuid: string) returns (now: seq<Json>)
    ensures now == WithEntry(entries, uuid)
  {
    var i := 0;
    while i < |entries| && !HasId(entries[i], uuid)
      invariant 0 <= i <= |entries|
      invariant WithEntry(entries, uuid) == entries[..i] + WithEntry(entries[i..], uuid)
    {
      WithEntryStep(entries, i, uuid);
      i := i + 1;
    }
    if i < |entries| {
      WithEntryStep(entries, i, uuid);
      now := entries[i := Renamed(entries[i])];
    } else {
      now := entries + [NewEntry(uuid)];
      assert entries[..i] == entries && entries[i..] == [];
    }
  }

  method RemoveEntry(entries: seq<Json>, uuid: string) returns (now: seq<Json>)
    ensures now == Without(entries, uuid)
  {
    now := [];
    var i := 0;
    while i < |entries|
      invariant 0 <= i <= |entries|
      invariant Without(entries, uuid) == now + Without(entries[i..], uuid)
    {
      ghost var kept := now;
      assert entries[i..][1..] == entries[i + 1..];
      if !HasId(entries[i], uuid) {
        now := now + [entries[i]];
        assert kept + ([entries[i]] + Without(entries[i + 1..], uuid)) == now + Without(entries[i + 1..], uuid);
      } else {
        assert [] + Without(entries[i + 1..], uuid) == Without(entries[i + 1..], uuid);
      }
      i := i + 1;
    }
    assert entries[i..] == [] && now + [] == now;
  }

  function EntriesOf(fields: Fields): seq<Json> {
    if ENTRIES_KEY in fields && fields[ENTRIES_KEY].Array? then fields[ENTRIES_KEY].items else []
  }

  predicate ValidMeta(file: File) {
    DocumentOf(file).Some? &&
    (ENTRIES_KEY in DocumentOf(file).value ==> DocumentOf(file).value[ENTRIES_KEY].Array?)
  }

  function TakenMeta(fields: Fields, uuid: string): Fields {
    fields[ENTRIES_KEY := Array(WithEntry(EntriesOf(fields), uuid))][APPLIED_ID_KEY := String(uuid)]
  }

  function NewReceipt(s: Desk, fields: Fields, freshId: string, profile: Json): Receipt {
    match s.receipt
    case Some(r) => r.(metaPath := s.path, appliedProfile := profile)
    case None =>
      var present := APPLIED_ID_KEY in fields;
      Receipt(freshId, s.path, present,
              if present && fields[APPLIED_ID_KEY] != Null then Some(fields[APPLIED_ID_KEY]) else None, profile)
  }

  predicate CanApply(s: Desk, freshId: string) {
    && s.installed && !s.guided && !s.running && ValidMeta(s.meta)
    && (s.receipt.Some? ==>
          && s.receipt.value.metaPath == s.path
          && (s.receipt.value.uuid in s.profiles ==> s.profiles[s.receipt.value.uuid] == s.receipt.value.appliedProfile))
  }

  // The three writes of apply, in order: receipt, profile, table.

  function ReceiptWritten(s: Desk, freshId: string, profile: Json): Desk
    requires ValidMeta(s.meta)
  {
    s.(receipt := Some(NewReceipt(s, DocumentOf(s.meta).value, freshId, profile)))
  }

  function ProfileWritten(s: Desk, freshId: string, profile: Json): Desk
    requires ValidMeta(s.meta)
  {
    var r := ReceiptWritten(s, freshId, profile);
    r.(profiles := r.profiles[r.receipt.value.uuid := profile])
  }

  function Applied(s: Desk, freshId: string, profile: Json): Desk
    requires ValidMeta(s.meta)
  {
    var p := ProfileWritten(s, freshId, profile);
    p.(meta := Parsed(Object(TakenMeta(DocumentOf(s.meta).value, p.receipt.value.uuid))))
  }

  /** The table after undo. */
  function ReleasedMeta(fields: Fields, receipt: Receipt): Fields {
    var pruned := if ENTRIES_KEY in fields && fields[ENTRIES_KEY].Array?
                  then fields[ENTRIES_KEY := Array(Without(fields[ENTRIES_KEY].items, receipt.uuid))] else fields;
    if Object(fields).GetString(APPLIED_ID_KEY) != Some(receipt.uuid) then pruned
    else if receipt.appliedIdPresent then pruned[APPLIED_ID_KEY := receipt.originalAppliedId.GetOr(Null)]
    else pruned - {APPLIED_ID_KEY}
  }

  /** A profile the user changed is no longer ours. */
  predicate ProfileChanged(s: Desk) {
    && s.receipt.Some? && s.receipt.value.uuid in s.profiles
    && s.profiles[s.receipt.value.uuid] != s.receipt.value.appliedProfile
  }

  predicate CanUndo(s: Desk) {
    s.receipt.Some? ==>
      && s.receipt.value.metaPath == s.path && !s.running
      && (ProfileChanged(s) || DocumentOf(s.meta).Some?)
  }

  function Undone(s: Desk): Desk
    requires CanUndo(s)
  {
    if s.receipt.None? || ProfileChanged(s) then s
    else
      var r := s.receipt.value;
      s.(receipt := None, profiles := s.profiles - {r.uuid},
         meta := if s.meta.Missing? then Missing else Parsed(Object(ReleasedMeta(DocumentOf(s.meta).value, r))))
  }

  /** Desktop's files and probes. */
  class DesktopHome {
    const path: string
    var installed: bool
    var guided: bool
    var running: bool
    var meta: File
    var profiles: map<string, Json>
    var receipt: Option<Receipt>

    ghost function State(): Desk
      reads this
    {
      Desk(path, installed, guided, running, meta, profiles, receipt)
    }

    constructor (s: Desk)
      ensures State() == s
    {
      path, installed, guided, running := s.path, s.installed, s.guided, s.running;
      meta, profiles, receipt := s.meta, s.profiles, s.receipt;
    }

    /** Receipt first, then the profile, then the table. */
    method Apply(freshId: string, profile: Json) returns (ok: bool)
      modifies this`meta, this`profiles, this`receipt
      ensures ok == CanApply(old(State()), freshId)
      ensures State() == if ok then Applied(old(State()), freshId, profile) else old(State())
    {
      hide WithEntry;
      ok := false;
      if !installed || guided || running {
        return;
      }
      if receipt.Some? && receipt.value.metaPath != path {
        return;
      }
      var document := DocumentOf(meta);
      if document.None? {
        return;
      }
      var fields := document.value;
      if ENTRIES_KEY in fields && !fields[ENTRIES_KEY].Array? {
        return;
      }
      var uuid := if receipt.Some? then receipt.value.uuid else freshId;
      if receipt.Some? && uuid in profiles && profiles[uuid] != receipt.value.appliedProfile {
        return;
      }
      receipt := Some(NewReceipt(Desk(path, installed, guided, running, meta, profiles, receipt), fields, freshId, profile));
      assert State() == ReceiptWritten(old(State()), freshId, profile);
      profiles := profiles[uuid := profile];
      assert State() == ProfileWritten(old(State()), freshId, profile);
      var entries := AddEntry(EntriesOf(fields), uuid);
      fields := fields[ENTRIES_KEY := Array(entries)];
      fields := fields[APPLIED_ID_KEY := String(uuid)];
      meta := Parsed(Object(fields));
      ok := true;
    }

    /** The table first, then the profile, then the receipt. */
    method Undo() returns (ok: bool)
      modifies this`meta, this`profiles, this`receipt
      ensures ok == CanUndo(old(State()))
      ensures State() == if ok then Undone(old(State())) else old(State())
    {
      ok := true;
      if receipt.None? {
        return;
      }
      var r := receipt.value;
      if r.metaPath != path || running {
        return false;
      }
      if r.uuid in profiles && profiles[r.uuid] != r.appliedProfile {
        return;
      }
      if !meta.Missing? {
        var document := DocumentOf(meta);
        if document.None? {
          return false;
        }
        var fields := document.value;
        var current := Object(fields).GetString(APPLIED_ID_KEY);
        if ENTRIES_KEY in fields && fields[ENTRIES_KEY].Array? {
          var kept := RemoveEntry(fields[ENTRIES_KEY].items, r.uuid);
          fields := fields[ENTRIES_KEY := Array(kept)];
        }
        if current == Some(r.uuid) {
          if r.appliedIdPresent {
            fields := fields[APPLIED_ID_KEY := r.originalAppliedId.GetOr(Null)];
          } else {
            fields := fields - {APPLIED_ID_KEY};
          }
        }
        meta := Parsed(Object(fields));
      }
      profiles := profiles - {r.uuid};
      receipt := None;
    }
  }
}
