/**
 The takeover protocol over time. The quantity to conserve is the document as undoing now
 would leave it: apply and undo must not change it, only the user may.
 */
module CliTakeover {
  import opened Wrappers
  import opened JsonValues
  import opened CliSettings

  type Fields = map<string, Json>

  /** The document that undoing now would leave; a missing file counts as an empty object. */
  function View(s: Cli): Fields
    requires DocumentOf(s.settings).Some?
  {
    var fields := DocumentOf(s.settings).value;
    if s.receipt.None? then fields else UndoneFields(fields, s.receipt.value)
  }

  /** `env` of a document, absent counting as empty. */
  function Vars(fields: Fields): Env {
    EnvOf(fields).GetOr(map[])
  }

  // One apply, key by key.

  /** An owned key whose current value is not ours and not the saved original either. */
  ghost predicate Diverged(env: Env, owned: map<string, KeyRecord>, key: string) {
    key in owned && !Ours(env, owned, key) && Lookup(env, key) != Original(owned[key])
  }

  /** Undoing right after an apply restores each key as undoing right before it would, but for diverged keys it wrote. */
  lemma UndoneAfterApply(env: Option<Env>, owned: map<string, KeyRecord>, desired: Env, key: string)
    ensures var e := env.GetOr(map[]);
            var after := UndoneValue(AppliedEnv(env, owned, desired), Records(env, owned, desired), key);
            if key in desired && key in owned then after == Original(owned[key])
            else if key in desired then after == Lookup(e, key)
            else after == UndoneValue(e, owned, key)
  {
    var e := env.GetOr(map[]);
    UndoneAt(e, Orphans(owned, desired), key);
    assert Lookup(AppliedEnv(env, owned, desired), key) ==
           if key in desired then Some(desired[key]) else UndoneValue(e, Orphans(owned, desired), key);
  }

  lemma VarsAfterApply(env: Option<Env>, owned: map<string, KeyRecord>, desired: Env)
    ensures Undone(AppliedEnv(env, owned, desired), Records(env, owned, desired)) == Undone(env.GetOr(map[]), owned) <==>
            forall key | key in desired :: !Diverged(env.GetOr(map[]), owned, key)
  {
    var e := env.GetOr(map[]);
    var after, before := Undone(AppliedEnv(env, owned, desired), Records(env, owned, desired)), Undone(e, owned);
    forall key
      ensures Lookup(after, key) == Lookup(before, key) <==> !(key in desired && Diverged(e, owned, key))
    {
      UndoneAt(AppliedEnv(env, owned, desired), Records(env, owned, desired), key);
      UndoneAt(e, owned, key);
      UndoneAfterApply(env, owned, desired, key);
    }
    if forall key | key in desired :: !Diverged(e, owned, key) {
      SameLookups(after, before);
    }
  }

  /** The condition under which an apply loses nothing, checkable before it. */
  ghost predicate LosesNothing(s: Cli, desired: Env)
    requires DocumentOf(s.settings).Some?
  {
    s.receipt.Some? ==>
      var fields, receipt := DocumentOf(s.settings).value, s.receipt.value;
      && (forall key | key in desired :: !Diverged(Vars(fields), receipt.keys, key))
      && (EnvOf(fields).None? ==> receipt.envCreated)
  }

  lemma SetEnv(fields: Fields, value: Json)
    ensures EnvOf(fields[ENV_KEY := value]) == if value.Object? then Some(value.fields) else None
    ensures fields[ENV_KEY := value] - {ENV_KEY} == fields - {ENV_KEY}
    ensures ENV_KEY !in fields ==> fields[ENV_KEY := value] - {ENV_KEY} == fields
  {
  }

  lemma UndoneEmpty(keys: map<string, KeyRecord>)
    ensures Undone(map[], keys) == map[]
  {
  }

  /** What undo makes of a document, as its two parts. */
  lemma UndoneParts(fields: Fields, receipt: Receipt)
    requires ENV_KEY in fields ==> fields[ENV_KEY].Object?
    ensures var u := UndoneFields(fields, receipt);
            && u - {ENV_KEY} == fields - {ENV_KEY}
            && (ENV_KEY in u ==> u[ENV_KEY].Object?)
            && (EnvOf(fields).None? ==> EnvOf(u).None?)
            && (EnvOf(fields).Some? ==>
                  EnvOf(u) == if receipt.envCreated && Undone(Vars(fields), receipt.keys) == map[] then None
                              else Some(Undone(Vars(fields), receipt.keys)))
  {
  }

  lemma SameParts(a: Fields, b: Fields)
    requires a - {ENV_KEY} == b - {ENV_KEY} && EnvOf(a) == EnvOf(b)
    requires (ENV_KEY in a ==> a[ENV_KEY].Object?) && (ENV_KEY in b ==> b[ENV_KEY].Object?)
    ensures a == b
  {
    forall key
      ensures Lookup(a, key) == Lookup(b, key)
    {
      if key == ENV_KEY {
      } else {
        assert key in a <==> key in a - {ENV_KEY};
        assert key in b <==> key in b - {ENV_KEY};
        assert key in a ==> (a - {ENV_KEY})[key] == a[key];
        assert key in b ==> (b - {ENV_KEY})[key] == b[key];
      }
    }
    SameLookups(a, b);
  }

  lemma FreeEnv(s: Cli, desired: Env)
    requires CanApply(s, desired)
    ensures var fields := DocumentOf(s.settings).value; ENV_KEY in fields ==> fields[ENV_KEY].Object?
  {
    assert !Reported(DocumentOf(s.settings).value, Owned(s.receipt), desired, EnvType);
  }

  /** A successful apply conserves the view exactly when it loses nothing. */
  lemma ApplyConservesIff(s: Cli, desired: Env)
    requires CanApply(s, desired)
    ensures View(Applied(s, desired)) == View(s) <==> LosesNothing(s, desired)
  {
    FreeEnv(s, desired);
    var fields := DocumentOf(s.settings).value;
    var env, owned := EnvOf(fields), Owned(s.receipt);
    var receipt := AppliedReceipt(s, fields, desired);
    var written := Object(AppliedEnv(env, owned, desired));
    SetEnv(fields, written);
    UndoneParts(fields[ENV_KEY := written], receipt);
    VarsAfterApply(env, owned, desired);
    var after := View(Applied(s, desired));
    assert EnvOf(after) == if receipt.envCreated && Undone(written.fields, receipt.keys) == map[] then None
                           else Some(Undone(written.fields, receipt.keys));
    assert after - {ENV_KEY} == fields - {ENV_KEY};
    UndoneEmpty(owned);
    if s.receipt.None? {
      NothingOwned(env.GetOr(map[]));
      SameParts(after, fields);
    } else {
      UndoneParts(fields, s.receipt.value);
      if LosesNothing(s, desired) {
        SameParts(after, View(s));
      }
    }
  }

  lemma NothingOwned(env: Env)
    ensures Undone(env, map[]) == env
  {
    forall key
      ensures Lookup(Undone(env, map[]), key) == Lookup(env, key)
    {
      UndoneAt(env, map[], key);
    }
    SameLookups(Undone(env, map[]), env);
  }

  // A crash between the two writes of apply: the receipt is there, the settings are not.

  function Crashed(s: Cli, desired: Env): Cli
    requires DocumentOf(s.settings).Some?
  {
    s.(receipt := Some(AppliedReceipt(s, DocumentOf(s.settings).value, desired)))
  }

  /** Undo after a crashed first takeover leaves the settings as they were. */
  lemma CrashedTakeoverIsUndone(s: Cli, desired: Env)
    requires CanApply(s, desired) && s.receipt.None?
    ensures CanUndo(Crashed(s, desired)) && UndoneState(Crashed(s, desired)) == s
  {
    if s.settings.Parsed? {
      var fields := DocumentOf(s.settings).value;
      var keys := Records(EnvOf(fields), map[], desired);
      if EnvOf(fields).Some? {
        var env := Vars(fields);
        forall key
          ensures Lookup(Undone(env, keys), key) == Lookup(env, key)
        {
          UndoneAt(env, keys, key);
        }
        SameLookups(Undone(env, keys), env);
        assert fields[ENV_KEY := Object(env)] == fields;
      }
    }
  }

  /**
   The crashed receipt says what the old one said about this key: its value is still ours and
   was not going to change, or it is the original.
   */
  ghost predicate CrashSafe(env: Env, owned: map<string, KeyRecord>, desired: Env, key: string)
    requires key in owned
  {
    || (Ours(env, owned, key) && Lookup(desired, key) == Some(owned[key].applied))
    || Original(owned[key]) == Lookup(env, key)
  }

  /** Key by key: undoing with the new receipt but the old settings. */
  lemma UndoneAfterCrash(fields: Fields, owned: map<string, KeyRecord>, desired: Env, key: string)
    requires Free(fields, owned, desired) && EnvOf(fields).Some?
    ensures var env := Vars(fields);
            Lookup(Undone(env, Records(EnvOf(fields), owned, desired)), key) == Lookup(Undone(env, owned), key) <==>
            (key in owned ==> CrashSafe(env, owned, desired, key))
  {
    var env := Vars(fields);
    UndoneAt(env, Records(EnvOf(fields), owned, desired), key);
    UndoneAt(env, owned, key);
    assert !Reported(fields, owned, desired, UserModified(key));
  }

  /** A crashed re-apply leaves what undo would give unchanged if and only if every owned key is safe, or `env` is gone. */
  lemma CrashedReapplyIff(s: Cli, desired: Env)
    requires CanApply(s, desired) && s.receipt.Some?
    ensures var fields := DocumentOf(s.settings).value;
            View(Crashed(s, desired)) == View(s) <==>
            (EnvOf(fields).Some? ==> forall key | key in s.receipt.value.keys :: CrashSafe(Vars(fields), s.receipt.value.keys, desired, key))
  {
    hide CrashSafe, Undone;
    var fields := DocumentOf(s.settings).value;
    var env, owned := Vars(fields), s.receipt.value.keys;
    var keys := Records(EnvOf(fields), owned, desired);
    FreeEnv(s, desired);
    UndoneParts(fields, s.receipt.value);
    UndoneParts(fields, AppliedReceipt(s, fields, desired));
    if EnvOf(fields).Some? {
      forall key
        ensures Lookup(Undone(env, keys), key) == Lookup(Undone(env, owned), key) <==> (key in owned ==> CrashSafe(env, owned, desired, key))
      {
        UndoneAfterCrash(fields, owned, desired, key);
      }
      if forall key | key in owned :: CrashSafe(env, owned, desired, key) {
        SameLookups(Undone(env, keys), Undone(env, owned));
      }
    }
    if EnvOf(fields).None? || Undone(env, keys) == Undone(env, owned) {
      SameParts(View(Crashed(s, desired)), View(s));
    }
  }

  /**
   An unsafe crash of a re-apply that changes no value at all: the user has already set the
   key to the very value being written, and undo now puts the original over it.
   */
  lemma CrashTakesUsersValue(s: Cli, desired: Env)
    requires desired == map[AUTH_TOKEN_KEY := String("new")]
    requires s == Cli("p", true, false, Parsed(Object(map[ENV_KEY := Object(desired)])),
                      Some(Receipt("p", false, map[AUTH_TOKEN_KEY := KeyRecord(true, Some(String("u")), String("old"))])))
    ensures CanApply(s, desired) && View(Crashed(s, desired)) != View(s)
    ensures Lookup(Vars(View(s)), AUTH_TOKEN_KEY) == Some(String("new"))
    ensures Lookup(Vars(View(Crashed(s, desired))), AUTH_TOKEN_KEY) == Some(String("u"))
  {
    var fields, owned := DocumentOf(s.settings).value, s.receipt.value.keys;
    assert |API_KEY_HELPER_KEY| == 12 && |ENV_KEY| == 3;
    GuardedToken(fields, owned, desired);
    assert CanApply(s, desired);
    CrashedReapplyIff(s, desired);
    assert "u" != "new" && "old" != "new";
    assert !CrashSafe(Vars(fields), owned, desired, AUTH_TOKEN_KEY);
    UndoneParts(fields, s.receipt.value);
    UndoneParts(fields, AppliedReceipt(s, fields, desired));
    UndoneAt(Vars(fields), owned, AUTH_TOKEN_KEY);
    UndoneAt(Vars(fields), Records(EnvOf(fields), owned, desired), AUTH_TOKEN_KEY);
  }

  lemma GuardedToken(fields: Fields, owned: map<string, KeyRecord>, desired: Env)
    requires fields.Keys == {ENV_KEY} && EnvOf(fields) == Some(desired) && owned.Keys == {AUTH_TOKEN_KEY}
    requires desired.Keys == {AUTH_TOKEN_KEY} && desired[AUTH_TOKEN_KEY].String?
    ensures Free(fields, owned, desired)
  {
    GuardedKeys();
  }

  /** An undo that crashed between the settings write and the removal of the receipt is finished by the next one. */
  lemma CrashedUndoIsFinished(s: Cli)
    requires CanUndo(s)
    ensures var crashed := s.(settings := UndoneState(s).settings);
            CanUndo(crashed) && UndoneState(crashed) == UndoneState(s)
  {
    if s.receipt.Some? && !s.settings.Missing? {
      var fields, receipt := DocumentOf(s.settings).value, s.receipt.value;
      if EnvOf(fields).Some? {
        UndoneTwice(Vars(fields), receipt.keys);
        var restored := Undone(Vars(fields), receipt.keys);
        SetEnv(fields, Object(restored));
        assert fields[ENV_KEY := Object(restored)][ENV_KEY := Object(restored)] == fields[ENV_KEY := Object(restored)];
      }
    }
  }

  lemma UndoneTwice(env: Env, records: map<string, KeyRecord>)
    ensures Undone(Undone(env, records), records) == Undone(env, records)
  {
    var once := Undone(env, records);
    forall key
      ensures Lookup(Undone(once, records), key) == Lookup(once, key)
    {
      UndoneAt(env, records, key);
      UndoneAt(once, records, key);
    }
    SameLookups(Undone(once, records), once);
  }

  // Runs.

  /** The crashed actions stop between their two writes. */
  datatype Action =
    | ApplyRoute(desired: Env) | UndoTakeover | CrashedApply(desired: Env) | CrashedUndo
    | Edit(file: File)

  /** A refused action changes nothing. */
  ghost function Act(s: Cli, action: Action): Cli {
    match action
    case ApplyRoute(desired) => if CanApply(s, desired) then Applied(s, desired) else s
    case UndoTakeover => if CanUndo(s) then UndoneState(s) else s
    case CrashedApply(desired) => if CanApply(s, desired) then Crashed(s, desired) else s
    case CrashedUndo => if CanUndo(s) then s.(settings := UndoneState(s).settings) else s
    case Edit(file) => s.(settings := file)
  }

  ghost function Acts(s: Cli, actions: seq<Action>): Cli {
    if actions == [] then s else Act(Acts(s, actions[..|actions| - 1]), actions[|actions| - 1])
  }

  ghost predicate Readable(s: Cli) {
    && DocumentOf(s.settings).Some?
    && var fields := DocumentOf(s.settings).value;
       ENV_KEY in fields ==> fields[ENV_KEY].Object?
  }

  /** The action is an apply that loses something, or a re-apply that crashes where some owned key is not safe. */
  ghost predicate Loses(s: Cli, action: Action)
    requires Readable(s)
  {
    match action
    case ApplyRoute(desired) => CanApply(s, desired) && !LosesNothing(s, desired)
    case CrashedApply(desired) =>
      && CanApply(s, desired) && s.receipt.Some? && EnvOf(DocumentOf(s.settings).value).Some?
      && exists key | key in s.receipt.value.keys :: !CrashSafe(Vars(DocumentOf(s.settings).value), s.receipt.value.keys, desired, key)
    case _ => false
  }

  lemma UndoShowsView(s: Cli)
    requires Readable(s) && CanUndo(s)
    ensures Readable(UndoneState(s)) && DocumentOf(UndoneState(s).settings) == Some(View(s))
  {
    if s.receipt.Some? {
      UndoneParts(DocumentOf(s.settings).value, s.receipt.value);
    }
  }

  lemma ApplyIsReadable(s: Cli, desired: Env)
    requires CanApply(s, desired)
    ensures Readable(Applied(s, desired)) && EnvOf(DocumentOf(Applied(s, desired).settings).value).Some?
    ensures Vars(DocumentOf(Applied(s, desired).settings).value) == AppliedEnv(EnvOf(DocumentOf(s.settings).value), Owned(s.receipt), desired)
  {
    SetEnv(DocumentOf(s.settings).value, Object(AppliedEnv(EnvOf(DocumentOf(s.settings).value), Owned(s.receipt), desired)));
  }

  /** One action of the program, refused, done or crashed, conserves the view if and only if it is not a losing one. */
  lemma StepConservesIff(s: Cli, action: Action)
    requires Readable(s) && !action.Edit?
    ensures Readable(Act(s, action)) && (View(Act(s, action)) == View(s) <==> !Loses(s, action))
  {
    hide LosesNothing, CrashSafe, UndoneFields, CanApply, Records, AppliedEnv;
    match action
    case ApplyRoute(desired) =>
      if CanApply(s, desired) {
        ApplyIsReadable(s, desired);
        ApplyConservesIff(s, desired);
      }
    case UndoTakeover =>
      if CanUndo(s) {
        UndoShowsView(s);
      }
    case CrashedApply(desired) =>
      if CanApply(s, desired) {
        if s.receipt.None? {
          CrashedTakeoverIsUndone(s, desired);
          UndoShowsView(Crashed(s, desired));
        } else {
          CrashedReapplyIff(s, desired);
        }
      }
    case CrashedUndo =>
      if CanUndo(s) {
        CrashedUndoIsFinished(s);
        UndoShowsView(s);
        UndoShowsView(s.(settings := UndoneState(s).settings));
      }
    case Edit(_) =>
  }

  /** The state before action `n`. */
  ghost function Before(s: Cli, actions: seq<Action>, n: nat): Cli
    requires n <= |actions|
  {
    Acts(s, actions[..n])
  }

  lemma BeforeNext(s: Cli, actions: seq<Action>, n: nat)
    requires n < |actions|
    ensures Before(s, actions, n + 1) == Act(Before(s, actions, n), actions[n])
  {
    assert actions[..n + 1][..n] == actions[..n];
  }

  ghost predicate NoEdits(actions: seq<Action>) {
    forall i | 0 <= i < |actions| :: !actions[i].Edit?
  }

  lemma {:induction false} StaysReadable(s: Cli, actions: seq<Action>, n: nat)
    requires Readable(s) && NoEdits(actions) && n <= |actions|
    ensures Readable(Before(s, actions, n))
  {
    if n > 0 {
      StaysReadable(s, actions, n - 1);
      BeforeNext(s, actions, n - 1);
      StepConservesIff(Before(s, actions, n - 1), actions[n - 1]);
    }
  }

  /** No action up to here was a losing one. */
  ghost predicate NothingLost(s: Cli, actions: seq<Action>, n: nat)
    requires n <= |actions|
  {
    forall i | 0 <= i < n :: Readable(Before(s, actions, i)) && !Loses(Before(s, actions, i), actions[i])
  }

  /** While the user edits nothing, the view stays what it is exactly as long as no action loses something. */
  lemma {:induction false} ViewIsConstantIff(s: Cli, actions: seq<Action>, n: nat)
    requires Readable(s) && NoEdits(actions) && n <= |actions|
    ensures (forall i | 0 <= i <= n :: Readable(Before(s, actions, i)) && View(Before(s, actions, i)) == View(s)) <==>
            NothingLost(s, actions, n)
  {
    hide View, Loses, Act;
    if n > 0 {
      ViewIsConstantIff(s, actions, n - 1);
      StaysReadable(s, actions, n - 1);
      BeforeNext(s, actions, n - 1);
      StepConservesIff(Before(s, actions, n - 1), actions[n - 1]);
    }
  }

  // From a sound state only a crash can lose something.

  /** Each owned key has our value or the original; a missing `env` is one that the takeover created. */
  ghost predicate Sound(s: Cli) {
    && Readable(s)
    && (s.receipt.Some? ==>
          var fields := DocumentOf(s.settings).value;
          && (forall key | key in s.receipt.value.keys :: !Diverged(Vars(fields), s.receipt.value.keys, key))
          && (EnvOf(fields).None? ==> s.receipt.value.envCreated))
  }

  lemma ApplyStaysSound(s: Cli, desired: Env)
    requires Sound(s) && CanApply(s, desired)
    ensures LosesNothing(s, desired) && Sound(Applied(s, desired))
  {
    ApplyIsReadable(s, desired);
    if s.receipt.Some? {
      var env, owned := Vars(DocumentOf(s.settings).value), s.receipt.value.keys;
      forall key | key in desired
        ensures !Diverged(env, owned, key)
      {
        assert key in owned ==> !Diverged(env, owned, key);
      }
    }
  }

  lemma CrashStaysSound(s: Cli, desired: Env)
    requires Sound(s) && CanApply(s, desired) && !Loses(s, CrashedApply(desired))
    ensures Sound(Crashed(s, desired))
  {
    var fields := DocumentOf(s.settings).value;
    var env, owned := Vars(fields), Owned(s.receipt);
    var keys := Records(EnvOf(fields), owned, desired);
    forall key | key in keys
      ensures !Diverged(env, keys, key)
    {
      if key in owned {
        assert !Diverged(env, owned, key);
        assert EnvOf(fields).Some? ==> CrashSafe(env, owned, desired, key);
      }
    }
  }

  lemma UndoStaysSound(s: Cli)
    requires Sound(s) && CanUndo(s)
    ensures Sound(UndoneState(s)) && Sound(s.(settings := UndoneState(s).settings))
  {
    UndoShowsView(s);
    if s.receipt.Some? && !s.settings.Missing? {
      var fields, receipt := DocumentOf(s.settings).value, s.receipt.value;
      var env, after := Vars(fields), UndoneFields(fields, receipt);
      UndoneParts(fields, receipt);
      UndoneEmpty(receipt.keys);
      assert Vars(after) == Undone(env, receipt.keys);
      forall key | key in receipt.keys
        ensures !Diverged(Vars(after), receipt.keys, key)
      {
        assert !Diverged(env, receipt.keys, key);
        UndoneAt(env, receipt.keys, key);
      }
    }
  }

  lemma StaysSound(s: Cli, action: Action)
    requires Sound(s) && !action.Edit?
    requires action.CrashedApply? ==> !Loses(s, action)
    ensures !Loses(s, action) && Sound(Act(s, action))
  {
    hide Sound, CanApply, CanUndo, Applied, Crashed, UndoneState;
    match action
    case ApplyRoute(desired) =>
      if CanApply(s, desired) {
        ApplyStaysSound(s, desired);
      }
    case UndoTakeover =>
      if CanUndo(s) {
        UndoStaysSound(s);
      }
    case CrashedApply(desired) =>
      if CanApply(s, desired) {
        CrashStaysSound(s, desired);
      }
    case CrashedUndo =>
      if CanUndo(s) {
        UndoStaysSound(s);
      }
    case Edit(_) =>
  }

  /** No re-apply crashes where it loses something; all other crashes are allowed. */
  ghost predicate CrashesAreSafe(s: Cli, actions: seq<Action>) {
    forall i | 0 <= i < |actions| :: actions[i].CrashedApply? ==>
      Readable(Before(s, actions, i)) && !Loses(Before(s, actions, i), actions[i])
  }

  lemma {:induction false} OnlyCrashesLose(s: Cli, actions: seq<Action>, n: nat)
    requires Sound(s) && NoEdits(actions) && CrashesAreSafe(s, actions) && n <= |actions|
    ensures Sound(Before(s, actions, n)) && NothingLost(s, actions, n)
  {
    hide Loses, Act, Diverged;
    if n > 0 {
      OnlyCrashesLose(s, actions, n - 1);
      BeforeNext(s, actions, n - 1);
      StaysSound(Before(s, actions, n - 1), actions[n - 1]);
    }
  }

  /**
   After any applies with any routes, undos in between and safe crashes, one undo gives the
   original object and no receipt. The file itself is back if and only if it existed, or none
   was written.
   */
  lemma RoundTrip(s: Cli, fields: Fields, actions: seq<Action>)
    requires s.receipt.None? && DocumentOf(s.settings) == Some(fields) && (ENV_KEY in fields ==> fields[ENV_KEY].Object?)
    requires NoEdits(actions) && CrashesAreSafe(s, actions)
    ensures var last := Acts(s, actions + [UndoTakeover]);
            && last == s.(settings := last.settings) && DocumentOf(last.settings) == Some(fields)
            && (last == s <==> s.settings.Parsed? || Acts(s, actions).settings.Missing?)
  {
    OnlyCrashesLose(s, actions, |actions|);
    ViewIsConstantIff(s, actions, |actions|);
    assert actions[..|actions|] == actions && (actions + [UndoTakeover])[..|actions|] == actions;
    assert View(Before(s, actions, |actions|)) == View(s);
    PathsStay(s, actions);
    UndoShowsView(Acts(s, actions));
  }

  lemma {:induction false} PathsStay(s: Cli, actions: seq<Action>)
    requires s.receipt.Some? ==> s.receipt.value.settingsPath == s.path
    requires !s.settings.Unparsable? && NoEdits(actions)
    ensures var t := Acts(s, actions);
            && t == s.(settings := t.settings, receipt := t.receipt) && !t.settings.Unparsable?
            && (s.settings.Parsed? ==> t.settings.Parsed?)
            && (t.receipt.Some? ==> t.receipt.value.settingsPath == t.path)
  {
    if actions == [] {
    } else {
      PathsStay(s, actions[..|actions| - 1]);
    }
  }

  // User edits.

  /** `env` as an outside reader sees it. */
  function VarsIn(file: File): Env {
    if DocumentOf(file).Some? then Vars(DocumentOf(file).value) else map[]
  }

  function FieldIn(file: File, key: string): Option<Json> {
    if DocumentOf(file).Some? then Lookup(DocumentOf(file).value, key) else None
  }

  function LastEdit(file: File, actions: seq<Action>): File {
    if actions == [] then file
    else
      var last := actions[|actions| - 1];
      if last.Edit? then last.file else LastEdit(file, actions[..|actions| - 1])
  }

  /** The takeover never writes this key. */
  ghost predicate Unmanaged(s: Cli, actions: seq<Action>, key: string) {
    && key !in Owned(s.receipt)
    && forall i | 0 <= i < |actions| && (actions[i].ApplyRoute? || actions[i].CrashedApply?) :: key !in actions[i].desired
  }

  lemma ApplyFrame(s: Cli, desired: Env, key: string)
    requires CanApply(s, desired)
    ensures key !in desired && key !in Owned(s.receipt) ==>
              Lookup(VarsIn(Applied(s, desired).settings), key) == Lookup(VarsIn(s.settings), key)
    ensures key != ENV_KEY ==> FieldIn(Applied(s, desired).settings, key) == FieldIn(s.settings, key)
  {
    var fields := DocumentOf(s.settings).value;
    SetEnv(fields, Object(AppliedEnv(EnvOf(fields), Owned(s.receipt), desired)));
    UndoneAt(Vars(fields), Orphans(Owned(s.receipt), desired), key);
  }

  lemma UndoFrame(s: Cli, key: string)
    requires CanUndo(s)
    ensures key !in Owned(s.receipt) ==> Lookup(VarsIn(UndoneState(s).settings), key) == Lookup(VarsIn(s.settings), key)
    ensures key != ENV_KEY ==> FieldIn(UndoneState(s).settings, key) == FieldIn(s.settings, key)
  {
    if s.receipt.Some? && !s.settings.Missing? {
      var fields := DocumentOf(s.settings).value;
      if EnvOf(fields).Some? {
        UndoneAt(Vars(fields), s.receipt.value.keys, key);
        SetEnv(fields, Object(Undone(Vars(fields), s.receipt.value.keys)));
      }
    }
  }

  /** In every interleaving of applies, undos and edits, unmanaged variables and all other fields are what the user last left. */
  lemma {:induction false} UnmanagedKeysAreTheUsers(s: Cli, actions: seq<Action>, key: string)
    ensures Unmanaged(s, actions, key) ==>
              && key !in Owned(Acts(s, actions).receipt)
              && Lookup(VarsIn(Acts(s, actions).settings), key) == Lookup(VarsIn(LastEdit(s.settings, actions)), key)
    ensures key != ENV_KEY ==> FieldIn(Acts(s, actions).settings, key) == FieldIn(LastEdit(s.settings, actions), key)
  {
    if actions == [] {
    } else {
      var init, last := actions[..|actions| - 1], actions[|actions| - 1];
      UnmanagedKeysAreTheUsers(s, init, key);
      var t := Acts(s, init);
      if Unmanaged(s, actions, key) {
        assert Unmanaged(s, init, key);
      }
      match last
      case ApplyRoute(desired) =>
        if CanApply(t, desired) {
          ApplyFrame(t, desired, key);
        }
      case UndoTakeover =>
        if CanUndo(t) {
          UndoFrame(t, key);
        }
      case CrashedApply(_) =>
      case CrashedUndo =>
        if CanUndo(t) {
          UndoFrame(t, key);
        }
      case Edit(_) =>
    }
  }

  /** A value that a successful apply replaces was ours, or is saved in its record. */
  lemma ReplacedValuesAreKept(s: Cli, desired: Env, key: string)
    requires CanApply(s, desired)
    requires key in VarsIn(s.settings)
    requires Lookup(VarsIn(Applied(s, desired).settings), key) != Lookup(VarsIn(s.settings), key)
    ensures Ours(VarsIn(s.settings), Owned(s.receipt), key)
            || (key !in Owned(s.receipt) && key in Owned(Applied(s, desired).receipt)
                && Original(Owned(Applied(s, desired).receipt)[key]) == Lookup(VarsIn(s.settings), key))
  {
    var fields := DocumentOf(s.settings).value;
    FreeEnv(s, desired);
    SetEnv(fields, Object(AppliedEnv(EnvOf(fields), Owned(s.receipt), desired)));
    UndoneAt(Vars(fields), Orphans(Owned(s.receipt), desired), key);
    assert !Reported(fields, Owned(s.receipt), desired, UserModified(key));
  }

  /**
   An owned key that the user changed or removed keeps the user's state through a successful
   apply, unless `env` as a whole is gone and the key is being written; undo always keeps it.
   */
  lemma UserChangeSurvivesIff(s: Cli, desired: Env, key: string)
    requires CanApply(s, desired) && key in Owned(s.receipt) && !Ours(VarsIn(s.settings), Owned(s.receipt), key)
    ensures Lookup(VarsIn(Applied(s, desired).settings), key) == Lookup(VarsIn(s.settings), key) <==>
            EnvOf(DocumentOf(s.settings).value).Some? || key !in desired
  {
    var fields := DocumentOf(s.settings).value;
    FreeEnv(s, desired);
    SetEnv(fields, Object(AppliedEnv(EnvOf(fields), Owned(s.receipt), desired)));
    UndoneAt(Vars(fields), Orphans(Owned(s.receipt), desired), key);
    assert !Reported(fields, Owned(s.receipt), desired, UserModified(key));
  }

  lemma UserChangeSurvivesUndo(s: Cli, key: string)
    requires CanUndo(s) && key in Owned(s.receipt) && !Ours(VarsIn(s.settings), Owned(s.receipt), key)
    ensures Lookup(VarsIn(UndoneState(s).settings), key) == Lookup(VarsIn(s.settings), key)
  {
    if s.receipt.Some? && !s.settings.Missing? {
      var fields := DocumentOf(s.settings).value;
      if EnvOf(fields).Some? {
        UndoneAt(Vars(fields), s.receipt.value.keys, key);
        SetEnv(fields, Object(Undone(Vars(fields), s.receipt.value.keys)));
      }
    }
  }

  /** The losing case is real: the user deletes all of `env`, and the next apply writes the owned key again. */
  lemma RemovedEnvIsRewritten()
    ensures exists s: Cli, desired: Env, key ::
              && CanApply(s, desired) && key in Owned(s.receipt)
              && key !in VarsIn(s.settings) && key in VarsIn(Applied(s, desired).settings)
              && View(Applied(s, desired)) != View(s)
  {
    var key := AUTH_TOKEN_KEY;
    var desired: Env := map[key := String("t")];
    var receipt := Receipt("p", false, map[key := KeyRecord(true, Some(String("u")), String("t"))]);
    var s := Cli("p", true, false, Parsed(Object(map[])), Some(receipt));
    assert Free(map[], receipt.keys, desired);
    assert CanApply(s, desired);
    assert EnvOf(map[]).None?;
    ApplyConservesIff(s, desired);
    assert key in desired && key in receipt.keys;
    SetEnv(map[], Object(AppliedEnv(None, receipt.keys, desired)));
    assert key in VarsIn(Applied(s, desired).settings);
    assert key !in VarsIn(s.settings);
  }

  // Status.

  /** No takeover, or one whose values are all in place; `env` is absent or an object. */
  ghost predicate Settled(s: Cli) {
    && DocumentOf(s.settings).Some?
    && var fields := DocumentOf(s.settings).value;
       && (ENV_KEY in fields ==> fields[ENV_KEY].Object?)
       && (s.receipt.Some? ==>
             && EnvOf(fields).Some? && s.settings.Parsed?
             && forall key | key in s.receipt.value.keys :: Ours(Vars(fields), s.receipt.value.keys, key))
  }

  /** A successful apply ends in place under its own route. */
  lemma ApplyEndsInPlace(s: Cli, desired: Env)
    requires CanApply(s, desired)
    ensures Inspect(Applied(s, desired), Some(Gateway(desired, true))) == InPlace
  {
    var fields := DocumentOf(s.settings).value;
    SetEnv(fields, Object(AppliedEnv(EnvOf(fields), Owned(s.receipt), desired)));
  }

  lemma GuardedKeys()
    ensures forall key | key in GUARDED_KEYS && key in MANAGED_ENV_KEYS :: key == BASE_URL_KEY
    ensures API_KEY_HELPER_KEY != ENV_KEY
  {
    assert |BASE_URL_KEY| == 18 && |AUTH_TOKEN_KEY| == 20 && |ATTRIBUTION_HEADER_KEY| == 30;
    assert |API_KEY_KEY| == 17 && |BEDROCK_KEY| == 23 && |VERTEX_KEY| == 22 && |FOUNDRY_KEY| == 23;
    forall key | key in MANAGED_ENV_KEYS
      ensures |key| !in {17, 22, 23}
    {
      assert |ModelEnv(Sonnet)| == 30 && |NameEnv(Sonnet)| == 35 && |ModelEnv(Opus)| == 28 && |NameEnv(Opus)| == 33;
      assert |ModelEnv(Haiku)| == 29 && |NameEnv(Haiku)| == 34;
    }
    assert |API_KEY_HELPER_KEY| == 12 && |ENV_KEY| == 3;
  }

  /** Applying the same route again is accepted and changes neither document nor receipt. */
  lemma ApplyIsIdempotent(s: Cli, desired: Env)
    requires CanApply(s, desired)
    requires BASE_URL_KEY in desired && Owned(s.receipt).Keys <= MANAGED_ENV_KEYS
    ensures var t := Applied(s, desired); CanApply(t, desired) && Applied(t, desired) == t
  {
    var fields, owned := DocumentOf(s.settings).value, Owned(s.receipt);
    var env := AppliedEnv(EnvOf(fields), owned, desired);
    FreeEnv(s, desired);
    SetEnv(fields, Object(env));
    StillFree(fields, owned, desired);
    SecondApply(EnvOf(fields), owned, desired);
    assert fields[ENV_KEY := Object(env)][ENV_KEY := Object(env)] == fields[ENV_KEY := Object(env)];
  }

  /** The second of two equal applies finds its own records and values. */
  lemma SecondApply(env: Option<Env>, owned: map<string, KeyRecord>, desired: Env)
    ensures var (now, keys) := (AppliedEnv(env, owned, desired), Records(env, owned, desired));
            AppliedEnv(Some(now), keys, desired) == now && Records(Some(now), keys, desired) == keys
  {
    var now, keys := AppliedEnv(env, owned, desired), Records(env, owned, desired);
    assert Orphans(keys, desired) == map[];
    NothingOwned(now);
    assert now + desired == now;
  }

  lemma StillFree(fields: Fields, owned: map<string, KeyRecord>, desired: Env)
    requires Free(fields, owned, desired)
    requires BASE_URL_KEY in desired && owned.Keys <= MANAGED_ENV_KEYS
    ensures Free(fields[ENV_KEY := Object(AppliedEnv(EnvOf(fields), owned, desired))], Records(EnvOf(fields), owned, desired), desired)
  {
    var env := AppliedEnv(EnvOf(fields), owned, desired);
    var keys := Records(EnvOf(fields), owned, desired);
    var now := fields[ENV_KEY := Object(env)];
    GuardedKeys();
    assert !Reported(fields, owned, desired, ApiKeyHelper);
    assert !Reported(fields, owned, desired, EnvType);
    forall c
      ensures !Reported(now, keys, desired, c)
    {
      if c.ForeignValue? && c.key in GUARDED_KEYS && c.key !in desired {
        UndoneAt(Vars(fields), Orphans(owned, desired), c.key);
        assert !Reported(fields, owned, desired, c);
      }
    }
  }

  /** The values a receipt says were written. */
  function Written(keys: map<string, KeyRecord>): Env {
    map key | key in keys :: keys[key].applied
  }

  /** An unedited takeover is stale exactly when the written values are not the desired ones, or the gateway is down. */
  lemma StaleIff(s: Cli, gateway: Gateway)
    requires Settled(s) && s.receipt.Some? && s.receipt.value.settingsPath == s.path && !s.managed
    ensures Inspect(s, Some(gateway)) == Stale <==>
            !gateway.available || Written(s.receipt.value.keys) != gateway.desired
  {
    var keys := s.receipt.value.keys;
    assert IsApplied(s) by {
      forall key | key in keys
        ensures Lookup(Vars(DocumentOf(s.settings).value), key) == Some(keys[key].applied)
      {
        assert Ours(Vars(DocumentOf(s.settings).value), keys, key);
      }
    }
    if ReceiptMatches(keys, gateway.desired) {
      forall key
        ensures Lookup(Written(keys), key) == Lookup(gateway.desired, key)
      {
      }
      SameLookups(Written(keys), gateway.desired);
    }
  }
}
