/**
 Takeover of the Claude Code `settings.json`: which `env` values belong to the gateway,
 what the receipt remembers, and what apply and undo write.
 */
module CliSettings {
  import opened Wrappers
  import opened JsonValues
  import opened Strings

  type Env = map<string, Json>

  const BASE_URL_KEY := "ANTHROPIC_BASE_URL"
  const AUTH_TOKEN_KEY := "ANTHROPIC_AUTH_TOKEN"
  const ATTRIBUTION_HEADER_KEY := "CLAUDE_CODE_ATTRIBUTION_HEADER"
  const ATTRIBUTION_VALUE := "0"
  const API_KEY_KEY := "ANTHROPIC_API_KEY"
  const BEDROCK_KEY := "CLAUDE_CODE_USE_BEDROCK"
  const VERTEX_KEY := "CLAUDE_CODE_USE_VERTEX"
  const FOUNDRY_KEY := "CLAUDE_CODE_USE_FOUNDRY"
  const API_KEY_HELPER_KEY := "apiKeyHelper"
  const ENV_KEY := "env"

  datatype Family = Sonnet | Opus | Haiku

  function ModelEnv(family: Family): string {
    match family
    case Sonnet => "ANTHROPIC_DEFAULT_SONNET_MODEL"
    case Opus => "ANTHROPIC_DEFAULT_OPUS_MODEL"
    case Haiku => "ANTHROPIC_DEFAULT_HAIKU_MODEL"
  }

  function NameEnv(family: Family): string {
    match family
    case Sonnet => "ANTHROPIC_DEFAULT_SONNET_MODEL_NAME"
    case Opus => "ANTHROPIC_DEFAULT_OPUS_MODEL_NAME"
    case Haiku => "ANTHROPIC_DEFAULT_HAIKU_MODEL_NAME"
  }

  const MANAGED_ENV_KEYS: set<string> := {
    BASE_URL_KEY, AUTH_TOKEN_KEY, ATTRIBUTION_HEADER_KEY,
    ModelEnv(Sonnet), NameEnv(Sonnet), ModelEnv(Opus), NameEnv(Opus), ModelEnv(Haiku), NameEnv(Haiku)
  }

  // Desired values.

  datatype CliModel = CliModel(family: Family, modelHash: string, displayName: string)

  /** `validUrl` says whether the base URL is `http://127.0.0.1:<non-zero port>`. */
  datatype CliRoute = CliRoute(baseUrl: string, validUrl: bool, token: string, models: seq<CliModel>)

  function Families(models: seq<CliModel>): set<Family> {
    if models == [] then {} else Families(models[..|models| - 1]) + {models[|models| - 1].family}
  }

  /** Every family at most once, and no blank model. */
  predicate ValidModels(models: seq<CliModel>) {
    models == [] ||
    var init, last := models[..|models| - 1], models[|models| - 1];
    ValidModels(init) && last.family !in Families(init) && Trim(last.modelHash) != ""
  }

  lemma {:induction false} FamiliesMeaning(models: seq<CliModel>, f: Family)
    ensures f in Families(models) <==> exists i | 0 <= i < |models| :: models[i].family == f
  {
    if models == [] {
    } else {
      FamiliesMeaning(models[..|models| - 1], f);
    }
  }

  lemma {:induction false} InvalidPrefix(models: seq<CliModel>, n: nat)
    requires n <= |models| && !ValidModels(models[..n])
    ensures !ValidModels(models)
    decreases |models| - n
  {
    if n < |models| {
      assert models[..n + 1][..n] == models[..n];
      InvalidPrefix(models, n + 1);
    } else {
      assert models[..n] == models;
    }
  }

  predicate ValidRoute(route: CliRoute) {
    route.validUrl && Trim(route.token) != "" && ValidModels(route.models)
  }

  function BaseValues(route: CliRoute): Env {
    map[BASE_URL_KEY := String(route.baseUrl), AUTH_TOKEN_KEY := String(route.token),
        ATTRIBUTION_HEADER_KEY := String(ATTRIBUTION_VALUE)]
  }

  lemma KeysDiffer()
    ensures forall f, g :: ModelEnv(f) != NameEnv(g)
    ensures forall f, g | f != g :: ModelEnv(f) != ModelEnv(g) && NameEnv(f) != NameEnv(g)
    ensures forall f :: ModelEnv(f) !in [BASE_URL_KEY, AUTH_TOKEN_KEY, ATTRIBUTION_HEADER_KEY]
    ensures forall f :: NameEnv(f) !in [BASE_URL_KEY, AUTH_TOKEN_KEY, ATTRIBUTION_HEADER_KEY]
  {
    assert |BASE_URL_KEY| == 18 && |AUTH_TOKEN_KEY| == 20 && |ATTRIBUTION_HEADER_KEY| == 30;
    assert |ModelEnv(Sonnet)| == 30 && |NameEnv(Sonnet)| == 35 && |ModelEnv(Opus)| == 28 && |NameEnv(Opus)| == 33;
    assert |ModelEnv(Haiku)| == 29 && |NameEnv(Haiku)| == 34;
    assert ModelEnv(Sonnet)[0] != ATTRIBUTION_HEADER_KEY[0];
  }

  lemma BaseSaysNothing(route: CliRoute)
    ensures forall f :: SaysNothing(BaseValues(route), f)
    ensures forall key | key in BaseValues(route) :: key in [BASE_URL_KEY, AUTH_TOKEN_KEY, ATTRIBUTION_HEADER_KEY]
  {
    KeysDiffer();
  }

  /** What the desired values say about one model. */
  ghost predicate SaysModel(values: Env, model: CliModel) {
    && Lookup(values, ModelEnv(model.family)) == Some(String(Trim(model.modelHash)))
    && Lookup(values, NameEnv(model.family)) ==
       if Trim(model.displayName) == "" then None else Some(String(Trim(model.displayName)))
  }

  ghost predicate SaysNothing(values: Env, family: Family) {
    ModelEnv(family) !in values && NameEnv(family) !in values
  }

  function WithModel(values: Env, model: CliModel): Env {
    var name := Trim(model.displayName);
    var named := values[ModelEnv(model.family) := String(Trim(model.modelHash))];
    if name == "" then named else named[NameEnv(model.family) := String(name)]
  }

  lemma WithModelSays(values: Env, model: CliModel)
    requires SaysNothing(values, model.family)
    ensures SaysModel(WithModel(values, model), model)
    ensures forall key | key != ModelEnv(model.family) && key != NameEnv(model.family) ::
              Lookup(WithModel(values, model), key) == Lookup(values, key)
    ensures WithModel(values, model).Keys <= values.Keys + {ModelEnv(model.family), NameEnv(model.family)}
  {
    KeysDiffer();
  }

  /** Managed keys only: URL, token and attribution header, each of `models`, and nothing for other families. */
  ghost predicate Covers(values: Env, route: CliRoute, models: seq<CliModel>) {
    && values.Keys <= MANAGED_ENV_KEYS
    && Lookup(values, "ANTHROPIC_BASE_URL") == Some(String(route.baseUrl))
    && Lookup(values, "ANTHROPIC_AUTH_TOKEN") == Some(String(route.token))
    && Lookup(values, "CLAUDE_CODE_ATTRIBUTION_HEADER") == Some(String("0"))
    && (forall i | 0 <= i < |models| :: SaysModel(values, models[i]))
    && forall f :: (forall i | 0 <= i < |models| :: models[i].family != f) ==> SaysNothing(values, f)
  }

  lemma CoversBase(route: CliRoute)
    ensures Covers(BaseValues(route), route, [])
  {
    BaseSaysNothing(route);
  }

  lemma ModelKeysManaged(f: Family)
    ensures ModelEnv(f) in MANAGED_ENV_KEYS && NameEnv(f) in MANAGED_ENV_KEYS
  {
  }

  lemma StillNothing(values: Env, model: CliModel, f: Family)
    requires SaysNothing(values, model.family) && SaysNothing(values, f) && f != model.family
    ensures SaysNothing(WithModel(values, model), f)
  {
    KeysDiffer();
  }

  lemma CoversMore(values: Env, route: CliRoute, models: seq<CliModel>, model: CliModel)
    requires Covers(values, route, models) && forall i | 0 <= i < |models| :: models[i].family != model.family
    ensures Covers(WithModel(values, model), route, models + [model])
  {
    var now := WithModel(values, model);
    assert SaysNothing(values, model.family);
    WithModelSays(values, model);
    ModelKeysManaged(model.family);
    BaseSaysNothing(route);
    KeysDiffer();
    forall f | forall i | 0 <= i < |models + [model]| :: (models + [model])[i].family != f
      ensures SaysNothing(now, f)
    {
      assert (models + [model])[|models|] == model;
      assert forall i | 0 <= i < |models| :: models[i] == (models + [model])[i];
      StillNothing(values, model, f);
    }
    forall i | 0 <= i < |models|
      ensures SaysModel(now, models[i])
    {
      assert SaysModel(values, models[i]);
    }
  }

  function ValuesFor(route: CliRoute, models: seq<CliModel>): Env {
    if models == [] then BaseValues(route)
    else WithModel(ValuesFor(route, models[..|models| - 1]), models[|models| - 1])
  }

  /** What the desired values of a valid route are. */
  lemma {:induction false} ValuesCover(route: CliRoute, models: seq<CliModel>)
    requires ValidModels(models)
    ensures Covers(ValuesFor(route, models), route, models)
  {
    if models == [] {
      CoversBase(route);
    } else {
      hide Covers, WithModel, BaseValues, Families;
      ValuesCover(route, models[..|models| - 1]);
      CoversLast(route, models[..|models| - 1], models[|models| - 1]);
      assert models == models[..|models| - 1] + [models[|models| - 1]];
    }
  }

  lemma CoversLast(route: CliRoute, init: seq<CliModel>, last: CliModel)
    requires Covers(ValuesFor(route, init), route, init) && last.family !in Families(init)
    ensures Covers(WithModel(ValuesFor(route, init), last), route, init + [last])
  {
    assert forall i | 0 <= i < |init| :: init[i].family != last.family by {
      FamiliesMeaning(init, last.family);
    }
    CoversMore(ValuesFor(route, init), route, init, last);
  }

  /** The values for a route; invalid routes are refused. */
  method DesiredValues(route: CliRoute) returns (desired: Option<Env>)
    ensures desired.Some? <==> ValidRoute(route)
    ensures desired.Some? ==> desired.value == ValuesFor(route, route.models)
  {
    desired := None;
    if !route.validUrl || Trim(route.token) == "" {
      return;
    }
    var values := BaseValues(route);
    var families: set<Family> := {};
    var i := 0;
    while i < |route.models|
      invariant 0 <= i <= |route.models|
      invariant ValidModels(route.models[..i]) && families == Families(route.models[..i])
      invariant values == ValuesFor(route, route.models[..i])
    {
      var model := route.models[i];
      assert route.models[..i + 1][..i] == route.models[..i];
      if model.family in families || Trim(model.modelHash) == "" {
        InvalidPrefix(route.models, i + 1);
        return;
      }
      families := families + {model.family};
      values := values[ModelEnv(model.family) := String(Trim(model.modelHash))];
      if Trim(model.displayName) != "" {
        values := values[NameEnv(model.family) := String(Trim(model.displayName))];
      }
      i := i + 1;
    }
    assert route.models[..i] == route.models;
    desired := Some(values);
  }

  // The receipt.

  /** What a key was before the takeover, and what was written. A `null` value is stored as no original. */
  datatype KeyRecord = KeyRecord(existed: bool, original: Option<Json>, applied: Json)

  datatype Receipt = Receipt(settingsPath: string, envCreated: bool, keys: map<string, KeyRecord>)

  function NewRecord(current: Option<Json>, applied: Json): KeyRecord {
    KeyRecord(current.Some?, if current == Some(Null) then None else current, applied)
  }

  /** The value a record restores; none removes the key. */
  function Original(record: KeyRecord): Option<Json> {
    if record.existed then Some(record.original.GetOr(Null)) else None
  }

  function With(env: Env, key: string, value: Option<Json>): Env {
    if value.Some? then env[key := value.value] else env - {key}
  }

  predicate Ours(env: Env, records: map<string, KeyRecord>, key: string) {
    key in records && Lookup(env, key) == Some(records[key].applied)
  }

  function UndoneValue(env: Env, records: map<string, KeyRecord>, key: string): Option<Json> {
    if Ours(env, records, key) then Original(records[key]) else Lookup(env, key)
  }

  /** All keys that still hold our value go back; all others stay. */
  function Undone(env: Env, records: map<string, KeyRecord>): Env {
    map key | key in env.Keys + records.Keys && UndoneValue(env, records, key).Some? :: UndoneValue(env, records, key).value
  }

  lemma UndoneAt(env: Env, records: map<string, KeyRecord>, key: string)
    ensures Lookup(Undone(env, records), key) == UndoneValue(env, records, key)
  {
  }

  /** Record by record, as both apply (for keys it no longer wants) and undo do it. */
  method RestoreOurs(env: Env, records: map<string, KeyRecord>) returns (now: Env)
    ensures now == Undone(env, records)
  {
    now := env;
    var rest := records.Keys;
    while rest != {}
      invariant rest <= records.Keys
      invariant forall key :: Lookup(now, key) == if key in rest then Lookup(env, key) else UndoneValue(env, records, key)
      decreases |rest|
    {
      var key :| key in rest;
      if Lookup(now, key) == Some(records[key].applied) {
        now := With(now, key, Original(records[key]));
      }
      rest := rest - {key};
    }
    forall key
      ensures Lookup(now, key) == Lookup(Undone(env, records), key)
    {
      UndoneAt(env, records, key);
    }
    SameLookups(now, Undone(env, records));
  }

  // Conflicts: every one of them blocks apply.

  function LowerCase(c: char): char {
    if 'A' <= c <= 'Z' then (c as int + 32) as char else c
  }

  function Lowered(text: string): string {
    seq(|text|, i requires 0 <= i < |text| => LowerCase(text[i]))
  }

  predicate FeatureEnabled(value: Json) {
    match value
    case Bool(flag) => flag
    case String(text) => Trim(text) != "" && Trim(text) != "0" && Lowered(Trim(text)) != "false"
    case Null => false
    case Number(amount) => amount != 0.0
    case _ => true
  }

  datatype Conflict = ApiKeyHelper | EnvType | ForeignValue(key: string) | UserModified(key: string)

  predicate HelperSet(fields: map<string, Json>) {
    var helper := Object(fields).GetString(API_KEY_HELPER_KEY);
    helper.Some? && Trim(helper.value) != ""
  }

  const GUARDED_KEYS := [BASE_URL_KEY, API_KEY_KEY, BEDROCK_KEY, VERTEX_KEY, FOUNDRY_KEY]

  /** A value that is neither ours nor wanted and would get in the way. */
  predicate Foreign(env: Env, owned: map<string, KeyRecord>, desired: Env, key: string) {
    && key in env && key !in owned && Lookup(desired, key) != Some(env[key])
    && (if key == BASE_URL_KEY then true
        else if key == API_KEY_KEY then !(env[key].String? && Trim(env[key].text) == "")
        else FeatureEnabled(env[key]))
  }

  /** An owned key that was changed, and not to the very string being written. */
  predicate ChangedByUser(env: Env, owned: map<string, KeyRecord>, desired: Env, key: string) {
    && key in owned && Lookup(env, key) != Some(owned[key].applied)
    && !(key in env && env[key].String? && Lookup(desired, key) == Some(env[key]))
  }

  ghost predicate Reported(fields: map<string, Json>, owned: map<string, KeyRecord>, desired: Env, conflict: Conflict) {
    match conflict
    case ApiKeyHelper => HelperSet(fields)
    case EnvType => ENV_KEY in fields && !fields[ENV_KEY].Object?
    case ForeignValue(key) =>
      ENV_KEY in fields && fields[ENV_KEY].Object? && key in GUARDED_KEYS && Foreign(fields[ENV_KEY].fields, owned, desired, key)
    case UserModified(key) =>
      ENV_KEY in fields && fields[ENV_KEY].Object? && ChangedByUser(fields[ENV_KEY].fields, owned, desired, key)
  }

  /** The loop over the guarded keys. */
  method ForeignValues(env: Env, owned: map<string, KeyRecord>, desired: Env) returns (conflicts: seq<Conflict>)
    ensures forall c :: c in conflicts <==> c.ForeignValue? && c.key in GUARDED_KEYS && Foreign(env, owned, desired, c.key)
  {
    conflicts := [];
    var i := 0;
    while i < |GUARDED_KEYS|
      invariant 0 <= i <= |GUARDED_KEYS|
      invariant forall c :: c in conflicts <==> c.ForeignValue? && c.key in GUARDED_KEYS[..i] && Foreign(env, owned, desired, c.key)
    {
      var key := GUARDED_KEYS[i];
      assert GUARDED_KEYS[..i + 1] == GUARDED_KEYS[..i] + [key];
      if Foreign(env, owned, desired, key) {
        conflicts := conflicts + [ForeignValue(key)];
      }
      i := i + 1;
    }
    assert GUARDED_KEYS[..i] == GUARDED_KEYS;
  }

  /** The loop over the receipt. */
  method ChangedValues(env: Env, owned: map<string, KeyRecord>, desired: Env) returns (conflicts: seq<Conflict>)
    ensures forall c :: c in conflicts <==> c.UserModified? && ChangedByUser(env, owned, desired, c.key)
  {
    conflicts := [];
    var rest := owned.Keys;
    while rest != {}
      invariant rest <= owned.Keys
      invariant forall c :: c in conflicts <==> c.UserModified? && c.key !in rest && ChangedByUser(env, owned, desired, c.key)
      decreases |rest|
    {
      var key :| key in rest;
      if ChangedByUser(env, owned, desired, key) {
        conflicts := conflicts + [UserModified(key)];
      }
      rest := rest - {key};
    }
  }

  /** The conflicts found are exactly those that hold. */
  method SettingsConflicts(fields: map<string, Json>, owned: map<string, KeyRecord>, desired: Env) returns (conflicts: seq<Conflict>)
    ensures forall c :: c in conflicts <==> Reported(fields, owned, desired, c)
  {
    conflicts := [];
    if HelperSet(fields) {
      conflicts := [ApiKeyHelper];
    }
    if ENV_KEY !in fields {
      return;
    }
    if !fields[ENV_KEY].Object? {
      conflicts := conflicts + [EnvType];
      return;
    }
    var env := fields[ENV_KEY].fields;
    var foreign := ForeignValues(env, owned, desired);
    var changed := ChangedValues(env, owned, desired);
    conflicts := conflicts + foreign + changed;
  }

  ghost predicate Free(fields: map<string, Json>, owned: map<string, KeyRecord>, desired: Env) {
    forall c :: !Reported(fields, owned, desired, c)
  }

  // Apply and undo.

  datatype Cli = Cli(path: string, installed: bool, managed: bool, settings: File, receipt: Option<Receipt>)

  function EnvOf(fields: map<string, Json>): Option<Env> {
    if ENV_KEY in fields && fields[ENV_KEY].Object? then Some(fields[ENV_KEY].fields) else None
  }

  function Owned(receipt: Option<Receipt>): map<string, KeyRecord> {
    if receipt.Some? then receipt.value.keys else map[]
  }

  function Orphans(owned: map<string, KeyRecord>, desired: Env): map<string, KeyRecord> {
    map key | key in owned && key !in desired :: owned[key]
  }

  function AppliedEnv(env: Option<Env>, owned: map<string, KeyRecord>, desired: Env): Env {
    Undone(env.GetOr(map[]), Orphans(owned, desired)) + desired
  }

  /** Kept records take the new value; new ones are taken from the document as it was before any change. */
  function Records(env: Option<Env>, owned: map<string, KeyRecord>, desired: Env): map<string, KeyRecord> {
    map key | key in desired ::
      if key in owned then owned[key].(applied := desired[key])
      else NewRecord(Lookup(env.GetOr(map[]), key), desired[key])
  }

  ghost predicate CanApply(s: Cli, desired: Env) {
    && s.installed && !s.managed
    && DocumentOf(s.settings).Some?
    && (s.receipt.Some? ==> s.receipt.value.settingsPath == s.path)
    && Free(DocumentOf(s.settings).value, Owned(s.receipt), desired)
  }

  function AppliedReceipt(s: Cli, fields: map<string, Json>, desired: Env): Receipt {
    Receipt(s.path, if s.receipt.Some? then s.receipt.value.envCreated else EnvOf(fields).None?,
            Records(EnvOf(fields), Owned(s.receipt), desired))
  }

  function AppliedFields(s: Cli, fields: map<string, Json>, desired: Env): map<string, Json> {
    fields[ENV_KEY := Object(AppliedEnv(EnvOf(fields), Owned(s.receipt), desired))]
  }

  /** A key owned before keeps its original; the others record what they find. */
  method NewRecords(originalEnv: Option<Env>, owned: map<string, KeyRecord>, desired: Env) returns (records: map<string, KeyRecord>)
    ensures records == Records(originalEnv, owned, desired)
  {
    records := map[];
    var rest := desired.Keys;
    while rest != {}
      invariant rest <= desired.Keys
      invariant records == map key | key in desired && key !in rest :: Records(originalEnv, owned, desired)[key]
      decreases |rest|
    {
      var key :| key in rest;
      if key in owned {
        records := records[key := owned[key].(applied := desired[key])];
      } else {
        records := records[key := NewRecord(Lookup(originalEnv.GetOr(map[]), key), desired[key])];
      }
      rest := rest - {key};
    }
    assert records == Records(originalEnv, owned, desired);
  }

  /** The state after a successful apply: receipt first, then the settings. */
  function Applied(s: Cli, desired: Env): Cli
    requires DocumentOf(s.settings).Some?
  {
    var fields := DocumentOf(s.settings).value;
    s.(settings := Parsed(Object(AppliedFields(s, fields, desired))), receipt := Some(AppliedReceipt(s, fields, desired)))
  }

  /** The document after undo. */
  function UndoneFields(fields: map<string, Json>, receipt: Receipt): map<string, Json> {
    match EnvOf(fields)
    case None => fields
    case Some(env) =>
      var restored := Undone(env, receipt.keys);
      if receipt.envCreated && restored == map[] then fields - {ENV_KEY} else fields[ENV_KEY := Object(restored)]
  }

  predicate CanUndo(s: Cli) {
    s.receipt.Some? ==> s.receipt.value.settingsPath == s.path && DocumentOf(s.settings).Some?
  }

  function UndoneState(s: Cli): Cli
    requires CanUndo(s)
  {
    if s.receipt.None? then s
    else if s.settings.Missing? then s.(receipt := None)
    else s.(settings := Parsed(Object(UndoneFields(DocumentOf(s.settings).value, s.receipt.value))), receipt := None)
  }

  /** The settings file, the receipt file and the probes. */
  class CliHome {
    const path: string
    var installed: bool
    var managed: bool
    var settings: File
    var receipt: Option<Receipt>

    ghost function State(): Cli
      reads this
    {
      Cli(path, installed, managed, settings, receipt)
    }

    constructor (s: Cli)
      ensures State() == s
    {
      path, installed, managed, settings, receipt := s.path, s.installed, s.managed, s.settings, s.receipt;
    }

    /** Receipt first, then the settings. */
    method Apply(desired: Env) returns (ok: bool)
      modifies this`settings, this`receipt
      ensures ok <==> CanApply(old(State()), desired)
      ensures State() == if ok then Applied(old(State()), desired) else old(State())
    {
      ok := false;
      if !installed {
        return;
      }
      var document := DocumentOf(settings);
      if document.None? {
        return;
      }
      var fields := document.value;
      if receipt.Some? && receipt.value.settingsPath != path {
        return;
      }
      var owned := Owned(receipt);
      var conflicts := SettingsConflicts(fields, owned, desired);
      if managed || conflicts != [] {
        assert conflicts != [] ==> Reported(fields, owned, desired, conflicts[0]);
        return;
      }
      assert !Reported(fields, owned, desired, EnvType);
      var originalEnv := EnvOf(fields);
      var env := RestoreOurs(originalEnv.GetOr(map[]), Orphans(owned, desired));
      var records := NewRecords(originalEnv, owned, desired);
      env := env + desired;
      receipt := Some(Receipt(path, if receipt.Some? then receipt.value.envCreated else originalEnv.None?, records));
      settings := Parsed(Object(fields[ENV_KEY := Object(env)]));
      ok := true;
    }

    method Undo() returns (ok: bool)
      modifies this`settings, this`receipt
      ensures ok <==> CanUndo(old(State()))
      ensures State() == if ok then UndoneState(old(State())) else old(State())
    {
      ok := true;
      if receipt.None? {
        return;
      }
      var r := receipt.value;
      if r.settingsPath != path {
        return false;
      }
      if settings.Missing? {
        receipt := None;
        return;
      }
      var document := DocumentOf(settings);
      if document.None? {
        return false;
      }
      var fields := document.value;
      var env := EnvOf(fields);
      if env.Some? {
        var restored := RestoreOurs(env.value, r.keys);
        fields := if r.envCreated && restored == map[] then fields - {ENV_KEY} else fields[ENV_KEY := Object(restored)];
      }
      settings := Parsed(Object(fields));
      receipt := None;
    }
  }

  // Status.

  datatype Gateway = Gateway(desired: Env, available: bool)

  datatype TakeoverState = NotInstalled | Ready | InPlace | Stale | Conflicting | Managed

  /** The document holds every value of the receipt. */
  predicate IsApplied(s: Cli) {
    && s.receipt.Some? && s.receipt.value.settingsPath == s.path
    && s.settings.Parsed?
    && forall key | key in s.receipt.value.keys ::
         s.settings.document.Object? && Lookup(EnvOf(s.settings.document.fields).GetOr(map[]), key) == Some(s.receipt.value.keys[key].applied)
  }

  /** Records and desired values match one to one. */
  predicate ReceiptMatches(keys: map<string, KeyRecord>, desired: Env) {
    && (forall key | key in keys :: Lookup(desired, key) == Some(keys[key].applied))
    && (forall key | key in desired :: key in keys)
  }

  predicate IsStale(s: Cli, gateway: Option<Gateway>) {
    && IsApplied(s) && gateway.Some?
    && (!gateway.value.available || !ReceiptMatches(s.receipt.value.keys, gateway.value.desired))
  }

  ghost function Inspect(s: Cli, gateway: Option<Gateway>): TakeoverState {
    if s.managed then Managed
    else if s.receipt.Some? then
      if !IsApplied(s) then Conflicting else if IsStale(s, gateway) then Stale else InPlace
    else if !s.installed then NotInstalled
    else if s.settings.Unparsable? || (s.settings.Parsed? && !s.settings.document.Object?) then Conflicting
    else if s.settings.Parsed? && !Free(s.settings.document.fields, map[], if gateway.Some? then gateway.value.desired else map[]) then Conflicting
    else Ready
  }
}
