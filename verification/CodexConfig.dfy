/**
 Takeover of Codex's `config.toml`: routing fields, owned fields, the restore receipt and
 the journal of the local-mode guard.
 */
module CodexConfig {
  import opened Wrappers
  import opened Strings

  /** A field value; only strings are looked into. */
  datatype Toml = Str(text: string) | Raw(raw: string)

  type Table = map<string, Toml>

  /** `model_providers` and `desktop` are kept apart; an absent and an empty `desktop` table are one. */
  datatype Doc = Doc(top: Table, providers: Option<map<string, Table>>, desktop: Table)

  const EMPTY := Doc(map[], None, map[])

  const PROVIDER := "haxsd-byok"
  const PROVIDER_KEY := "model_providers.haxsd-byok"
  const MODEL_KEY := "model"
  const MODEL_PROVIDER_KEY := "model_provider"
  const CATALOG_KEY := "model_catalog_json"
  const WEB_SEARCH_KEY := "web_search"
  const LEGACY_GLOBAL_LIMITS := ["model_context_window", "model_auto_compact_token_limit"]
  const OWNED_KEYS := [MODEL_KEY, MODEL_PROVIDER_KEY, CATALOG_KEY, "model_context_window", "model_auto_compact_token_limit", WEB_SEARCH_KEY]
  const DETAIL_MODE := "conversationDetailMode"
  const DETAIL_PROSE := "STEPS_PROSE"
  const DETAIL_LOCAL := "STEPS_COMMANDS"

  datatype Receipt = Receipt(original: Option<Doc>, applied: Doc)

  /** The guard's journal; the default stands for a missing file. */
  datatype ClientMode = ClientMode(active: bool, original: Option<string>, rememberedProse: bool)
  {
    predicate Persist() {
      active || rememberedProse
    }

    /** The mode to go back to (none removes the field), if there is one. */
    function RestoreTarget(): Option<Option<string>> {
      if active then Some(original)
      else if rememberedProse then Some(Some(DETAIL_PROSE))
      else None
    }
  }

  const NO_MODE := ClientMode(false, None, false)

  datatype ConfigRoute = ConfigRoute(model: string, baseUrl: string, validUrl: bool, token: string, catalogPath: string)

  datatype Home = Home(config: Option<Doc>, receipt: Option<Receipt>, marker: ClientMode)

  /** The slugs in a published catalog file. */
  type Catalog = string -> seq<string>

  function Text(value: Option<Toml>): Option<string> {
    if value.Some? && value.value.Str? then Some(value.value.text) else None
  }

  function ProviderOf(doc: Doc): Option<Table> {
    if doc.providers.Some? && PROVIDER in doc.providers.value then Some(doc.providers.value[PROVIDER]) else None
  }

  predicate RouteMatches(doc: Doc, reference: Doc) {
    && Lookup(doc.top, MODEL_PROVIDER_KEY) == Lookup(reference.top, MODEL_PROVIDER_KEY)
    && Lookup(doc.top, CATALOG_KEY) == Lookup(reference.top, CATALOG_KEY)
    && ProviderOf(doc) == ProviderOf(reference)
  }

  predicate ModelRoutes(doc: Doc, published: Doc, catalog: Catalog) {
    var slug := Trim(Text(Lookup(doc.top, MODEL_KEY)).GetOr(""));
    && slug != ""
    && (|| (Text(Lookup(published.top, MODEL_KEY)).Some? && Trim(Text(Lookup(published.top, MODEL_KEY)).value) == slug)
        || (Text(Lookup(published.top, CATALOG_KEY)).Some? && slug in catalog(Text(Lookup(published.top, CATALOG_KEY)).value)))
  }

  predicate External(doc: Doc) {
    || (Text(Lookup(doc.top, MODEL_PROVIDER_KEY)).Some? && Text(Lookup(doc.top, MODEL_PROVIDER_KEY)).value != "openai")
    || "openai_base_url" in doc.top
    || "profile" in doc.top
    || ProviderOf(doc).Some?
  }

  // Owned fields.

  function With(table: Table, key: string, value: Option<Toml>): Table {
    if value.Some? then table[key := value.value] else table - {key}
  }

  /** `top` with every owned key as in `reference`. */
  function RestoredTop(top: Table, reference: Table): Table {
    map key | key in top.Keys + reference.Keys && (if key in OWNED_KEYS then key in reference else key in top) ::
      if key in OWNED_KEYS then reference[key] else top[key]
  }

  /** Our provider entry as in `reference`; without a provider table in the document nothing is added. */
  function RestoredProviders(doc: Doc, reference: Doc): Option<map<string, Table>> {
    if doc.providers.None? then None
    else
      var providers := match ProviderOf(reference)
                       case Some(entry) => doc.providers.value[PROVIDER := entry]
                       case None => doc.providers.value - {PROVIDER};
      if reference.providers.None? && providers == map[] then None else Some(providers)
  }

  function RestoredOwned(doc: Doc, reference: Doc): Doc {
    Doc(RestoredTop(doc.top, reference.top), RestoredProviders(doc, reference), doc.desktop)
  }

  method RestoreOwned(doc: Doc, reference: Doc) returns (now: Doc)
    ensures now == RestoredOwned(doc, reference)
  {
    var top := doc.top;
    var i := 0;
    while i < |OWNED_KEYS|
      invariant 0 <= i <= |OWNED_KEYS|
      invariant forall key :: Lookup(top, key) == if key in OWNED_KEYS[..i] then Lookup(reference.top, key) else Lookup(doc.top, key)
    {
      var key := OWNED_KEYS[i];
      assert OWNED_KEYS[..i + 1] == OWNED_KEYS[..i] + [key];
      top := With(top, key, Lookup(reference.top, key));
      i := i + 1;
    }
    assert OWNED_KEYS[..i] == OWNED_KEYS;
    RestoredTopAt(top, doc.top, reference.top);
    var providers := doc.providers;
    if providers.Some? {
      var entry := ProviderOf(reference);
      if entry.Some? {
        providers := Some(providers.value[PROVIDER := entry.value]);
      } else {
        providers := Some(providers.value - {PROVIDER});
      }
      if reference.providers.None? && providers.value == map[] {
        providers := None;
      }
    }
    now := Doc(top, providers, doc.desktop);
  }

  lemma RestoredTopAt(now: Table, top: Table, reference: Table)
    requires forall key :: Lookup(now, key) == if key in OWNED_KEYS then Lookup(reference, key) else Lookup(top, key)
    ensures now == RestoredTop(top, reference)
  {
    var r := RestoredTop(top, reference);
    forall key
      ensures (key in now <==> key in r) && (key in now ==> now[key] == r[key])
    {
      assert Lookup(now, key) == if key in OWNED_KEYS then Lookup(reference, key) else Lookup(top, key);
    }
  }

  function Document(config: Option<Doc>): Doc {
    config.GetOr(EMPTY)
  }

  // Status.

  predicate IsApplied(h: Home, catalog: Catalog) {
    && h.receipt.Some?
    && RouteMatches(Document(h.config), h.receipt.value.applied)
    && ModelRoutes(Document(h.config), h.receipt.value.applied, catalog)
  }

  datatype Status = Status(applied: bool, restorable: bool, conflict: bool, conflicts: seq<string>)

  /** Our route is neither in place nor put back; without a receipt, somebody else's route. */
  predicate InConflict(h: Home, catalog: Catalog) {
    if h.receipt.None? then External(Document(h.config))
    else !IsApplied(h, catalog) && !RouteMatches(Document(h.config), Document(h.receipt.value.original))
  }

  predicate Differs(doc: Doc, published: Doc, key: string) {
    if key == PROVIDER_KEY then ProviderOf(doc) != ProviderOf(published) else Lookup(doc.top, key) != Lookup(published.top, key)
  }

  method FieldConflicts(doc: Doc, published: Doc) returns (keys: seq<string>)
    ensures forall key :: key in keys <==> key in OWNED_KEYS + [PROVIDER_KEY] && Differs(doc, published, key)
  {
    hide Differs;
    keys := [];
    var all := OWNED_KEYS + [PROVIDER_KEY];
    var i := 0;
    while i < |all|
      invariant 0 <= i <= |all|
      invariant forall key :: key in keys <==> key in all[..i] && Differs(doc, published, key)
    {
      assert all[..i + 1] == all[..i] + [all[i]];
      if Differs(doc, published, all[i]) {
        keys := keys + [all[i]];
      }
      i := i + 1;
    }
    assert all[..i] == all;
  }

  // The local-mode guard.

  function DetailOf(doc: Doc): Option<string> {
    Text(Lookup(doc.desktop, DETAIL_MODE))
  }

  /** The document with this detail mode; nothing changes when it already is. */
  function WithDetail(doc: Doc, target: Option<string>): Doc {
    if DetailOf(doc) == target then doc
    else doc.(desktop := With(doc.desktop, DETAIL_MODE, if target.Some? then Some(Str(target.value)) else None))
  }

  function DetailWritten(config: Option<Doc>, target: Option<string>): Option<Doc> {
    if config.None? then None else Some(WithDetail(config.value, target))
  }

  /** What one guard tick does to detail mode and journal. */
  function Guarded(detail: Option<string>, marker: ClientMode, applied: bool, signedIn: bool): (Option<string>, ClientMode) {
    var target := marker.RestoreTarget();
    if !applied then
      if target.None? then (detail, marker) else (target.value, NO_MODE)
    else if signedIn then
      if target.None? then (detail, marker)
      else if detail != Some(DETAIL_LOCAL) then (detail, NO_MODE)
      else (target.value, NO_MODE)
    else if detail == Some(DETAIL_PROSE) then
      (Some(DETAIL_LOCAL), if marker.active then marker else ClientMode(true, Some(DETAIL_PROSE), false))
    else if marker.Persist() && detail != Some(DETAIL_LOCAL) then (detail, NO_MODE)
    else (detail, marker)
  }

  function Ticked(h: Home, signedIn: bool, catalog: Catalog): Home {
    var (detail, marker) := Guarded(DetailOf(Document(h.config)), h.marker, IsApplied(h, catalog), signedIn);
    h.(config := DetailWritten(h.config, detail), marker := marker)
  }

  // Catalog and legacy limits.

  function WithoutLimits(doc: Doc): Doc {
    doc.(top := doc.top - (set key | key in LEGACY_GLOBAL_LIMITS))
  }

  predicate CanDrop(h: Home) {
    h.receipt.Some? && h.config.Some? ==> RouteMatches(h.config.value, h.receipt.value.applied)
  }

  function DropReceipt(h: Home): Home {
    if h.receipt.None? || h.config.None? then h
    else h.(receipt := Some(h.receipt.value.(applied := WithoutLimits(h.receipt.value.applied))))
  }

  function Dropped(h: Home): Home {
    if h.receipt.None? || h.config.None? then h else DropReceipt(h).(config := Some(WithoutLimits(h.config.value)))
  }

  function WithPointer(doc: Doc, pointer: string): Doc {
    doc.(top := doc.top[CATALOG_KEY := Str(pointer)])
  }

  function RepublishReceipt(h: Home, pointer: string): Home {
    if h.receipt.None? then h else h.(receipt := Some(h.receipt.value.(applied := WithPointer(h.receipt.value.applied, pointer))))
  }

  function Republished(h: Home, pointer: string): Home {
    if h.receipt.None? then h else RepublishReceipt(h, pointer).(config := Some(WithPointer(Document(h.config), pointer)))
  }

  // Apply.

  function OurProvider(route: ConfigRoute): Table {
    map["name" := Str("haxsd byok"), "base_url" := Str(route.baseUrl), "wire_api" := Str("responses"),
        "requires_openai_auth" := Raw("false"), "supports_websockets" := Raw("false"),
        "experimental_bearer_token" := Str(route.token), "capabilities.remote_compaction" := Str("unsupported")]
  }

  /** The document as published for a route. */
  function Published(doc: Doc, route: ConfigRoute): Doc {
    var top := doc.top[MODEL_KEY := Str(route.model)][WEB_SEARCH_KEY := Str("disabled")]
                      [MODEL_PROVIDER_KEY := Str(PROVIDER)][CATALOG_KEY := Str(route.catalogPath)];
    var providers := doc.providers.GetOr(map[]);
    var entry := (if PROVIDER in providers then providers[PROVIDER] else map[]) + OurProvider(route);
    WithoutLimits(Doc(top, Some(providers[PROVIDER := entry]), doc.desktop))
  }

  predicate ValidRoute(route: ConfigRoute) {
    route.validUrl && route.token != "" && route.model != ""
  }

  /** The published route is this one. */
  predicate SameRoute(doc: Doc, route: ConfigRoute) {
    var entry := ProviderOf(doc).GetOr(map[]);
    && Text(Lookup(entry, "base_url")) == Some(route.baseUrl)
    && Text(Lookup(doc.top, MODEL_KEY)) == Some(route.model)
    && Text(Lookup(doc.top, CATALOG_KEY)) == Some(route.catalogPath)
    && Text(Lookup(entry, "experimental_bearer_token")) == Some(route.token)
  }

  function Rebased(current: Doc, previous: Option<Doc>): Doc {
    RestoredOwned(current, Document(previous))
  }

  /** The route was put back by hand: the old receipt gives way to a new one with the same owned originals. */
  predicate Reverted(h: Home, catalog: Catalog) {
    h.receipt.Some? && !IsApplied(h, catalog) && RouteMatches(Document(h.config), Document(h.receipt.value.original))
  }

  /** The receipt of a new takeover, the first of the two writes of apply. */
  function ApplyReceipt(h: Home, route: ConfigRoute): Home {
    var original := if h.receipt.Some? && h.config.Some? then Some(Rebased(h.config.value, h.receipt.value.original)) else h.config;
    h.(receipt := Some(Receipt(original, Published(Document(h.config), route))))
  }

  function ApplyConfig(h: Home, route: ConfigRoute): Home {
    ApplyReceipt(h, route).(config := Some(Published(Document(h.config), route)))
  }

  /** State and success of an apply. A refused one after a manual revert has already dropped the receipt. */
  function Applied(h: Home, route: ConfigRoute, signedIn: bool, catalog: Catalog): (Home, bool) {
    if !ValidRoute(route) then (h, false)
    else if IsApplied(h, catalog) then
      if SameRoute(Document(h.config), route) then (Dropped(h), true) else (h, false)
    else if h.receipt.Some? && !Reverted(h, catalog) then (h, false)
    else if External(Document(h.config)) then (h.(receipt := None), false)
    else (Ticked(ApplyConfig(h, route), signedIn, catalog), true)
  }

  // Restore.

  function Unowned(h: Home): Option<Doc>
    requires h.receipt.Some?
  {
    var r := h.receipt.value;
    if h.config == Some(r.applied) then r.original
    else Some(RestoredOwned(Document(h.config), Document(r.original)))
  }

  function Orphaned(h: Home): Home {
    match h.marker.RestoreTarget()
    case None => h
    case Some(target) => h.(config := DetailWritten(h.config, target), marker := NO_MODE)
  }

  function Restored(h: Home): Home {
    if h.receipt.None? then Orphaned(h)
    else Home(DetailWritten(Unowned(h), DetailOf(Document(h.receipt.value.original))), None, NO_MODE)
  }

  /** The files in Codex's home directory, written in the order the program writes them. */
  class CodexHome {
    const catalog: Catalog
    var config: Option<Doc>
    var receipt: Option<Receipt>
    var marker: ClientMode

    ghost function State(): Home
      reads this
    {
      Home(config, receipt, marker)
    }

    constructor (s: Home, catalog: Catalog)
      ensures State() == s && this.catalog == catalog
    {
      this.catalog := catalog;
      config, receipt, marker := s.config, s.receipt, s.marker;
    }

    /** Applied, restorable, in conflict, and which owned fields differ from the published ones. */
    method Inspect() returns (status: Status)
      ensures status.applied == IsApplied(State(), catalog) && status.restorable == receipt.Some?
      ensures status.conflict == InConflict(State(), catalog)
      ensures forall key :: key in status.conflicts <==>
                receipt.Some? && key in OWNED_KEYS + [PROVIDER_KEY] && Differs(Document(config), receipt.value.applied, key)
    {
      var doc := Document(config);
      if receipt.None? {
        return Status(false, false, External(doc), []);
      }
      var published := receipt.value.applied;
      var applied := RouteMatches(doc, published) && ModelRoutes(doc, published, catalog);
      var conflicts := FieldConflicts(doc, published);
      status := Status(applied, true, !applied && !RouteMatches(doc, Document(receipt.value.original)), conflicts);
    }

    method WriteDetailTarget(target: Option<string>)
      modifies this`config
      ensures config == DetailWritten(old(config), target)
    {
      if config.None? || DetailOf(config.value) == target {
        return;
      }
      var value := if target.Some? then Some(Str(target.value)) else None;
      config := Some(config.value.(desktop := With(config.value.desktop, DETAIL_MODE, value)));
    }

    method RestoreOrphanClientMode()
      modifies this`config, this`marker
      ensures State() == Orphaned(old(State()))
    {
      var target := marker.RestoreTarget();
      if target.None? {
        return;
      }
      WriteDetailTarget(target.value);
      marker := NO_MODE;
    }

    method EnsureLocalMode(signedIn: bool)
      modifies this`config, this`marker
      ensures State() == Ticked(old(State()), signedIn, catalog)
    {
      var status := Inspect();
      if !status.applied {
        RestoreOrphanClientMode();
        return;
      }
      if config.None? {
        return;
      }
      var current := DetailOf(config.value);
      if signedIn {
        var target := marker.RestoreTarget();
        if target.None? {
          return;
        }
        if current != Some(DETAIL_LOCAL) || current == target.value {
          marker := NO_MODE;
          return;
        }
        WriteDetailTarget(target.value);
        marker := NO_MODE;
        return;
      }
      if current == Some(DETAIL_PROSE) {
        if !marker.active {
          marker := ClientMode(true, Some(DETAIL_PROSE), false);
        }
        WriteDetailTarget(Some(DETAIL_LOCAL));
        return;
      }
      if marker.Persist() && current != Some(DETAIL_LOCAL) {
        marker := NO_MODE;
      }
    }

    method DropGlobalLimits() returns (ok: bool)
      modifies this`config, this`receipt
      ensures ok == CanDrop(old(State()))
      ensures State() == if ok then Dropped(old(State())) else old(State())
    {
      ok := true;
      if receipt.None? || config.None? {
        return;
      }
      var doc, applied := config.value, receipt.value.applied;
      if !RouteMatches(doc, applied) {
        return false;
      }
      var i := 0;
      while i < |LEGACY_GLOBAL_LIMITS|
        invariant 0 <= i <= |LEGACY_GLOBAL_LIMITS|
        invariant doc == config.value.(top := config.value.top - (set key | key in LEGACY_GLOBAL_LIMITS[..i]))
        invariant applied == receipt.value.applied.(top := receipt.value.applied.top - (set key | key in LEGACY_GLOBAL_LIMITS[..i]))
      {
        assert LEGACY_GLOBAL_LIMITS[..i + 1] == LEGACY_GLOBAL_LIMITS[..i] + [LEGACY_GLOBAL_LIMITS[i]];
        doc := doc.(top := doc.top - {LEGACY_GLOBAL_LIMITS[i]});
        applied := applied.(top := applied.top - {LEGACY_GLOBAL_LIMITS[i]});
        i := i + 1;
      }
      assert LEGACY_GLOBAL_LIMITS[..i] == LEGACY_GLOBAL_LIMITS;
      receipt := Some(receipt.value.(applied := applied));
      config := Some(doc);
    }

    method RepublishCatalog(pointer: string) returns (ok: bool)
      modifies this`config, this`receipt
      ensures ok == old(receipt).Some?
      ensures State() == Republished(old(State()), pointer)
    {
      ok := receipt.Some?;
      if ok {
        var doc := Document(config);
        receipt := Some(receipt.value.(applied := WithPointer(receipt.value.applied, pointer)));
        config := Some(WithPointer(doc, pointer));
      }
    }

    method Apply(route: ConfigRoute, signedIn: bool) returns (ok: bool)
      modifies this
      ensures (State(), ok) == Applied(old(State()), route, signedIn, catalog)
    {
      ok := false;
      if !ValidRoute(route) {
        return;
      }
      var original := config;
      var doc := Document(config);
      var rebased: Option<Doc> := None;
      if receipt.Some? {
        var status := Inspect();
        if status.applied {
          if SameRoute(doc, route) {
            ok := DropGlobalLimits();
          }
          return;
        }
        if !RouteMatches(doc, Document(receipt.value.original)) {
          return;
        }
        if config.Some? {
          var r := RestoreOwned(config.value, Document(receipt.value.original));
          rebased := Some(r);
        }
        receipt := None;
      }
      if External(doc) {
        return;
      }
      var published := Published(doc, route);
      receipt := Some(Receipt(if rebased.Some? then rebased else original, published));
      config := Some(published);
      EnsureLocalMode(signedIn);
      ok := true;
    }

    method Restore()
      modifies this
      ensures State() == Restored(old(State()))
    {
      if receipt.None? {
        RestoreOrphanClientMode();
        return;
      }
      var current, original := config, Document(receipt.value.original);
      if current == Some(receipt.value.applied) {
        config := receipt.value.original;
      } else {
        var doc := RestoreOwned(Document(current), original);
        config := Some(doc);
      }
      WriteDetailTarget(DetailOf(original));
      marker := NO_MODE;
      receipt := None;
    }
  }
}
