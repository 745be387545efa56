/** What a Codex takeover publishes, when it is accepted, and what keeps it in place. */
module CodexOutcome {
  import opened Wrappers
  import opened Strings
  import opened CodexConfig
  import opened CodexTakeover
  import opened CodexGuard
  import opened CodexMode

  lemma TopKeysDiffer()
    ensures MODEL_KEY != MODEL_PROVIDER_KEY && MODEL_KEY != CATALOG_KEY && MODEL_KEY != WEB_SEARCH_KEY
    ensures MODEL_PROVIDER_KEY != CATALOG_KEY && MODEL_PROVIDER_KEY != WEB_SEARCH_KEY && CATALOG_KEY != WEB_SEARCH_KEY
    ensures forall key | key in LEGACY_GLOBAL_LIMITS :: |key| > 18
    ensures "model_context_window" in LEGACY_GLOBAL_LIMITS && "model_auto_compact_token_limit" in LEGACY_GLOBAL_LIMITS
  {
    assert |MODEL_KEY| == 5 && |WEB_SEARCH_KEY| == 10 && |MODEL_PROVIDER_KEY| == 14 && |CATALOG_KEY| == 18;
    assert |LEGACY_GLOBAL_LIMITS[0]| == 20 && |LEGACY_GLOBAL_LIMITS[1]| == 30;
  }

  lemma LimitsAt(doc: Doc, key: string)
    ensures Lookup(WithoutLimits(doc).top, key) == if key in LEGACY_GLOBAL_LIMITS then None else Lookup(doc.top, key)
  {
  }

  lemma FourAt<K, V>(entries: map<K, V>, a: K, w: V, b: K, x: V, c: K, y: V, d: K, z: V, key: K)
    requires a != b && a != c && a != d && b != c && b != d && c != d
    ensures Lookup(entries[a := w][b := x][c := y][d := z], key) ==
            if key == a then Some(w) else if key == b then Some(x) else if key == c then Some(y) else if key == d then Some(z)
            else Lookup(entries, key)
  {
  }

  lemma TopAt(doc: Doc, route: ConfigRoute, key: string)
    ensures Lookup(Published(doc, route).top, key) ==
            if key in LEGACY_GLOBAL_LIMITS then None
            else if key == MODEL_KEY then Some(Str(route.model))
            else if key == WEB_SEARCH_KEY then Some(Str("disabled"))
            else if key == MODEL_PROVIDER_KEY then Some(Str(PROVIDER))
            else if key == CATALOG_KEY then Some(Str(route.catalogPath))
            else Lookup(doc.top, key)
  {
    hide WithoutLimits, Lookup;
    TopKeysDiffer();
    var top := doc.top[MODEL_KEY := Str(route.model)][WEB_SEARCH_KEY := Str("disabled")]
                      [MODEL_PROVIDER_KEY := Str(PROVIDER)][CATALOG_KEY := Str(route.catalogPath)];
    FourAt(doc.top, MODEL_KEY, Str(route.model), WEB_SEARCH_KEY, Str("disabled"), MODEL_PROVIDER_KEY, Str(PROVIDER),
           CATALOG_KEY, Str(route.catalogPath), key);
    var providers := doc.providers.GetOr(map[]);
    var entry := (if PROVIDER in providers then providers[PROVIDER] else map[]) + OurProvider(route);
    LimitsAt(Doc(top, Some(providers[PROVIDER := entry]), doc.desktop), key);
  }

  /** Top-level fields of the published document, by name. */
  lemma PublishedTop(doc: Doc, route: ConfigRoute)
    ensures var top := Published(doc, route).top;
            && Lookup(top, "model") == Some(Str(route.model))
            && Lookup(top, "model_provider") == Some(Str("haxsd-byok"))
            && Lookup(top, "model_catalog_json") == Some(Str(route.catalogPath))
            && Lookup(top, "web_search") == Some(Str("disabled"))
            && "model_context_window" !in top && "model_auto_compact_token_limit" !in top
  {
    hide Published;
    TopKeysDiffer();
    assert |MODEL_KEY| == 5 && |WEB_SEARCH_KEY| == 10 && |MODEL_PROVIDER_KEY| == 14 && |CATALOG_KEY| == 18;
    TopAt(doc, route, MODEL_KEY);
    TopAt(doc, route, MODEL_PROVIDER_KEY);
    TopAt(doc, route, CATALOG_KEY);
    TopAt(doc, route, WEB_SEARCH_KEY);
    TopAt(doc, route, "model_context_window");
    TopAt(doc, route, "model_auto_compact_token_limit");
  }

  lemma EntryKeysDiffer()
    ensures "name" != "base_url" && "name" != "wire_api" && "base_url" != "wire_api"
    ensures "experimental_bearer_token" !in {"name", "base_url", "wire_api", "requires_openai_auth", "supports_websockets", "capabilities.remote_compaction"}
    ensures "requires_openai_auth" !in {"name", "base_url", "wire_api", "supports_websockets", "capabilities.remote_compaction"}
    ensures "supports_websockets" !in {"name", "base_url", "wire_api", "capabilities.remote_compaction"}
    ensures "capabilities.remote_compaction" !in {"name", "base_url", "wire_api"}
  {
    assert "base_url"[0] != "wire_api"[0];
    assert |"name"| == 4 && |"base_url"| == 8 && |"wire_api"| == 8 && |"requires_openai_auth"| == 20 && |"supports_websockets"| == 19;
    assert |"experimental_bearer_token"| == 25 && |"capabilities.remote_compaction"| == 30;
  }

  /** Our provider entry in the published document, by name. */
  lemma PublishedEntry(doc: Doc, route: ConfigRoute)
    ensures ProviderOf(Published(doc, route)).Some?
    ensures var entry := ProviderOf(Published(doc, route)).value;
            && Lookup(entry, "base_url") == Some(Str(route.baseUrl))
            && Lookup(entry, "experimental_bearer_token") == Some(Str(route.token))
            && Lookup(entry, "wire_api") == Some(Str("responses"))
            && Lookup(entry, "name") == Some(Str("haxsd byok"))
            && Lookup(entry, "requires_openai_auth") == Some(Raw("false")) && Lookup(entry, "supports_websockets") == Some(Raw("false"))
            && Lookup(entry, "capabilities.remote_compaction") == Some(Str("unsupported"))
  {
    EntryKeysDiffer();
  }

  // When a takeover is accepted.

  /** Codex selects its own provider, and nothing that would bypass or already carries ours. */
  predicate Unclaimed(doc: Doc) {
    && ("model_provider" in doc.top && doc.top["model_provider"].Str? ==> doc.top["model_provider"] == Str("openai"))
    && "openai_base_url" !in doc.top && "profile" !in doc.top
    && (doc.providers.Some? ==> "haxsd-byok" !in doc.providers.value)
  }

  lemma UnclaimedIff(doc: Doc)
    ensures External(doc) <==> !Unclaimed(doc)
  {
  }

  /** A first takeover is accepted if and only if the route is complete and nobody else claims the document. */
  lemma FirstAcceptedIff(h: Home, route: ConfigRoute, signedIn: bool, catalog: Catalog)
    requires h.receipt.None?
    ensures Applied(h, route, signedIn, catalog).1 <==>
            route.validUrl && route.token != "" && route.model != "" && Unclaimed(Document(h.config))
    ensures !Applied(h, route, signedIn, catalog).1 ==> Applied(h, route, signedIn, catalog).0 == h
  {
    UnclaimedIff(Document(h.config));
  }

  // What keeps it in place.

  /** A takeover that nobody but the guard and the client's model menu has touched. */
  ghost predicate InPlace(h: Home, doc: Doc, route: ConfigRoute, model: string) {
    && h.receipt.Some? && h.receipt.value.applied == Published(doc, route) && h.config.Some?
    && h.config.value.top == Published(doc, route).top[MODEL_KEY := Str(model)]
    && h.config.value.providers == Published(doc, route).providers
  }

  /** The fields of such a document that status and apply look at. */
  lemma InPlaceFields(h: Home, doc: Doc, route: ConfigRoute, model: string)
    requires InPlace(h, doc, route, model)
    ensures var top := h.config.value.top;
            && Lookup(top, MODEL_KEY) == Some(Str(model)) && Lookup(top, CATALOG_KEY) == Some(Str(route.catalogPath))
            && Lookup(top, MODEL_PROVIDER_KEY) == Some(Str(PROVIDER))
            && "model_context_window" !in top && "model_auto_compact_token_limit" !in top
    ensures ProviderOf(h.config.value) == ProviderOf(Published(doc, route))
  {
    hide Published;
    TopKeysDiffer();
    PublishedTop(doc, route);
  }

  /** It counts as applied if and only if the model is the published one or stands in the published catalog. */
  lemma SwitchedModelIff(h: Home, doc: Doc, route: ConfigRoute, model: string, catalog: Catalog)
    requires InPlace(h, doc, route, model)
    ensures IsApplied(h, catalog) <==>
            Trim(model) != "" && (Trim(model) == Trim(route.model) || Trim(model) in catalog(route.catalogPath))
  {
    hide Published, Trim, InPlace, ProviderOf;
    InPlaceFields(h, doc, route, model);
    PublishedTop(doc, route);
    assert h.receipt.Some? && h.receipt.value.applied == Published(doc, route) && h.config.Some? by {
      Reveals(h, doc, route, model);
    }
  }

  lemma Reveals(h: Home, doc: Doc, route: ConfigRoute, model: string)
    requires InPlace(h, doc, route, model)
    ensures h.receipt.Some? && h.receipt.value.applied == Published(doc, route) && h.config.Some?
  {
    hide Published;
  }

  lemma SameRouteIff(h: Home, doc: Doc, route: ConfigRoute, model: string, other: ConfigRoute)
    requires InPlace(h, doc, route, model)
    ensures h.config.Some?
    ensures SameRoute(h.config.value, other) <==>
            other.model == model && other.baseUrl == route.baseUrl && other.token == route.token && other.catalogPath == route.catalogPath
  {
    hide Published, ProviderOf, InPlace;
    Reveals(h, doc, route, model);
    InPlaceFields(h, doc, route, model);
    PublishedEntry(doc, route);
  }

  /** While it is applied, exactly its own route is accepted again, and nothing changes, accepted or not. */
  lemma ReappliedIff(h: Home, doc: Doc, route: ConfigRoute, model: string, other: ConfigRoute, signedIn: bool, catalog: Catalog)
    requires InPlace(h, doc, route, model) && IsApplied(h, catalog)
    ensures Applied(h, other, signedIn, catalog).0 == h
    ensures Applied(h, other, signedIn, catalog).1 <==>
            && other.validUrl && other.token != "" && other.model != ""
            && other.model == model && other.baseUrl == route.baseUrl && other.token == route.token && other.catalogPath == route.catalogPath
  {
    hide Published, IsApplied, InPlace, SameRoute, WithoutLimits;
    SameRouteIff(h, doc, route, model, other);
    Reveals(h, doc, route, model);
    InPlaceFields(h, doc, route, model);
    PublishedTop(doc, route);
    LimitsAreGone(Published(doc, route));
    LimitsAreGone(h.config.value);
  }

  lemma LimitsAreGone(doc: Doc)
    requires "model_context_window" !in doc.top && "model_auto_compact_token_limit" !in doc.top
    ensures WithoutLimits(doc) == doc
  {
    assert LEGACY_GLOBAL_LIMITS == ["model_context_window", "model_auto_compact_token_limit"];
    assert doc.top - (set key | key in LEGACY_GLOBAL_LIMITS) == doc.top;
  }

  /** A first takeover is in place under its own route, and stays so under any ticks. */
  lemma TakenIsInPlace(h: Home, route: ConfigRoute, signedIn: bool, catalog: Catalog)
    requires h.receipt.None? && Applied(h, route, signedIn, catalog).1
    ensures InPlace(Applied(h, route, signedIn, catalog).0, Document(h.config), route, route.model)
    ensures forall again: bool, t: Home, model: string :: InPlace(t, Document(h.config), route, model) ==>
              InPlace(Ticked(t, again, catalog), Document(h.config), route, model)
  {
    hide Published;
    PublishedTop(Document(h.config), route);
    var taken := ApplyConfig(h, route);
    assert taken.config.value.top[MODEL_KEY := Str(route.model)] == taken.config.value.top;
    assert InPlace(taken, Document(h.config), route, route.model);
    forall again: bool, t: Home, model: string | InPlace(t, Document(h.config), route, model)
      ensures InPlace(Ticked(t, again, catalog), Document(h.config), route, model)
    {
      var (detail, _) := Guarded(DetailOf(t.config.value), t.marker, IsApplied(t, catalog), again);
      WrittenMode(t.config.value, detail);
    }
  }

  // Status.

  /** A model that the published document routes: its own, or one of its catalog. */
  predicate Routed(doc: Doc, published: Doc, catalog: Catalog) {
    && "model" in doc.top && doc.top["model"].Str? && Trim(doc.top["model"].text) != ""
    && var slug := Trim(doc.top["model"].text);
       || ("model" in published.top && published.top["model"].Str? && Trim(published.top["model"].text) == slug)
       || ("model_catalog_json" in published.top && published.top["model_catalog_json"].Str?
           && slug in catalog(published.top["model_catalog_json"].text))
  }

  /** Provider, catalog and provider entry are the same. */
  predicate SameRouting(a: Doc, b: Doc) {
    && Lookup(a.top, "model_provider") == Lookup(b.top, "model_provider")
    && Lookup(a.top, "model_catalog_json") == Lookup(b.top, "model_catalog_json")
    && ProviderOf(a) == ProviderOf(b)
  }

  lemma AppliedIff(h: Home, catalog: Catalog)
    ensures IsApplied(h, catalog) <==>
            && h.receipt.Some? && SameRouting(Document(h.config), h.receipt.value.applied)
            && Routed(Document(h.config), h.receipt.value.applied, catalog)
  {
    hide Trim;
    assert Trim("") == "" by {
      TrimIff("", "");
      assert "" == "" + "" + "" && Blank("");
    }
  }

  /**
   Apply against status: what is in conflict is refused and left alone; what is applied takes
   its own route again; anything else is accepted unless somebody else claims the document.
   */
  lemma AcceptedIff(h: Home, route: ConfigRoute, signedIn: bool, catalog: Catalog)
    requires ValidRoute(route) && !IsApplied(h, catalog)
    ensures Applied(h, route, signedIn, catalog).1 <==> !InConflict(h, catalog) && Unclaimed(Document(h.config))
    ensures InConflict(h, catalog) ==> Applied(h, route, signedIn, catalog).0 == h
  {
    hide IsApplied, RouteMatches, External;
    UnclaimedIff(Document(h.config));
  }

  /** A takeover is in conflict if and only if it is not applied and its routing is not back to the original either. */
  lemma ConflictIff(h: Home, catalog: Catalog)
    requires h.receipt.Some?
    ensures InConflict(h, catalog) <==>
            !IsApplied(h, catalog) && !SameRouting(Document(h.config), Document(h.receipt.value.original))
  {
    hide IsApplied;
  }

  lemma OwnedAt(doc: Doc, key: string)
    ensures Lookup(OwnedOf(doc), key) == if key in OWNED_KEYS then Lookup(doc.top, key) else None
  {
  }

  lemma OtherLength(keys: seq<string>, key: string)
    requires forall i | 0 <= i < |keys| :: |keys[i]| != |key|
    ensures key !in keys
  {
  }

  lemma ProviderKeyIsApart()
    ensures PROVIDER_KEY !in OWNED_KEYS
  {
    var keys := OWNED_KEYS;
    assert |PROVIDER_KEY| == 26 && |keys| == 6;
    assert |keys[0]| == 5 && |keys[1]| == 14 && |keys[2]| == 18;
    assert |keys[3]| == 20 && |keys[4]| == 30 && |keys[5]| == 10;
    OtherLength(keys, PROVIDER_KEY);
  }

  lemma OwnedDiffers(doc: Doc, published: Doc, key: string)
    ensures Lookup(OwnedOf(doc), key) == Lookup(OwnedOf(published), key) <==> (key in OWNED_KEYS ==> !Differs(doc, published, key))
    ensures Differs(doc, published, PROVIDER_KEY) <==> ProviderOf(doc) != ProviderOf(published)
  {
    hide OwnedOf, Lookup, ProviderOf;
    OwnedAt(doc, key);
    OwnedAt(published, key);
    ProviderKeyIsApart();
  }

  /** No owned field is reported as changed if and only if all owned fields and our provider entry are as published. */
  lemma NothingDiffersIff(doc: Doc, published: Doc)
    ensures (forall key | key in OWNED_KEYS + [PROVIDER_KEY] :: !Differs(doc, published, key)) <==>
            OwnedOf(doc) == OwnedOf(published) && ProviderOf(doc) == ProviderOf(published)
  {
    hide OwnedOf, Differs, ProviderOf;
    forall key
      ensures Lookup(OwnedOf(doc), key) == Lookup(OwnedOf(published), key) <==> (key in OWNED_KEYS ==> !Differs(doc, published, key))
      ensures Differs(doc, published, PROVIDER_KEY) <==> ProviderOf(doc) != ProviderOf(published)
      ensures key in OWNED_KEYS + [PROVIDER_KEY] <==> key in OWNED_KEYS || key == PROVIDER_KEY
    {
      OwnedDiffers(doc, published, key);
    }
    if forall key | key in OWNED_KEYS + [PROVIDER_KEY] :: !Differs(doc, published, key) {
      assert PROVIDER_KEY in OWNED_KEYS + [PROVIDER_KEY];
      forall key
        ensures Lookup(OwnedOf(doc), key) == Lookup(OwnedOf(published), key)
      {
        assert key in OWNED_KEYS ==> key in OWNED_KEYS + [PROVIDER_KEY];
      }
      SameLookups(OwnedOf(doc), OwnedOf(published));
    }
  }

  // Upkeep of a takeover.

  /** The same document but for one or two top-level fields. */
  predicate SameBut(a: Doc, b: Doc, keys: set<string>) {
    a.top - keys == b.top - keys && a.providers == b.providers && a.desktop == b.desktop
  }

  /** Replacing documents by others with the same routing and model keeps the status. */
  lemma SameStatus(h: Home, t: Home, catalog: Catalog)
    requires h.receipt.Some? && t.receipt.Some?
    requires var (a, b) := (Document(h.config), Document(t.config));
             Lookup(a.top, MODEL_KEY) == Lookup(b.top, MODEL_KEY) && SameRouting(a, b)
    requires var (a, b) := (h.receipt.value.applied, t.receipt.value.applied);
             Lookup(a.top, MODEL_KEY) == Lookup(b.top, MODEL_KEY) && SameRouting(a, b)
    ensures IsApplied(t, catalog) == IsApplied(h, catalog)
  {
    hide Trim, ProviderOf;
  }

  lemma LimitsKeepRouting(doc: Doc)
    ensures var now := WithoutLimits(doc);
            Lookup(doc.top, MODEL_KEY) == Lookup(now.top, MODEL_KEY) && SameRouting(doc, now)
  {
    hide Lookup, ProviderOf;
    TopKeysDiffer();
    LimitsAt(doc, MODEL_KEY);
    LimitsAt(doc, CATALOG_KEY);
    LimitsAt(doc, MODEL_PROVIDER_KEY);
    SameProviders(WithoutLimits(doc), doc);
  }

  lemma LimitSet(doc: Doc)
    ensures WithoutLimits(doc) == doc.(top := doc.top - {"model_context_window", "model_auto_compact_token_limit"})
  {
    assert LEGACY_GLOBAL_LIMITS == ["model_context_window", "model_auto_compact_token_limit"];
    assert (set key | key in LEGACY_GLOBAL_LIMITS) == {"model_context_window", "model_auto_compact_token_limit"};
  }

  /** The limits are gone, and nothing else has changed. */
  ghost predicate Unlimited(now: Doc, before: Doc) {
    var limits := {"model_context_window", "model_auto_compact_token_limit"};
    now.top.Keys !! limits && SameBut(now, before, limits)
  }

  lemma LimitsGone(doc: Doc)
    ensures Unlimited(WithoutLimits(doc), doc)
  {
    hide WithoutLimits;
    LimitSet(doc);
    var limits := {"model_context_window", "model_auto_compact_token_limit"};
    assert doc.top - limits - limits == doc.top - limits;
  }

  /** The legacy limits leave config and receipt together, and nothing else changes; it is refused exactly over a foreign routing. */
  lemma LimitsLeave(h: Home, catalog: Catalog)
    requires h.receipt.Some? && h.config.Some?
    ensures CanDrop(h) <==> SameRouting(h.config.value, h.receipt.value.applied)
    ensures var t := Dropped(h);
            && t.config.Some? && t.receipt.Some? && t.marker == h.marker && t.receipt.value.original == h.receipt.value.original
            && Unlimited(t.config.value, h.config.value) && Unlimited(t.receipt.value.applied, h.receipt.value.applied)
            && IsApplied(t, catalog) == IsApplied(h, catalog)
  {
    hide WithoutLimits, IsApplied, Unlimited, ProviderOf;
    var (doc, applied) := (h.config.value, h.receipt.value.applied);
    LimitsGone(doc);
    LimitsGone(applied);
    LimitsKeepRouting(doc);
    LimitsKeepRouting(applied);
    SameStatus(h, Dropped(h), catalog);
  }

  lemma OneAt<K, V>(entries: map<K, V>, a: K, w: V, b: K, c: K)
    requires a != b && a != c
    ensures var now := entries[a := w]; Lookup(now, a) == Some(w) && Lookup(now, b) == Lookup(entries, b) && Lookup(now, c) == Lookup(entries, c)
    ensures entries[a := w] - {a} == entries - {a}
  {
  }

  lemma PointerWritten(doc: Doc, pointer: string)
    ensures var now := WithPointer(doc, pointer);
            && Lookup(now.top, "model_catalog_json") == Some(Str(pointer)) && SameBut(now, doc, {"model_catalog_json"})
            && Lookup(now.top, MODEL_PROVIDER_KEY) == Lookup(doc.top, MODEL_PROVIDER_KEY)
            && Lookup(now.top, MODEL_KEY) == Lookup(doc.top, MODEL_KEY) && ProviderOf(now) == ProviderOf(doc)
  {
    hide Lookup, ProviderOf;
    TopKeysDiffer();
    OneAt(doc.top, CATALOG_KEY, Str(pointer), MODEL_PROVIDER_KEY, MODEL_KEY);
    SameProviders(WithPointer(doc, pointer), doc);
  }

  lemma SameProviders(a: Doc, b: Doc)
    requires a.providers == b.providers
    ensures ProviderOf(a) == ProviderOf(b)
  {
  }

  /**
   A republished catalog: config and receipt point to it, and nothing else changes. An applied
   takeover stays applied if and only if the new catalog, or the receipt, still has its model.
   */
  lemma NewCatalogIff(h: Home, pointer: string, catalog: Catalog)
    requires IsApplied(h, catalog) && h.config.Some?
    ensures var t := Republished(h, pointer);
            && t.config.Some? && t.receipt.Some? && t.marker == h.marker && t.receipt.value.original == h.receipt.value.original
            && Lookup(t.config.value.top, "model_catalog_json") == Some(Str(pointer))
            && Lookup(t.receipt.value.applied.top, "model_catalog_json") == Some(Str(pointer))
            && SameBut(t.config.value, h.config.value, {"model_catalog_json"})
            && SameBut(t.receipt.value.applied, h.receipt.value.applied, {"model_catalog_json"})
            && var (slug, own) := (Trim(Text(Lookup(h.config.value.top, "model")).GetOr("")), Lookup(h.receipt.value.applied.top, "model"));
               IsApplied(t, catalog) <==> (Text(own).Some? && Trim(Text(own).value) == slug) || slug in catalog(pointer)
  {
    hide Trim, WithPointer, ProviderOf, SameBut;
    PointerWritten(h.config.value, pointer);
    PointerWritten(h.receipt.value.applied, pointer);
  }

  // Restoring without a receipt.

  /** Without a receipt, restoring does what an idle tick does: it pays a leftover journal back. */
  lemma OrphanIsPaidBack(h: Home, signedIn: bool, catalog: Catalog)
    requires h.receipt.None?
    ensures Restored(h) == Ticked(h, signedIn, catalog) && !Journalled(Restored(h))
    ensures h.config.Some? && Journalled(h) ==> Mode(Restored(h)) == if h.marker.active then h.marker.original else Some(WORK)
  {
    ModesAre();
    if h.config.Some? && Journalled(h) {
      WrittenMode(h.config.value, h.marker.RestoreTarget().value);
    }
  }
}
