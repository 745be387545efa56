/** The parts of a Codex document, what a receipt must know about them, and what restore makes of it. */
module CodexTakeover {
  import opened Wrappers
  import opened CodexConfig

  // A document in three parts: owned fields, our provider entry, everything else.

  function OwnedOf(doc: Doc): Table {
    map key | key in doc.top && key in OWNED_KEYS :: doc.top[key]
  }

  function RestTop(doc: Doc): Table {
    map key | key in doc.top && key !in OWNED_KEYS :: doc.top[key]
  }

  function OtherProviders(doc: Doc): map<string, Table> {
    doc.providers.GetOr(map[]) - {PROVIDER}
  }

  /** Equal but for owned fields, our provider entry and the desktop table. */
  ghost predicate SameRest(a: Doc, b: Doc) {
    RestTop(a) == RestTop(b) && OtherProviders(a) == OtherProviders(b)
  }

  ghost predicate SameDesktopButDetail(a: Doc, b: Doc) {
    a.desktop - {DETAIL_MODE} == b.desktop - {DETAIL_MODE}
  }

  lemma OwnedKeys()
    ensures forall key | key in [MODEL_KEY, MODEL_PROVIDER_KEY, CATALOG_KEY, WEB_SEARCH_KEY] :: key in OWNED_KEYS
    ensures forall key | key in LEGACY_GLOBAL_LIMITS :: key in OWNED_KEYS
  {
    assert OWNED_KEYS[0] == MODEL_KEY && OWNED_KEYS[1] == MODEL_PROVIDER_KEY && OWNED_KEYS[2] == CATALOG_KEY && OWNED_KEYS[5] == WEB_SEARCH_KEY;
    assert OWNED_KEYS[3] == LEGACY_GLOBAL_LIMITS[0] && OWNED_KEYS[4] == LEGACY_GLOBAL_LIMITS[1];
  }

  lemma RestoredParts(doc: Doc, reference: Doc)
    requires ProviderOf(reference).None?
    ensures var r := RestoredOwned(doc, reference);
            && OwnedOf(r) == OwnedOf(reference) && ProviderOf(r).None? && SameRest(r, doc) && r.desktop == doc.desktop
  {
  }

  lemma WritesOwnedOnly(doc: Doc, key: string, value: Toml)
    requires key in OWNED_KEYS
    ensures SameRest(doc.(top := doc.top[key := value]), doc)
  {
  }

  lemma WithoutLimitsRest(doc: Doc)
    ensures SameRest(WithoutLimits(doc), doc) && WithoutLimits(doc).desktop == doc.desktop
  {
    OwnedKeys();
  }

  lemma PublishedRest(doc: Doc, route: ConfigRoute)
    ensures SameRest(Published(doc, route), doc) && Published(doc, route).desktop == doc.desktop
  {
    OwnedKeys();
    var d1 := doc.(top := doc.top[MODEL_KEY := Str(route.model)]);
    var d2 := d1.(top := d1.top[WEB_SEARCH_KEY := Str("disabled")]);
    var d3 := d2.(top := d2.top[MODEL_PROVIDER_KEY := Str(PROVIDER)]);
    var d4 := d3.(top := d3.top[CATALOG_KEY := Str(route.catalogPath)]);
    WritesOwnedOnly(doc, MODEL_KEY, Str(route.model));
    WritesOwnedOnly(d1, WEB_SEARCH_KEY, Str("disabled"));
    WritesOwnedOnly(d2, MODEL_PROVIDER_KEY, Str(PROVIDER));
    WritesOwnedOnly(d3, CATALOG_KEY, Str(route.catalogPath));
    var providers := doc.providers.GetOr(map[]);
    var entry := (if PROVIDER in providers then providers[PROVIDER] else map[]) + OurProvider(route);
    var d5 := d4.(providers := Some(providers[PROVIDER := entry]));
    assert OtherProviders(d5) == OtherProviders(d4);
    WithoutLimitsRest(d5);
    assert Published(doc, route) == WithoutLimits(d5);
  }

  // The invariant: the receipt still knows the owned fields of the first takeover.

  ghost predicate Holds(original: Doc, applied: Doc, owned: Table) {
    && OwnedOf(original) == owned && ProviderOf(original).None? && ProviderOf(applied).Some?
    && SameRest(original, applied) && original.desktop == applied.desktop
  }

  ghost predicate Recoverable(h: Home, owned: Table) {
    && h.receipt.Some?
    && Holds(Document(h.receipt.value.original), h.receipt.value.applied, owned)
  }

  /** Restoring returns the owned fields and the provider entry, keeps the rest as found, and takes the receipt's detail mode. */
  lemma RestoreRecovers(h: Home, owned: Table)
    requires Recoverable(h, owned)
    ensures var (now, before) := (Document(Restored(h).config), Document(h.config));
            && OwnedOf(now) == owned && ProviderOf(now).None?
            && SameRest(now, before) && SameDesktopButDetail(now, before)
            && DetailOf(now) == DetailOf(Document(h.receipt.value.original))
            && Restored(h).receipt.None? && Restored(h).marker == NO_MODE
  {
    var original := Document(h.receipt.value.original);
    RestoredParts(Document(h.config), original);
    var unowned := Unowned(h);
    if unowned.Some? {
      DetailOnly(unowned.value, DetailOf(original));
    }
  }

  lemma RestoredTwice(doc: Doc, reference: Doc)
    requires ProviderOf(reference).None?
    ensures RestoredOwned(RestoredOwned(doc, reference), reference) == RestoredOwned(doc, reference)
    ensures RestoredOwned(reference, reference) == reference
  {
    RestoredParts(doc, reference);
    var top := RestoredTop(doc.top, reference.top);
    assert RestoredTop(top, reference.top) == top;
    assert RestoredTop(reference.top, reference.top) == reference.top;
    if reference.providers.Some? {
      assert reference.providers.value - {PROVIDER} == reference.providers.value;
    }
    if doc.providers.Some? {
      assert doc.providers.value - {PROVIDER} - {PROVIDER} == doc.providers.value - {PROVIDER};
    }
  }

  lemma RestoredWithDetail(doc: Doc, reference: Doc, target: Option<string>)
    ensures RestoredOwned(WithDetail(doc, target), reference) == WithDetail(RestoredOwned(doc, reference), target)
  {
  }

  /** The writes of a restore that crashed: the fields; then the detail mode too; then the journal too. */
  function RestoreCrash(h: Home, writes: nat): Home
  {
    if writes == 0 then h
    else if h.receipt.None? then h.(config := Restored(h).config)
    else if writes == 1 then h.(config := Unowned(h))
    else if writes == 2 then h.(config := Restored(h).config)
    else h.(config := Restored(h).config, marker := NO_MODE)
  }

  /** However far a crashed restore got, the next one ends with the same document. */
  lemma CrashedRestoreIsFinished(h: Home, owned: Table, writes: nat)
    requires Recoverable(h, owned)
    ensures var again := Restored(RestoreCrash(h, writes));
            && Document(again.config) == Document(Restored(h).config)
            && again.receipt.None? && again.marker == NO_MODE
  {
    hide RestoredOwned, OwnedOf, SameRest;
    var original := Document(h.receipt.value.original);
    var target := DetailOf(original);
    var doc := Document(Unowned(h));
    RestoredTwice(Document(h.config), original);
    assert RestoredOwned(doc, original) == doc;
    DetailOnly(doc, target);
    RestoredWithDetail(doc, original, target);
    RestoredParts(doc, original);
  }

  lemma DetailOnly(doc: Doc, target: Option<string>)
    ensures var d := WithDetail(doc, target);
            && d.top == doc.top && d.providers == doc.providers
            && SameDesktopButDetail(d, doc) && DetailOf(d) == target
  {
    var d := WithDetail(doc, target);
    var value := if target.Some? then Some(Str(target.value)) else None;
    assert With(doc.desktop, DETAIL_MODE, value) - {DETAIL_MODE} == doc.desktop - {DETAIL_MODE};
  }
}
