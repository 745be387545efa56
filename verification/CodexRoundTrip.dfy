/** When does a takeover that nobody but the guard has touched give back the very files? */
module CodexRoundTrip {
  import opened Wrappers
  import opened Strings
  import opened CodexConfig
  import opened CodexTakeover
  import opened CodexGuard

  /** The detail mode is absent or a string. */
  predicate PlainDetail(doc: Doc) {
    DETAIL_MODE in doc.desktop ==> doc.desktop[DETAIL_MODE].Str?
  }

  /**
   A blank model leaves the takeover unapplied, so the guard pays a leftover journal back into
   the new document: over a detail mode that is not a string, or into a file that was missing.
   */
  predicate Spoils(h: Home, route: ConfigRoute) {
    && Trim(route.model) == ""
    && h.marker.RestoreTarget().Some? && h.marker.RestoreTarget().value.Some?
    && (h.config.None? || !PlainDetail(h.config.value))
  }

  /** Nobody but the guard has written since the takeover. */
  ghost predicate Untouched(h: Home, start: Home, route: ConfigRoute) {
    var (was, published) := (Document(start.config), Published(Document(start.config), route));
    && h.receipt == Some(Receipt(start.config, published))
    && h.config.Some? && h.config.value.top == published.top && h.config.value.providers == published.providers
    && (PlainDetail(was) ==> PlainDetail(h.config.value) && SameDesktopButDetail(h.config.value, was))
    && (!PlainDetail(was) ==> h.config.value.desktop == was.desktop && h.marker.RestoreTarget().None?)
    && (start.config.None? ==> h.config == Some(published) && h.marker.RestoreTarget().None?)
  }

  lemma PlainIsDetermined(a: Doc, b: Doc)
    requires PlainDetail(a) && PlainDetail(b) && SameDesktopButDetail(a, b) && DetailOf(a) == DetailOf(b)
    ensures a.desktop == b.desktop
  {
    forall key | key in a.desktop.Keys + b.desktop.Keys
      ensures key in a.desktop && key in b.desktop && a.desktop[key] == b.desktop[key]
    {
      if key != DETAIL_MODE {
        assert key in a.desktop - {DETAIL_MODE} <==> key in b.desktop - {DETAIL_MODE};
        assert (a.desktop - {DETAIL_MODE})[key] == (b.desktop - {DETAIL_MODE})[key];
      }
    }
  }

  lemma TickUntouched(h: Home, start: Home, route: ConfigRoute, signedIn: bool, catalog: Catalog)
    requires Untouched(h, start, route)
    ensures Untouched(Ticked(h, signedIn, catalog), start, route)
  {
    var doc := h.config.value;
    var (detail, _) := Guarded(DetailOf(doc), h.marker, IsApplied(h, catalog), signedIn);
    DetailOnly(doc, detail);
    assert PlainDetail(doc) ==> PlainDetail(WithDetail(doc, detail));
  }

  /** Putting the owned fields and the provider entry of a document back into its published form gives the document. */
  lemma PublishedIsUndone(doc: Doc, route: ConfigRoute)
    ensures var r := RestoredOwned(Published(doc, route), doc);
            r.top == doc.top && r.providers == doc.providers
  {
    var published := Published(doc, route);
    PublishedRest(doc, route);
    var r := RestoredTop(published.top, doc.top);
    forall key
      ensures (key in r <==> key in doc.top) && (key in r ==> r[key] == doc.top[key])
    {
      assert key in RestTop(published) <==> key in RestTop(doc);
      if key in doc.top && key !in OWNED_KEYS {
        assert RestTop(published)[key] == RestTop(doc)[key];
      }
    }
    assert r == doc.top;
    PublishedProviders(doc, route);
  }

  lemma PublishedProviders(doc: Doc, route: ConfigRoute)
    ensures RestoredProviders(Published(doc, route), doc) == doc.providers
  {
    var published := Published(doc, route).providers.value;
    if doc.providers.None? {
      assert published - {PROVIDER} == map[];
    } else if PROVIDER in doc.providers.value {
      assert published[PROVIDER := doc.providers.value[PROVIDER]] == doc.providers.value;
    } else {
      assert published - {PROVIDER} == doc.providers.value;
    }
  }

  lemma UntouchedIsUndone(h: Home, start: Home, route: ConfigRoute)
    requires Untouched(h, start, route)
    ensures Restored(h) == Home(start.config, None, NO_MODE)
  {
    var was := Document(start.config);
    PublishedIsUndone(was, route);
    var restored := RestoredOwned(h.config.value, was);
    assert restored.top == was.top && restored.providers == was.providers;
    var target := DetailOf(was);
    DetailOnly(restored, target);
    if PlainDetail(was) {
      PlainIsDetermined(WithDetail(restored, target), was);
    }
    assert WithDetail(was, target) == was;
  }

  function Ticks(h: Home, signedIn: seq<bool>, catalog: Catalog): Home {
    if signedIn == [] then h
    else Ticked(Ticks(h, signedIn[..|signedIn| - 1], catalog), signedIn[|signedIn| - 1], catalog)
  }

  lemma {:induction false} TicksUntouched(h: Home, start: Home, route: ConfigRoute, signedIn: seq<bool>, catalog: Catalog)
    requires Untouched(h, start, route)
    ensures Untouched(Ticks(h, signedIn, catalog), start, route)
  {
    if signedIn == [] {
    } else {
      var init := signedIn[..|signedIn| - 1];
      TicksUntouched(h, start, route, init, catalog);
      TickUntouched(Ticks(h, init, catalog), start, route, signedIn[|signedIn| - 1], catalog);
    }
  }

  lemma RouteMatchesItself(doc: Doc, config: Doc)
    requires config.top == doc.top && config.providers == doc.providers
    ensures RouteMatches(config, doc)
  {
  }

  /** Under a model that is not blank the takeover is applied at once. */
  lemma TakenIsApplied(h: Home, route: ConfigRoute, catalog: Catalog)
    ensures IsApplied(ApplyConfig(h, route), catalog) <==> Trim(route.model) != ""
  {
    hide Trim;
    var published := Published(Document(h.config), route);
    RouteMatchesItself(published, published);
    PublishedModel(Document(h.config), route);
  }

  lemma PublishedModel(doc: Doc, route: ConfigRoute)
    ensures Lookup(Published(doc, route).top, MODEL_KEY) == Some(Str(route.model))
  {
    assert |MODEL_KEY| == 5 && |WEB_SEARCH_KEY| == 10 && |MODEL_PROVIDER_KEY| == 14 && |CATALOG_KEY| == 18;
    assert |LEGACY_GLOBAL_LIMITS[0]| == 20 && |LEGACY_GLOBAL_LIMITS[1]| == 30;
  }

  /** The first tick of a takeover leaves nothing for a journal to spoil. */
  lemma FirstTick(h: Home, route: ConfigRoute, signedIn: bool, catalog: Catalog)
    requires h.receipt.None? && !Spoils(h, route)
    ensures Untouched(Ticked(ApplyConfig(h, route), signedIn, catalog), h, route)
  {
    hide Published, Trim, IsApplied;
    var taken := ApplyConfig(h, route);
    var doc := taken.config.value;
    PublishedRest(Document(h.config), route);
    TakenIsApplied(h, route, catalog);
    ModesDiffer();
    var (detail, _) := Guarded(DetailOf(doc), taken.marker, IsApplied(taken, catalog), signedIn);
    DetailOnly(doc, detail);
    assert PlainDetail(doc) ==> PlainDetail(WithDetail(doc, detail));
  }

  /** What the guard has spoiled, no restore can know. */
  lemma SpoiledTick(h: Home, route: ConfigRoute, signedIn: bool, catalog: Catalog)
    requires h.receipt.None? && Spoils(h, route)
    ensures var t := Ticked(ApplyConfig(h, route), signedIn, catalog);
            && t.marker == NO_MODE && !IsApplied(t, catalog)
            && Restored(t) != Home(h.config, None, NO_MODE)
  {
    hide Published, Trim, RestoredTop, RestoredProviders;
    var taken := ApplyConfig(h, route);
    var (was, published) := (Document(h.config), taken.config.value);
    PublishedRest(was, route);
    TakenIsApplied(h, route, catalog);
    TickKeepsStatus(taken, signedIn, catalog);
    var target := h.marker.RestoreTarget().value;
    var t := Ticked(taken, signedIn, catalog);
    DetailOnly(published, target);
    assert t.config == Some(WithDetail(published, target));
    assert DetailOf(was) == None && t.config != Some(published);
    DetailOnly(RestoredOwned(t.config.value, was), None);
    var last := Restored(t).config;
    assert last == Some(WithDetail(RestoredOwned(t.config.value, was), None));
    if h.config.Some? {
      assert DETAIL_MODE !in last.value.desktop;
    }
  }

  /** Without a takeover in place and without a journal the guard is idle. */
  lemma {:induction false} IdleTicks(h: Home, signedIn: seq<bool>, catalog: Catalog)
    requires h.marker == NO_MODE && !IsApplied(h, catalog)
    ensures Ticks(h, signedIn, catalog) == h
  {
    if signedIn == [] {
    } else {
      hide IsApplied;
      IdleTicks(h, signedIn[..|signedIn| - 1], catalog);
      SameDetail(h.config);
    }
  }

  lemma SameDetail(config: Option<Doc>)
    ensures DetailWritten(config, DetailOf(Document(config))) == config
  {
  }

  /**
   The round trip: a first takeover, any number of guard ticks under any sign-in states, and
   restore give back the very files if and only if a blank model did not let a leftover
   journal spoil them.
   */
  lemma RoundTripIff(h: Home, route: ConfigRoute, signedIn: bool, ticks: seq<bool>, catalog: Catalog)
    requires h.receipt.None? && ValidRoute(route) && !External(Document(h.config))
    ensures Restored(Ticks(Applied(h, route, signedIn, catalog).0, ticks, catalog)) == Home(h.config, None, NO_MODE) <==>
            !Spoils(h, route)
  {
    hide Ticked, Restored, Untouched, ApplyConfig, External;
    var begun := Ticked(ApplyConfig(h, route), signedIn, catalog);
    assert begun == Applied(h, route, signedIn, catalog).0;
    if Spoils(h, route) {
      SpoiledTick(h, route, signedIn, catalog);
      IdleTicks(begun, ticks, catalog);
    } else {
      FirstTick(h, route, signedIn, catalog);
      TicksUntouched(begun, h, route, ticks, catalog);
      UntouchedIsUndone(Ticks(begun, ticks, catalog), h, route);
    }
  }

  /** The spoiled case is real: a numeric detail mode and a leftover journal under a blank model. */
  lemma BlankModelSpoils(h: Home, route: ConfigRoute, signedIn: bool, catalog: Catalog)
    requires h == Home(Some(Doc(map[], None, map[DETAIL_MODE := Raw("1")])), None, ClientMode(true, Some(DETAIL_PROSE), false))
    requires route == ConfigRoute(" ", "http://127.0.0.1:1/v1", true, "t", "c")
    ensures Applied(h, route, signedIn, catalog).1
    ensures Restored(Applied(h, route, signedIn, catalog).0).config != h.config
  {
    hide Ticked, Restored, ApplyConfig;
    assert " "[1..] == "";
    assert Spoils(h, route);
    RoundTripIff(h, route, signedIn, [], catalog);
    SpoiledTick(h, route, signedIn, catalog);
    RestoredEnds(Applied(h, route, signedIn, catalog).0);
  }

  lemma RestoredEnds(h: Home)
    ensures Restored(h).receipt.None? && (h.receipt.Some? ==> Restored(h).marker == NO_MODE)
    ensures h.marker == NO_MODE ==> Restored(h).marker == NO_MODE
  {
  }
}
