/**
 Recovery of the owned fields over whole runs of the Codex takeover: takeovers, restores,
 republishes, limit drops, guard ticks and edits in any order, with crashes between any two
 writes.
 */
module CodexRuns {
  import opened Wrappers
  import opened CodexConfig
  import opened CodexTakeover
  import opened CodexGuard

  /** What restoring has to give back. */
  datatype Originals = Originals(fields: Table, provider: Option<Table>)

  function OriginalsOf(doc: Doc): Originals {
    Originals(OwnedOf(doc), ProviderOf(doc))
  }

  ghost predicate Restores(h: Home, o: Originals) {
    OriginalsOf(Document(Restored(h).config)) == o
  }

  /** A receipt knows the originals; without one the document has them. */
  ghost predicate Good(h: Home, o: Originals) {
    if h.receipt.Some? then o.provider.None? && Recoverable(h, o.fields) else OriginalsOf(Document(h.config)) == o
  }

  datatype Action =
    | Apply(route: ConfigRoute, signedIn: bool)
    | CrashedApply(route: ConfigRoute, signedIn: bool, writes: nat)
    | Restore
    | CrashedRestore(writes: nat)
    | Republish(pointer: string)
    | CrashedRepublish(pointer: string)
    | DropLimits
    | CrashedDrop
    | Tick(signedIn: bool)
    | CrashedTicking(signedIn: bool)
    | Edit(config: Option<Doc>)

  /**
   An apply up to a number of writes: removal of the old receipt (if any), new receipt,
   config, and the two of the tick.
   */
  function Applying(h: Home, route: ConfigRoute, signedIn: bool, writes: nat, catalog: Catalog): Home {
    if writes == 0 || !ValidRoute(route) then h
    else if IsApplied(h, catalog) then
      if !SameRoute(Document(h.config), route) then h else if writes == 1 then DropReceipt(h) else Dropped(h)
    else if h.receipt.Some? && !Reverted(h, catalog) then h
    else if writes == 1 || External(Document(h.config)) then h.(receipt := None)
    else if writes == 2 then ApplyReceipt(h, route)
    else if writes == 3 then ApplyConfig(h, route)
    else if writes == 4 then CrashedTick(ApplyConfig(h, route), signedIn, catalog)
    else Ticked(ApplyConfig(h, route), signedIn, catalog)
  }

  lemma AllWrites(h: Home, route: ConfigRoute, signedIn: bool, writes: nat, catalog: Catalog)
    requires writes >= 5
    ensures Applying(h, route, signedIn, writes, catalog) == Applied(h, route, signedIn, catalog).0
  {
    hide Ticked, ApplyConfig, Dropped, IsApplied;
  }

  function Act(h: Home, action: Action, catalog: Catalog): Home {
    match action
    case Apply(route, signedIn) => Applied(h, route, signedIn, catalog).0
    case CrashedApply(route, signedIn, writes) => Applying(h, route, signedIn, writes, catalog)
    case Restore => Restored(h)
    case CrashedRestore(writes) => RestoreCrash(h, writes)
    case Republish(pointer) => Republished(h, pointer)
    case CrashedRepublish(pointer) => RepublishReceipt(h, pointer)
    case DropLimits => if CanDrop(h) then Dropped(h) else h
    case CrashedDrop => if CanDrop(h) then DropReceipt(h) else h
    case Tick(signedIn) => Ticked(h, signedIn, catalog)
    case CrashedTicking(signedIn) => CrashedTick(h, signedIn, catalog)
    case Edit(config) => h.(config := config)
  }

  /** Outside a takeover the user decides what the originals are. */
  function Next(h: Home, o: Originals, action: Action): Originals {
    if h.receipt.None? && action.Edit? then OriginalsOf(Document(action.config)) else o
  }

  /**
   The step that loses originals: a re-apply after a manual revert, while owned fields still
   differ from the originals, that stops behind the removal of the receipt (by a crash, or
   because another provider or profile is selected), or finds no file to rebase on.
   */
  predicate Loses(h: Home, action: Action, catalog: Catalog) {
    && (action.Apply? || (action.CrashedApply? && action.writes > 0))
    && ValidRoute(action.route) && Reverted(h, catalog)
    && OwnedOf(Document(h.config)) != OwnedOf(Document(h.receipt.value.original))
    && (h.config.None? || External(Document(h.config)) || (action.CrashedApply? && action.writes == 1))
  }

  lemma GoodRestores(h: Home, o: Originals)
    requires Good(h, o)
    ensures Restores(h, o)
  {
    if h.receipt.Some? {
      RestoreRecovers(h, o.fields);
    } else {
      OrphanedParts(h);
    }
  }

  /** Paying a leftover journal back touches the desktop table only. */
  lemma OrphanedParts(h: Home)
    requires h.receipt.None?
    ensures OriginalsOf(Document(Restored(h).config)) == OriginalsOf(Document(h.config)) && Restored(h).receipt.None?
  {
  }

  // Steps that keep the originals.

  lemma RestoreKeeps(h: Home, o: Originals, writes: nat)
    requires Good(h, o)
    ensures Good(Restored(h), o) && Good(RestoreCrash(h, writes), o)
  {
    GoodRestores(h, o);
    if h.receipt.None? {
      OrphanedParts(h);
    }
  }

  lemma TickKeeps(h: Home, o: Originals, signedIn: bool, catalog: Catalog)
    requires Good(h, o)
    ensures Good(Ticked(h, signedIn, catalog), o) && Good(CrashedTick(h, signedIn, catalog), o)
  {
    hide Guarded, IsApplied, Holds;
  }

  lemma PointerKeeps(h: Home, o: Originals, pointer: string)
    requires Good(h, o)
    ensures Good(Republished(h, pointer), o) && Good(RepublishReceipt(h, pointer), o)
  {
    OwnedKeys();
    if h.receipt.Some? {
      WritesOwnedOnly(h.receipt.value.applied, CATALOG_KEY, Str(pointer));
    }
  }

  lemma DropKeeps(h: Home, o: Originals)
    requires Good(h, o)
    ensures Good(Dropped(h), o) && Good(DropReceipt(h), o)
  {
    if h.receipt.Some? {
      WithoutLimitsRest(h.receipt.value.applied);
    }
  }

  lemma PublishedHasProvider(doc: Doc, route: ConfigRoute)
    ensures ProviderOf(Published(doc, route)).Some?
  {
  }

  /** A new receipt knows the owned fields of a document it was rebased to, or of the document itself. */
  lemma NewReceiptHolds(h: Home, route: ConfigRoute, o: Originals)
    requires Good(h, o) && o.provider.None?
    requires h.receipt.Some? && h.config.None? ==> o.fields == map[]
    ensures Good(ApplyReceipt(h, route), o) && Good(ApplyConfig(h, route), o)
  {
    var doc := Document(h.config);
    PublishedRest(doc, route);
    PublishedHasProvider(doc, route);
    if h.receipt.Some? {
      RestoredParts(doc, Document(h.receipt.value.original));
    }
    assert OwnedOf(EMPTY) == map[];
  }

  // The steps of apply.

  lemma RevertedProvider(h: Home, o: Originals, catalog: Catalog)
    requires Good(h, o) && Reverted(h, catalog)
    ensures ProviderOf(Document(h.config)).None? && o.provider.None?
    ensures OwnedOf(Document(h.receipt.value.original)) == o.fields
  {
  }

  /** Without the receipt, restoring leaves the owned fields as they are. */
  lemma Forgotten(h: Home, o: Originals)
    requires ProviderOf(Document(h.config)) == o.provider
    ensures Restores(h.(receipt := None), o) <==> OwnedOf(Document(h.config)) == o.fields
    ensures Good(h.(receipt := None), o) <==> OwnedOf(Document(h.config)) == o.fields
  {
    OrphanedParts(h.(receipt := None));
  }

  /** A new receipt for a missing file knows no owned field at all. */
  lemma NothingToRebase(h: Home, route: ConfigRoute)
    requires h.receipt.Some? && h.config.None?
    ensures Good(ApplyReceipt(h, route), Originals(map[], None)) && Good(ApplyConfig(h, route), Originals(map[], None))
  {
    PublishedRest(EMPTY, route);
    PublishedHasProvider(EMPTY, route);
    assert OwnedOf(EMPTY) == map[];
  }

  lemma ApplyingIff(h: Home, o: Originals, route: ConfigRoute, signedIn: bool, writes: nat, catalog: Catalog)
    requires Good(h, o)
    ensures var t := Applying(h, route, signedIn, writes, catalog);
            var loses := Loses(h, CrashedApply(route, signedIn, writes), catalog);
            (Restores(t, o) <==> !loses) && (!loses ==> Good(t, o))
  {
    hide Restores, Good, Ticked, CrashedTick, ApplyReceipt, ApplyConfig, Dropped, DropReceipt, IsApplied, External, OwnedOf;
    GoodRestores(h, o);
    var t := Applying(h, route, signedIn, writes, catalog);
    if writes == 0 || !ValidRoute(route) || (h.receipt.Some? && !IsApplied(h, catalog) && !Reverted(h, catalog)) {
      assert t == h;
    } else if IsApplied(h, catalog) {
      DropKeeps(h, o);
      GoodRestores(DropReceipt(h), o);
      GoodRestores(Dropped(h), o);
    } else {
      TakingIff(h, o, route, signedIn, writes, catalog);
    }
  }

  lemma TakingIff(h: Home, o: Originals, route: ConfigRoute, signedIn: bool, writes: nat, catalog: Catalog)
    requires Good(h, o) && writes > 0 && ValidRoute(route) && !IsApplied(h, catalog)
    requires h.receipt.Some? ==> Reverted(h, catalog)
    ensures var t := Applying(h, route, signedIn, writes, catalog);
            var loses := Loses(h, CrashedApply(route, signedIn, writes), catalog);
            (Restores(t, o) <==> !loses) && (!loses ==> Good(t, o))
  {
    hide Ticked, CrashedTick, ApplyReceipt, ApplyConfig, IsApplied, Restored, Published, RouteMatches, Recoverable, OwnedOf, Restores;
    var t := Applying(h, route, signedIn, writes, catalog);
    if h.receipt.Some? {
      RevertedProvider(h, o, catalog);
    }
    if writes == 1 || External(Document(h.config)) {
      Forgotten(h, o);
      assert t == h.(receipt := None);
    } else if h.receipt.Some? && h.config.None? {
      EmptyOwnsNothing();
      NothingToRebase(h, route);
      Taken(h, Originals(map[], None), route, signedIn, writes, catalog);
      OtherOriginals(t, Originals(map[], None), o);
    } else {
      NewReceiptHolds(h, route, o);
      Taken(h, o, route, signedIn, writes, catalog);
    }
  }

  lemma EmptyOwnsNothing()
    ensures OwnedOf(EMPTY) == map[]
  {
  }

  /** Restoring gives back one set of originals only. */
  lemma OtherOriginals(h: Home, now: Originals, o: Originals)
    requires Good(h, now)
    ensures Restores(h, o) <==> now == o
  {
    GoodRestores(h, now);
  }

  lemma Taken(h: Home, o: Originals, route: ConfigRoute, signedIn: bool, writes: nat, catalog: Catalog)
    requires Good(ApplyReceipt(h, route), o) && Good(ApplyConfig(h, route), o)
    requires writes > 1 && ValidRoute(route) && !IsApplied(h, catalog) && !External(Document(h.config))
    requires h.receipt.Some? ==> Reverted(h, catalog)
    ensures var t := Applying(h, route, signedIn, writes, catalog); Good(t, o) && Restores(t, o)
  {
    hide Good, Restores, Ticked, CrashedTick, ApplyReceipt, ApplyConfig, IsApplied, Reverted;
    TickKeeps(ApplyConfig(h, route), o, signedIn, catalog);
    GoodRestores(Applying(h, route, signedIn, writes, catalog), o);
  }

  /**
   After any step, crashed or not, restoring gives the originals back if and only if the step
   is not the losing re-apply.
   */
  lemma StepRestoresIff(h: Home, o: Originals, action: Action, catalog: Catalog)
    requires Good(h, o)
    ensures var t := Act(h, action, catalog);
            && (Restores(t, Next(h, o, action)) <==> !Loses(h, action, catalog))
            && (!Loses(h, action, catalog) ==> Good(t, Next(h, o, action)))
  {
    hide Good, Restores, Applied, Applying, Restored, Ticked, CrashedTick, RestoreCrash, Dropped, DropReceipt, Republished, RepublishReceipt;
    GoodRestores(h, o);
    match action
    case Apply(route, signedIn) =>
      AllWrites(h, route, signedIn, 5, catalog);
      ApplyingIff(h, o, route, signedIn, 5, catalog);
    case CrashedApply(route, signedIn, writes) => ApplyingIff(h, o, route, signedIn, writes, catalog);
    case Restore => RestoreKeeps(h, o, 0); GoodRestores(Restored(h), o);
    case CrashedRestore(writes) => RestoreKeeps(h, o, writes); GoodRestores(RestoreCrash(h, writes), o);
    case Republish(pointer) => PointerKeeps(h, o, pointer); GoodRestores(Republished(h, pointer), o);
    case CrashedRepublish(pointer) => PointerKeeps(h, o, pointer); GoodRestores(RepublishReceipt(h, pointer), o);
    case DropLimits => DropKeeps(h, o); GoodRestores(Dropped(h), o);
    case CrashedDrop => DropKeeps(h, o); GoodRestores(DropReceipt(h), o);
    case Tick(signedIn) => TickKeeps(h, o, signedIn, catalog); GoodRestores(Ticked(h, signedIn, catalog), o);
    case CrashedTicking(signedIn) => TickKeeps(h, o, signedIn, catalog); GoodRestores(CrashedTick(h, signedIn, catalog), o);
    case Edit(config) => Edited(h, o, config); GoodRestores(h.(config := config), Next(h, o, action));
  }

  lemma Edited(h: Home, o: Originals, config: Option<Doc>)
    requires Good(h, o)
    ensures Good(h.(config := config), Next(h, o, Edit(config)))
  {
  }

  // Runs.

  function Acts(h: Home, actions: seq<Action>, catalog: Catalog): Home {
    if actions == [] then h else Act(Acts(h, actions[..|actions| - 1], catalog), actions[|actions| - 1], catalog)
  }

  /** The owned fields and the provider entry as the user last had them outside a takeover. */
  function UserOriginals(h: Home, actions: seq<Action>, catalog: Catalog): Originals {
    if actions == [] then OriginalsOf(Document(h.config))
    else
      var init := actions[..|actions| - 1];
      Next(Acts(h, init, catalog), UserOriginals(h, init, catalog), actions[|actions| - 1])
  }

  ghost predicate NeverLoses(h: Home, actions: seq<Action>, catalog: Catalog) {
    actions == [] ||
    (NeverLoses(h, actions[..|actions| - 1], catalog)
     && !Loses(Acts(h, actions[..|actions| - 1], catalog), actions[|actions| - 1], catalog))
  }

  lemma {:induction false} RunGood(h: Home, actions: seq<Action>, catalog: Catalog)
    requires h.receipt.None? && NeverLoses(h, actions, catalog)
    ensures Good(Acts(h, actions, catalog), UserOriginals(h, actions, catalog))
  {
    if actions == [] {
    } else {
      hide Good, Restores, Act, Next, Loses;
      var init := actions[..|actions| - 1];
      RunGood(h, init, catalog);
      StepRestoresIff(Acts(h, init, catalog), UserOriginals(h, init, catalog), actions[|actions| - 1], catalog);
    }
  }

  /**
   Over whole runs: after any takeovers, restores, republishes, limit drops, guard ticks,
   edits and crashes, none of them the losing re-apply, one restore gives the owned fields
   and the provider entry as the user last had them outside a takeover. It keeps everything
   else as found, and the detail mode it writes is the receipt's original one.
   */
  lemma OwnedFieldsAreRecovered(h: Home, actions: seq<Action>, catalog: Catalog)
    requires h.receipt.None? && NeverLoses(h, actions, catalog)
    ensures var last := Acts(h, actions, catalog);
            var now := Document(Restored(last).config);
            && OriginalsOf(now) == UserOriginals(h, actions, catalog)
            && SameRest(now, Document(last.config)) && SameDesktopButDetail(now, Document(last.config))
            && (last.receipt.Some? ==> DetailOf(now) == DetailOf(Document(last.receipt.value.original)))
            && Restored(last).receipt.None? && Restored(last).marker.RestoreTarget().None?
  {
    var last, o := Acts(h, actions, catalog), UserOriginals(h, actions, catalog);
    RunGood(h, actions, catalog);
    GoodRestores(last, o);
    if last.receipt.Some? {
      RestoreRecovers(last, o.fields);
    } else {
      OrphanedRest(last);
    }
  }

  lemma OrphanedRest(h: Home)
    requires h.receipt.None?
    ensures SameRest(Document(Restored(h).config), Document(h.config)) && SameDesktopButDetail(Document(Restored(h).config), Document(h.config))
    ensures Restored(h).receipt.None? && Restored(h).marker.RestoreTarget().None?
  {
    var target := h.marker.RestoreTarget();
    if target.Some? && h.config.Some? {
      DetailOnly(h.config.value, target.value);
    }
  }

  // The losing re-apply is real.

  /** The route is put back by hand, `web_search` is still ours, and a profile is selected. */
  function HalfReverted(): Doc {
    Doc(map["profile" := Str("p"), WEB_SEARCH_KEY := Str("disabled")], None, map[])
  }

  lemma HalfRevertedParts()
    ensures var doc := HalfReverted();
            OwnedOf(doc) == map[WEB_SEARCH_KEY := Str("disabled")] && RouteMatches(doc, EMPTY) && External(doc)
    ensures OwnedOf(EMPTY) == map[] && ProviderOf(EMPTY).None?
  {
    OwnedKeys();
    assert |"profile"| == 7 && |MODEL_PROVIDER_KEY| == 14 && |CATALOG_KEY| == 18 && |WEB_SEARCH_KEY| == 10;
    assert |MODEL_KEY| == 5 && |LEGACY_GLOBAL_LIMITS[0]| == 20 && |LEGACY_GLOBAL_LIMITS[1]| == 30;
    assert "profile" !in OWNED_KEYS;
  }

  /** Refused or crashed, the re-apply leaves `web_search` in a file that had none, and no restore removes it. */
  lemma ReapplyCanLoseFields(h: Home, route: ConfigRoute, signedIn: bool, catalog: Catalog)
    requires h == Home(Some(HalfReverted()), Some(Receipt(None, Published(EMPTY, route))), NO_MODE)
    requires ValidRoute(route)
    ensures Good(h, OriginalsOf(EMPTY))
    ensures Loses(h, Apply(route, signedIn), catalog) && Loses(h, CrashedApply(route, signedIn, 1), catalog)
    ensures var now := Document(Restored(Act(h, Apply(route, signedIn), catalog)).config);
            OwnedOf(now) == map[WEB_SEARCH_KEY := Str("disabled")]
    ensures var now := Document(Restored(Act(h, CrashedApply(route, signedIn, 1), catalog)).config);
            OwnedOf(now) == map[WEB_SEARCH_KEY := Str("disabled")]
  {
    hide OwnedOf, Published, IsApplied;
    HalfRevertedParts();
    PublishedHasProvider(EMPTY, route);
    PublishedRest(EMPTY, route);
    NotApplied(h, catalog);
    assert WEB_SEARCH_KEY in OwnedOf(HalfReverted());
    assert Reverted(h, catalog);
    var t := Act(h, Apply(route, signedIn), catalog);
    assert t == Act(h, CrashedApply(route, signedIn, 1), catalog) == h.(receipt := None);
    OrphanedParts(t);
  }

  lemma NotApplied(h: Home, catalog: Catalog)
    requires h.receipt.Some? && ProviderOf(h.receipt.value.applied).Some? && ProviderOf(Document(h.config)).None?
    ensures !IsApplied(h, catalog)
  {
  }
}
