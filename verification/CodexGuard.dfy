/** The journal of the local-mode guard: fixed points, and crashes between the two writes of a tick. */
module CodexGuard {
  import opened Wrappers
  import opened CodexConfig
  import opened CodexTakeover

  /** Journals that the program writes: either form, not both at once. */
  predicate Journal(marker: ClientMode) {
    !(marker.active && marker.rememberedProse)
  }

  lemma ModesDiffer()
    ensures DETAIL_LOCAL != DETAIL_PROSE
  {
    assert |DETAIL_LOCAL| == 14 && |DETAIL_PROSE| == 11;
  }

  /** The status does not look at the desktop table, so a tick does not change it. */
  lemma TickKeepsStatus(h: Home, signedIn: bool, catalog: Catalog)
    ensures IsApplied(Ticked(h, signedIn, catalog), catalog) == IsApplied(h, catalog)
  {
  }

  /** One tick reaches a state that the same tick leaves alone. */
  lemma TickReachesFixedPoint(h: Home, signedIn: bool, catalog: Catalog)
    ensures var t := Ticked(h, signedIn, catalog); Ticked(t, signedIn, catalog) == t
  {
    ModesDiffer();
    TickKeepsStatus(h, signedIn, catalog);
    if h.config.Some? {
      var (detail, _) := Guarded(DetailOf(h.config.value), h.marker, IsApplied(h, catalog), signedIn);
      DetailOnly(h.config.value, detail);
    }
  }

  /** The tick writes both the config and the journal. */
  predicate WritesBoth(h: Home, signedIn: bool, catalog: Catalog) {
    Ticked(h, signedIn, catalog).config != h.config && Ticked(h, signedIn, catalog).marker != h.marker
  }

  /** The state between the two writes: the journal goes first when the guard takes over, the config first when it gives back. */
  function CrashedTick(h: Home, signedIn: bool, catalog: Catalog): Home {
    var t := Ticked(h, signedIn, catalog);
    if IsApplied(h, catalog) && !signedIn then h.(marker := t.marker) else h.(config := t.config)
  }

  /** The guard alone: crash between the two writes, then tick. */
  lemma GuardHeals(detail: Option<string>, marker: ClientMode, applied: bool, signedIn: bool, later: bool)
    requires var (d, m) := Guarded(detail, marker, applied, signedIn); d != detail && m != marker
    ensures var (d, m) := Guarded(detail, marker, applied, signedIn);
            var crashed := if applied && !signedIn then Guarded(detail, m, applied, later) else Guarded(d, marker, applied, later);
            var whole := Guarded(d, m, applied, later);
            && crashed.0 == whole.0 && crashed.1.RestoreTarget() == whole.1.RestoreTarget()
            && (Journal(marker) ==> crashed == whole)
  {
    ModesDiffer();
  }

  /**
   A crash between the two writes of a tick is invisible after the next tick, even if the user
   signed in or out meanwhile: same config, same mode to give back, and the same journal
   whenever the program wrote the old one.
   */
  lemma CrashedTickIsHealed(h: Home, signedIn: bool, later: bool, catalog: Catalog)
    requires WritesBoth(h, signedIn, catalog)
    ensures var crashed := Ticked(CrashedTick(h, signedIn, catalog), later, catalog);
            var whole := Ticked(Ticked(h, signedIn, catalog), later, catalog);
            && crashed.config == whole.config && crashed.marker.RestoreTarget() == whole.marker.RestoreTarget()
            && (Journal(h.marker) ==> crashed == whole)
  {
    var before, applied := DetailOf(Document(h.config)), IsApplied(h, catalog);
    var (detail, marker) := Guarded(before, h.marker, applied, signedIn);
    GuardHeals(before, h.marker, applied, signedIn, later);
    DetailOnly(h.config.value, detail);
    var doc := h.config.value;
    var (last, _) := Guarded(detail, marker, applied, later);
    if applied && !signedIn {
      DetailTwice(doc, detail, last);
    }
    TickKeepsStatus(h, signedIn, catalog);
    assert IsApplied(CrashedTick(h, signedIn, catalog), catalog) == applied;
  }

  lemma DetailTwice(doc: Doc, first: Option<string>, last: Option<string>)
    requires DetailOf(doc).Some? && last.Some?
    ensures WithDetail(WithDetail(doc, first), last) == WithDetail(doc, last)
  {
    DetailOnly(doc, first);
    assert WithDetail(WithDetail(doc, first), last).desktop == WithDetail(doc, last).desktop;
  }

  /** The guard never writes a journal in both forms. */
  lemma TickKeepsJournal(h: Home, signedIn: bool, catalog: Catalog)
    requires Journal(h.marker)
    ensures Journal(Ticked(h, signedIn, catalog).marker)
  {
  }
}
