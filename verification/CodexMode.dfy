/**
 The local-mode guard over whole runs: while nobody is signed in the client never stays in
 the mode that needs an account, and a sign-in gives the user's own mode back.
 */
module CodexMode {
  import opened Wrappers
  import opened CodexConfig
  import opened CodexTakeover
  import opened CodexGuard

  function Mode(h: Home): Option<string> {
    DetailOf(Document(h.config))
  }

  const WORK := "STEPS_PROSE"
  const LOCAL := "STEPS_COMMANDS"

  /** The mode the user wants: the one in place, or the one the journal remembers behind the local mode. */
  function Wanted(h: Home): Option<string> {
    if Mode(h) == Some(LOCAL) && h.marker.active then h.marker.original
    else if Mode(h) == Some(LOCAL) && h.marker.rememberedProse then Some(WORK)
    else Mode(h)
  }

  predicate Journalled(h: Home) {
    h.marker.active || h.marker.rememberedProse
  }

  /** A tick that forgets the user's choice: one that pays an unapplied journal back over it, or into a journal about another mode. */
  predicate Forgets(h: Home, signedIn: bool, catalog: Catalog) {
    h.config.Some? &&
    if IsApplied(h, catalog) then !signedIn && Mode(h) == Some(WORK) && h.marker.active && h.marker.original != Some(WORK)
    else Journalled(h) && Mode(h) != Some(LOCAL) && Mode(h) != if h.marker.active then h.marker.original else Some(WORK)
  }

  lemma ModesAre()
    ensures WORK == DETAIL_PROSE && LOCAL == DETAIL_LOCAL && WORK != LOCAL
  {
    ModesDiffer();
  }

  lemma WrittenMode(doc: Doc, mode: Option<string>)
    ensures DetailOf(WithDetail(doc, mode)) == mode
    ensures WithDetail(doc, mode).top == doc.top && WithDetail(doc, mode).providers == doc.providers
    ensures SameDesktopButDetail(WithDetail(doc, mode), doc)
  {
    DetailOnly(doc, mode);
  }

  /** A tick keeps the mode that the user wants, exactly if it is not a forgetting one. */
  lemma TickKeepsWantedIff(h: Home, signedIn: bool, catalog: Catalog)
    ensures Wanted(Ticked(h, signedIn, catalog)) == Wanted(h) <==> !Forgets(h, signedIn, catalog)
  {
    ModesAre();
    if h.config.Some? {
      var (detail, _) := Guarded(Mode(h), h.marker, IsApplied(h, catalog), signedIn);
      WrittenMode(h.config.value, detail);
    }
  }

  /** While applied and signed out, a tick never leaves the client in the mode that needs an account. */
  lemma SignedOutIsNotWork(h: Home, catalog: Catalog)
    requires IsApplied(h, catalog)
    ensures var t := Ticked(h, false, catalog);
            && Mode(t) == (if Mode(h) == Some(WORK) then Some(LOCAL) else Mode(h))
            && (Mode(h) == Some(WORK) && !h.marker.active ==> t.marker == ClientMode(true, Some(WORK), false))
  {
    ModesAre();
    if h.config.Some? {
      var (detail, _) := Guarded(Mode(h), h.marker, true, false);
      WrittenMode(h.config.value, detail);
    }
  }

  /** While applied and signed in, a tick puts the wanted mode in place and keeps no journal. */
  lemma SignedInIsWanted(h: Home, catalog: Catalog)
    requires IsApplied(h, catalog)
    ensures var t := Ticked(h, true, catalog); Mode(t) == Wanted(h) && (t.marker == NO_MODE || (t == h && !Journalled(h)))
  {
    ModesAre();
    if h.config.Some? {
      var (detail, _) := Guarded(Mode(h), h.marker, true, true);
      WrittenMode(h.config.value, detail);
    }
  }

  // Runs of ticks, and of choices the user makes in between.

  datatype Event = Tick(signedIn: bool) | Choose(mode: Option<string>)

  function Act(h: Home, event: Event, catalog: Catalog): Home {
    match event
    case Tick(signedIn) => Ticked(h, signedIn, catalog)
    case Choose(mode) => h.(config := DetailWritten(h.config, mode))
  }

  function Run(h: Home, events: seq<Event>, catalog: Catalog): Home {
    if events == [] then h else Act(Run(h, events[..|events| - 1], catalog), events[|events| - 1], catalog)
  }

  /**
   What the user chose last, or had at first. A choice of the local mode while a journal is
   kept cannot be told from the guard's own.
   */
  function LastChoice(h: Home, events: seq<Event>, catalog: Catalog): Option<string> {
    if events == [] then Mode(h)
    else
      var init, last := events[..|events| - 1], events[|events| - 1];
      if last.Tick? then LastChoice(h, init, catalog)
      else if last.mode == Some(LOCAL) && Journalled(Run(h, init, catalog)) then Some(WORK)
      else last.mode
  }

  /** Applied, with a config, and a journal as the guard writes it, if any. */
  predicate Guarding(h: Home, catalog: Catalog) {
    && IsApplied(h, catalog) && h.config.Some?
    && (h.marker == NO_MODE || h.marker == ClientMode(true, Some(WORK), false))
  }

  lemma ActGuards(h: Home, event: Event, catalog: Catalog)
    requires Guarding(h, catalog)
    ensures Guarding(Act(h, event, catalog), catalog)
    ensures var now := Act(h, event, catalog);
            Wanted(now) == if event.Tick? then Wanted(h) else if event.mode == Some(LOCAL) && Journalled(h) then Some(WORK) else event.mode
    ensures var (doc, now) := (h.config.value, Act(h, event, catalog).config.value);
            now.top == doc.top && now.providers == doc.providers && SameDesktopButDetail(now, doc)
  {
    ModesAre();
    match event
    case Tick(signedIn) =>
      TickKeepsStatus(h, signedIn, catalog);
      TickKeepsWantedIff(h, signedIn, catalog);
      var (detail, _) := Guarded(Mode(h), h.marker, true, signedIn);
      WrittenMode(h.config.value, detail);
    case Choose(mode) =>
      WrittenMode(h.config.value, mode);
  }

  lemma {:induction false} RunGuards(h: Home, events: seq<Event>, catalog: Catalog)
    requires Guarding(h, catalog) && !Journalled(h)
    ensures var t := Run(h, events, catalog);
            && Guarding(t, catalog) && Wanted(t) == LastChoice(h, events, catalog)
            && t == h.(config := t.config, marker := t.marker)
            && t.config.value.top == h.config.value.top && t.config.value.providers == h.config.value.providers
            && SameDesktopButDetail(t.config.value, h.config.value)
  {
    if events == [] {
    } else {
      hide Guarding, Wanted, IsApplied, Guarded;
      var init := events[..|events| - 1];
      RunGuards(h, init, catalog);
      ActGuards(Run(h, init, catalog), events[|events| - 1], catalog);
    }
  }

  /**
   Over every run of ticks, signed in or out, with choices of the user in between: a tick
   signed in ends in the mode the user chose last and with an empty journal, and nothing else
   in the document has changed. A tick signed out does not end in the mode that needs an account.
   */
  lemma ModeIsTheUsers(h: Home, events: seq<Event>, catalog: Catalog)
    requires IsApplied(h, catalog) && h.config.Some? && h.marker == NO_MODE
    ensures var t := Run(h, events + [Tick(true)], catalog);
            && Mode(t) == LastChoice(h, events, catalog) && t.marker == NO_MODE && t.receipt == h.receipt && t.config.Some?
            && t.config.value.top == h.config.value.top && t.config.value.providers == h.config.value.providers
            && SameDesktopButDetail(t.config.value, h.config.value)
    ensures Mode(Run(h, events + [Tick(false)], catalog)) != Some(WORK)
  {
    hide IsApplied, Guarded;
    RunGuards(h, events, catalog);
    RunGuards(h, events + [Tick(true)], catalog);
    var t := Run(h, events, catalog);
    assert (events + [Tick(true)])[..|events|] == events && (events + [Tick(false)])[..|events|] == events;
    ModesAre();
    SignedInIsWanted(t, catalog);
    SignedOutIsNotWork(t, catalog);
  }

  // Ticks alone.

  /** Nothing has changed, or the guard holds the local mode for the user's. */
  ghost predicate Held(h: Home, t: Home)
    requires h.config.Some?
  {
    || t == h
    || (Mode(h) == Some(WORK)
        && t == h.(config := Some(WithDetail(h.config.value, Some(LOCAL))), marker := ClientMode(true, Some(WORK), false)))
  }

  lemma DetailBack(doc: Doc)
    requires DetailOf(doc) == Some(WORK)
    ensures WithDetail(WithDetail(doc, Some(LOCAL)), Some(WORK)) == doc
  {
    ModesAre();
    assert doc.desktop[DETAIL_MODE := Str(LOCAL)][DETAIL_MODE := Str(WORK)] == doc.desktop;
  }

  lemma TickHolds(h: Home, t: Home, signedIn: bool, catalog: Catalog)
    requires IsApplied(h, catalog) && h.config.Some? && h.marker == NO_MODE && Held(h, t)
    ensures Held(h, Ticked(t, signedIn, catalog)) && (signedIn ==> Ticked(t, signedIn, catalog) == h)
  {
    ModesAre();
    if Mode(h) == Some(WORK) {
      DetailBack(h.config.value);
    }
    WrittenMode(h.config.value, Some(LOCAL));
  }

  /** Any ticks, then one signed in: config, receipt and journal are exactly what they were. */
  lemma {:induction false} TicksGiveBack(h: Home, events: seq<Event>, catalog: Catalog)
    requires IsApplied(h, catalog) && h.config.Some? && h.marker == NO_MODE
    requires forall i | 0 <= i < |events| :: events[i].Tick?
    ensures Held(h, Run(h, events, catalog))
    ensures Run(h, events + [Tick(true)], catalog) == h
  {
    assert (events + [Tick(true)])[..|events|] == events;
    if events != [] {
      var init := events[..|events| - 1];
      TicksGiveBack(h, init, catalog);
      TickHolds(h, Run(h, init, catalog), events[|events| - 1].signedIn, catalog);
    }
    TickHolds(h, Run(h, events, catalog), true, catalog);
  }
}
