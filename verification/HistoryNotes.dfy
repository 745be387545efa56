/** Where the system texts of a conversation go: which of them lead, and where the notes stand. */
module HistoryNotes {
  import opened Wrappers
  import opened History
  import opened HistoryProperties
  import opened HistoryContent

  // Which system texts lead.

  /** The messages before the first one of the conversation. */
  function Opening(messages: seq<InMessage>): seq<InMessage> {
    if messages == [] || messages[0].role != Some("system") then [] else [messages[0]] + Opening(messages[1..])
  }

  lemma {:induction false} OpeningSnoc(messages: seq<InMessage>, message: InMessage)
    ensures var before := Opening(messages);
            Opening(messages + [message]) == if before == messages && message.role == Some("system") then messages + [message] else before
    ensures |Opening(messages)| <= |messages|
  {
    if messages == [] {
      assert ([] + [message])[1..] == [];
    } else {
      assert (messages + [message])[1..] == messages[1..] + [message] && messages == [messages[0]] + messages[1..];
      OpeningSnoc(messages[1..], message);
    }
  }

  /** What one message does to the leading texts. */
  lemma StepLeads(p: Projection, n: nat, message: InMessage)
    requires MessageStep(p, n, message).Some?
    ensures var after := MessageStep(p, n, message).value;
            if message.role != Some("system") then !after.leading && after.leadingSystem == p.leadingSystem
            else after.leading == p.leading && after.leadingSystem == p.leadingSystem + if p.leading then Instruction(message) else []
  {
    hide Instruction, Notes;
    if message.role == Some("system") {
      SystemMeaning(message);
    } else {
      StepShape(p, n, message);
    }
  }

  lemma InstructionsSnoc(messages: seq<InMessage>, message: InMessage)
    ensures Instructions(messages + [message]) == Instructions(messages) + Instruction(message)
  {
    assert (messages + [message])[..|messages|] == messages;
  }

  lemma {:induction false} ProjectionLeads(messages: seq<InMessage>)
    requires Projections(messages).Some?
    ensures var p := Projections(messages).value; p.leadingSystem == Instructions(Opening(messages)) && (p.leading <==> Opening(messages) == messages)
  {
    if messages == [] {
    } else {
      hide MessageStep, Instruction, Instructions, Opening;
      var init, last := messages[..|messages| - 1], messages[|messages| - 1];
      assert messages == init + [last];
      ProjectionLeads(init);
      Snoc(init, last);
      OpeningSnoc(init, last);
      StepLeads(Projections(init).value, |init|, last);
      InstructionsSnoc(init, last);
    }
  }

  /** Leading are exactly the texts before the first conversation message. */
  lemma OpeningLeads(messages: seq<InMessage>)
    requires HistoryOf(messages).Some?
    ensures HistoryOf(messages).value.1 == Instructions(Opening(messages))
  {
    ProjectionLeads(messages);
  }

  // Where notes stand.

  /** Position `i` is the next conversation message after position `k`, and carries tool results. */
  ghost predicate InReply(messages: seq<InMessage>, k: nat, i: nat) {
    && Adjacent(messages, k, i) && !IsSystem(messages, i)
    && messages[i].role == Some("user") && Answers(messages[i].content)
  }

  /** Some block is a tool result. */
  ghost predicate Answers(content: Content) {
    content.Blocks? && exists i :: 0 <= i < |content.blocks| && content.blocks[i].ToolResultIn?
  }

  lemma AnswersIff(content: Content)
    ensures HasToolResult(content) <==> Answers(content)
  {
  }

  /** Some conversation message lies between these positions. */
  ghost predicate Parted(messages: seq<InMessage>, k: nat, n: nat) {
    exists j: nat :: k < j < n && j < |messages| && !IsSystem(messages, j)
  }

  /** A note stands behind exactly the output of earlier positions, and of the tool results it must not part from their calls. */
  ghost predicate NotePlaces(messages: seq<InMessage>, history: seq<ProjectedMessage>) {
    forall x, y | 0 <= x < |history| && 0 <= y < |history| && IsNote(messages, history[x]) && !IsNote(messages, history[y]) ::
      y < x <==> history[y].id.index < history[x].id.index || InReply(messages, history[x].id.index, history[y].id.index)
  }

  /** Two notes stand for system messages with conversation between them. */
  ghost predicate NotesMerged(messages: seq<InMessage>, history: seq<ProjectedMessage>) {
    forall x, y | 0 <= x < y < |history| && IsNote(messages, history[x]) && IsNote(messages, history[y]) ::
      Parted(messages, history[x].id.index, history[y].id.index)
  }

  ghost predicate InPlace(messages: seq<InMessage>, p: Projection) {
    && NotePlaces(messages, p.history) && NotesMerged(messages, p.history)
    && (forall x | 0 <= x < |p.history| && IsNote(messages, p.history[x]) :: Parted(messages, p.history[x].id.index, |messages|))
    && (forall i | 0 <= i < |p.pending| :: !Parted(messages, p.pending[i].index, |messages|))
  }

  /** Earlier positions look the same after one more message. */
  lemma EarlierSame(messages: seq<InMessage>, message: InMessage, k: nat, i: nat)
    requires k < |messages|
    ensures IsSystem(messages + [message], k) == IsSystem(messages, k)
    ensures i < |messages| ==> InReply(messages + [message], k, i) == InReply(messages, k, i)
    ensures i <= |messages| ==> Parted(messages + [message], k, i) == Parted(messages, k, i)
  {
    var now := messages + [message];
    assert forall j: nat | j < |messages| :: now[j] == messages[j] && IsSystem(now, j) == IsSystem(messages, j);
    if i <= |messages| && Parted(messages, k, i) {
      var j: nat :| k < j < i && j < |messages| && !IsSystem(messages, j);
      assert !IsSystem(now, j);
    }
    if i <= |messages| && Parted(now, k, i) {
      var j: nat :| k < j < i && j < |now| && !IsSystem(now, j);
      assert !IsSystem(messages, j);
    }
    if i < |messages| {
      assert Adjacent(now, k, i) <==> Adjacent(messages, k, i);
    }
  }

  /** The last message parts earlier positions from what comes. */
  lemma LastParts(messages: seq<InMessage>, message: InMessage, k: nat)
    requires k < |messages| && message.role != Some("system")
    ensures Parted(messages + [message], k, |messages| + 1)
    ensures InReply(messages + [message], k, |messages|) <==>
            !Parted(messages, k, |messages|) && message.role == Some("user") && Answers(message.content)
  {
    var now := messages + [message];
    assert !IsSystem(now, |messages|);
    assert forall j: nat | j < |messages| :: IsSystem(now, j) == IsSystem(messages, j);
  }

  lemma SystemDoesNotPart(messages: seq<InMessage>, message: InMessage, k: nat)
    requires k < |messages| && message.role == Some("system")
    ensures Parted(messages + [message], k, |messages| + 1) == Parted(messages, k, |messages|)
  {
    var now := messages + [message];
    EarlierSame(messages, message, k, |messages|);
    assert IsSystem(now, |messages|);
    if Parted(now, k, |messages| + 1) {
      var j: nat :| k < j < |messages| + 1 && j < |now| && !IsSystem(now, j);
      assert k < j < |messages|;
    }
    if Parted(now, k, |messages|) {
      var j: nat :| k < j < |messages| && j < |now| && !IsSystem(now, j);
      assert k < j < |messages| + 1;
    }
  }

  /** What a step finds, in terms of the positions that it works on. */
  ghost predicate Ready(messages: seq<InMessage>, history: seq<ProjectedMessage>, notes: seq<ProjectedMessage>) {
    && NotePlaces(messages, history) && NotesMerged(messages, history)
    && (forall x | 0 <= x < |history| :: history[x].id.index < |messages|)
    && (forall x | 0 <= x < |history| && IsNote(messages, history[x]) :: Parted(messages, history[x].id.index, |messages|))
    && |notes| <= 1
    && (forall x | 0 <= x < |notes| :: IsNote(messages, notes[x]) && !Parted(messages, notes[x].id.index, |messages|))
  }

  lemma PlacedReady(messages: seq<InMessage>, p: Projection)
    requires Placed(messages, p) && InPlace(messages, p)
    ensures Ready(messages, p.history, Notes(p.pending))
  {
    hide NotePlaces, NotesMerged, Parted, DistinctIds;
    if p.pending != [] {
      assert IsSystem(messages, p.pending[0].index);
    }
  }

  /** A waiting note stands for a later position than every output so far. */
  lemma WaitingIsLater(messages: seq<InMessage>, history: seq<ProjectedMessage>, notes: seq<ProjectedMessage>, y: nat)
    requires Ready(messages, history, notes) && notes != [] && y < |history|
    ensures !IsNote(messages, history[y]) ==> history[y].id.index < notes[0].id.index
    ensures IsNote(messages, history[y]) ==> Parted(messages, history[y].id.index, notes[0].id.index)
  {
    hide NotePlaces, NotesMerged;
    var k, i := notes[0].id.index, history[y].id.index;
    if !IsNote(messages, history[y]) {
      assert !IsSystem(messages, i);
    } else {
      var j: nat :| i < j < |messages| && !IsSystem(messages, j);
      assert IsSystem(messages, k) && !Parted(messages, k, |messages|);
    }
  }

  /** The waiting note behind everything. */
  lemma NotesBehind(messages: seq<InMessage>, history: seq<ProjectedMessage>, notes: seq<ProjectedMessage>)
    requires Ready(messages, history, notes)
    ensures NotePlaces(messages, history + notes) && NotesMerged(messages, history + notes)
  {
    hide Parted, InReply;
    if notes != [] {
      forall y | 0 <= y < |history|
        ensures !IsNote(messages, history[y]) ==> history[y].id.index < notes[0].id.index
        ensures IsNote(messages, history[y]) ==> Parted(messages, history[y].id.index, notes[0].id.index)
      {
        WaitingIsLater(messages, history, notes, y);
      }
    } else {
      assert history + notes == history;
    }
  }

  /** Old output under one more message. */
  lemma ReadyLater(messages: seq<InMessage>, message: InMessage, history: seq<ProjectedMessage>)
    requires NotePlaces(messages, history) && NotesMerged(messages, history)
    requires forall x | 0 <= x < |history| :: history[x].id.index < |messages|
    ensures NotePlaces(messages + [message], history) && NotesMerged(messages + [message], history)
    ensures forall x | 0 <= x < |history| :: IsNote(messages + [message], history[x]) == IsNote(messages, history[x])
  {
    hide Parted, InReply, IsSystem;
    var now := messages + [message];
    forall x, y | 0 <= x < |history| && 0 <= y < |history|
      ensures IsNote(now, history[x]) == IsNote(messages, history[x])
      ensures InReply(now, history[x].id.index, history[y].id.index) == InReply(messages, history[x].id.index, history[y].id.index)
      ensures Parted(now, history[x].id.index, history[y].id.index) == Parted(messages, history[x].id.index, history[y].id.index)
    {
      EarlierSame(messages, message, history[x].id.index, history[y].id.index);
    }
  }

  /** New output of the last position behind old output, and behind the notes that are not replies to it. */
  lemma OutBehind(messages: seq<InMessage>, history: seq<ProjectedMessage>, out: seq<ProjectedMessage>, n: nat)
    requires NotePlaces(messages, history) && NotesMerged(messages, history) && !IsSystem(messages, n)
    requires forall i | 0 <= i < |out| :: out[i].id.index == n
    requires forall x | 0 <= x < |history| :: history[x].id.index < n
    requires forall x | 0 <= x < |history| && IsNote(messages, history[x]) :: !InReply(messages, history[x].id.index, n)
    ensures NotePlaces(messages, history + out) && NotesMerged(messages, history + out)
  {
    hide Parted, InReply, IsSystem;
  }

  /** The waiting note behind the tool results it must not part from their calls. */
  lemma NoteBehindReply(messages: seq<InMessage>, history: seq<ProjectedMessage>, note: ProjectedMessage, n: nat)
    requires NotePlaces(messages, history) && NotesMerged(messages, history) && IsNote(messages, note) && note.id.index < n
    requires InReply(messages, note.id.index, n)
    requires forall y | 0 <= y < |history| && !IsNote(messages, history[y]) :: history[y].id.index < note.id.index || history[y].id.index == n
    requires forall y | 0 <= y < |history| && IsNote(messages, history[y]) :: Parted(messages, history[y].id.index, note.id.index)
    ensures NotePlaces(messages, history + [note]) && NotesMerged(messages, history + [note])
  {
    hide Parted, InReply, IsSystem;
  }

  /** One conversation message: its output and the waiting notes, in the order the program writes them. */
  lemma TurnInPlace(messages: seq<InMessage>, message: InMessage, history: seq<ProjectedMessage>, out: seq<ProjectedMessage>, notes: seq<ProjectedMessage>)
    requires Ready(messages, history, notes) && message.role.Some? && message.role != Some("system")
    requires forall i | 0 <= i < |out| :: out[i].id.index == |messages|
    ensures var now := messages + [message];
            var all := history + if message.role == Some("user") && HasToolResult(message.content) then out + notes else notes + out;
            NotePlaces(now, all) && NotesMerged(now, all)
  {
    hide NotePlaces, NotesMerged, Parted, InReply, HasToolResult, Answers;
    var n, now := |messages|, messages + [message];
    AnswersIff(message.content);
    NotesBehind(messages, history, notes);
    ReadyLater(messages, message, history);
    ReadyLater(messages, message, history + notes);
    assert !IsSystem(now, n);
    forall x | 0 <= x < |history|
      ensures IsNote(now, history[x]) ==> !InReply(now, history[x].id.index, n)
    {
      LastParts(messages, message, history[x].id.index);
    }
    if notes != [] {
      LastParts(messages, message, notes[0].id.index);
      EarlierSame(messages, message, notes[0].id.index, n);
    }
    if message.role == Some("user") && HasToolResult(message.content) {
      OutBehind(now, history, out, n);
      assert history + (out + notes) == history + out + notes;
      if notes != [] {
        forall y | 0 <= y < |history|
          ensures !IsNote(now, history[y]) ==> history[y].id.index < notes[0].id.index
          ensures IsNote(now, history[y]) ==> Parted(now, history[y].id.index, notes[0].id.index)
        {
          WaitingIsLater(messages, history, notes, y);
          EarlierSame(messages, message, history[y].id.index, notes[0].id.index);
        }
        NoteBehindReply(now, history + out, notes[0], n);
        assert notes == [notes[0]];
      } else {
        assert history + out + notes == history + out;
      }
    } else {
      OutBehind(now, history + notes, out, n);
      assert history + (notes + out) == history + notes + out;
    }
  }

  lemma StepInPlace(messages: seq<InMessage>, message: InMessage, p: Projection)
    requires Placed(messages, p) && InPlace(messages, p) && MessageStep(p, |messages|, message).Some?
    ensures InPlace(messages + [message], MessageStep(p, |messages|, message).value)
  {
    hide NotePlaces, NotesMerged, Parted, DistinctIds, MessageStep;
    var n, now, after := |messages|, messages + [message], MessageStep(p, |messages|, message).value;
    ReadyLater(messages, message, p.history);
    if message.role == Some("system") {
      SystemWaits(p, n, message);
      forall k: nat | k < n
        ensures Parted(now, k, |now|) == Parted(messages, k, n)
      {
        SystemDoesNotPart(messages, message, k);
      }
      NothingBetween(now, n);
      forall i | 0 <= i < |p.pending|
        ensures p.pending[i].index < n
      {
        assert IsSystem(messages, p.pending[i].index);
      }
    } else {
      StepShape(p, n, message);
      PlacedReady(messages, p);
      RoleOfTurn(p, n, message);
      TurnInPlace(messages, message, p.history, Turn(n, message).value, Notes(p.pending));
      forall k: nat | k < n
        ensures Parted(now, k, |now|)
      {
        LastParts(messages, message, k);
      }
      assert !IsSystem(now, n);
      assert forall x | 0 <= x < |after.history| && IsNote(now, after.history[x]) :: after.history[x].id.index < n;
    }
  }

  lemma NothingBetween(messages: seq<InMessage>, n: nat)
    ensures !Parted(messages, n, n + 1)
  {
  }

  lemma SystemWaits(p: Projection, n: nat, message: InMessage)
    requires message.role == Some("system") && MessageStep(p, n, message).Some?
    ensures var after := MessageStep(p, n, message).value;
            after.history == p.history && (after.pending == p.pending || exists text :: after.pending == p.pending + [Pending(n, text)])
  {
  }

  lemma {:induction false} ProjectionInPlace(messages: seq<InMessage>)
    requires Projections(messages).Some?
    ensures InPlace(messages, Projections(messages).value)
  {
    if messages == [] {
    } else {
      hide InPlace;
      var init, last := messages[..|messages| - 1], messages[|messages| - 1];
      assert messages == init + [last];
      ProjectionInPlace(init);
      ProjectionPlaced(init);
      Snoc(init, last);
      StepInPlace(init, last, Projections(init).value);
    }
  }

  /**
   The order of the whole history: a note stands behind exactly the output of all earlier
   positions and, if the next conversation message answers tool calls, of that one. System
   messages without conversation between them share one note.
   */
  lemma NotesAreInPlace(messages: seq<InMessage>)
    requires HistoryOf(messages).Some?
    ensures NotePlaces(messages, HistoryOf(messages).value.0) && NotesMerged(messages, HistoryOf(messages).value.0)
  {
    hide NotePlaces, NotesMerged;
    ProjectionInPlace(messages);
    ProjectionPlaced(messages);
    var p := Projections(messages).value;
    PlacedReady(messages, p);
    NotesBehind(messages, p.history, Notes(p.pending));
  }

  // Which message a note is named after.

  /** A system text that has to wait: behind the first conversation message. */
  ghost predicate Waits(messages: seq<InMessage>, k: nat) {
    IsSystem(messages, k) && Instruction(messages[k]) != [] && exists i: nat :: i < k && !IsSystem(messages, i)
  }

  /** Position `k` is that of the first text that waits since the last conversation message before it. */
  ghost predicate FirstWaiting(messages: seq<InMessage>, k: nat) {
    Waits(messages, k) && forall j: nat | j < k && Waits(messages, j) :: Parted(messages, j, k)
  }

  ghost predicate NotesNamed(messages: seq<InMessage>, history: seq<ProjectedMessage>) {
    forall x | 0 <= x < |history| && IsNote(messages, history[x]) :: history[x].id.ordinal == 0 && FirstWaiting(messages, history[x].id.index)
  }

  /** The texts still waiting begin with the first. */
  ghost predicate Queued(messages: seq<InMessage>, p: Projection) {
    && NotesNamed(messages, p.history)
    && (p.pending != [] ==> Waits(messages, p.pending[0].index) && !Parted(messages, p.pending[0].index, |messages|))
    && (forall j: nat | j < |messages| && Waits(messages, j) && !Parted(messages, j, |messages|) ::
          p.pending != [] && p.pending[0].index <= j)
  }

  lemma WaitsLater(messages: seq<InMessage>, message: InMessage, k: nat)
    requires k < |messages|
    ensures Waits(messages + [message], k) == Waits(messages, k)
    ensures FirstWaiting(messages + [message], k) == FirstWaiting(messages, k)
  {
    var now := messages + [message];
    assert forall i: nat | i < |messages| :: now[i] == messages[i] && IsSystem(now, i) == IsSystem(messages, i);
    assert forall j: nat | j <= k :: Waits(now, j) == Waits(messages, j);
    forall j: nat | j < k
      ensures Parted(now, j, k) == Parted(messages, j, k)
    {
      EarlierSame(messages, message, j, k);
    }
  }

  lemma NamedLater(messages: seq<InMessage>, message: InMessage, history: seq<ProjectedMessage>)
    requires NotesNamed(messages, history) && forall x | 0 <= x < |history| :: history[x].id.index < |messages|
    ensures NotesNamed(messages + [message], history)
  {
    hide FirstWaiting;
    forall x | 0 <= x < |history| && IsNote(messages + [message], history[x])
      ensures history[x].id.ordinal == 0 && FirstWaiting(messages + [message], history[x].id.index)
    {
      WaitsLater(messages, message, history[x].id.index);
      EarlierSame(messages, message, history[x].id.index, 0);
    }
  }

  /** The note for the waiting texts is named after the first. */
  lemma QueueNamed(messages: seq<InMessage>, p: Projection)
    requires Queued(messages, p)
    ensures NotesNamed(messages, Notes(p.pending))
  {
    if p.pending != [] {
      var k, n := p.pending[0].index, |messages|;
      forall j: nat | j < k && Waits(messages, j)
        ensures Parted(messages, j, k)
      {
        assert Parted(messages, j, n);
        var i: nat :| j < i < n && i < |messages| && !IsSystem(messages, i);
        assert IsSystem(messages, k) && !Parted(messages, k, n);
      }
    }
  }

  lemma NamedConcat(messages: seq<InMessage>, a: seq<ProjectedMessage>, b: seq<ProjectedMessage>)
    requires NotesNamed(messages, a) && NotesNamed(messages, b)
    ensures NotesNamed(messages, a + b)
  {
    hide FirstWaiting, IsNote;
  }

  lemma TurnNamed(messages: seq<InMessage>, out: seq<ProjectedMessage>, n: nat)
    requires !IsSystem(messages, n) && forall i | 0 <= i < |out| :: out[i].id.index == n
    ensures NotesNamed(messages, out)
  {
    hide FirstWaiting;
  }

  /** A conversation message empties the queue. */
  lemma TurnQueued(messages: seq<InMessage>, message: InMessage, p: Projection)
    requires Placed(messages, p) && Queued(messages, p) && message.role != Some("system") && MessageStep(p, |messages|, message).Some?
    ensures Queued(messages + [message], MessageStep(p, |messages|, message).value)
  {
    hide NotesNamed, Parted, Waits, MessageStep, DistinctIds, Turn;
    var n, now := |messages|, messages + [message];
    StepShape(p, n, message);
    var out, notes := Turn(n, message).value, Notes(p.pending);
    Earlier(messages, p);
    NamedLater(messages, message, p.history);
    QueueNamed(messages, p);
    NotesEarlier(messages, p);
    NamedLater(messages, message, notes);
    assert !IsSystem(now, n);
    TurnNamed(now, out, n);
    NamedConcat(now, out, notes);
    NamedConcat(now, notes, out);
    NamedConcat(now, p.history, out + notes);
    NamedConcat(now, p.history, notes + out);
    forall j: nat | j < |now| && Waits(now, j)
      ensures Parted(now, j, |now|)
    {
      WaitingIsSystem(now, j);
      LastParts(messages, message, j);
    }
  }

  lemma WaitingIsSystem(messages: seq<InMessage>, j: nat)
    requires Waits(messages, j)
    ensures IsSystem(messages, j)
  {
  }

  lemma NotesEarlier(messages: seq<InMessage>, p: Projection)
    requires Placed(messages, p)
    ensures forall m <- Notes(p.pending) :: m.id.index < |messages|
  {
    if p.pending != [] {
      assert IsSystem(messages, p.pending[0].index);
    }
  }

  /** A system message joins the queue if it has a text and the conversation has begun. */
  lemma SystemQueued(messages: seq<InMessage>, message: InMessage, p: Projection)
    requires Placed(messages, p) && Queued(messages, p) && message.role == Some("system") && MessageStep(p, |messages|, message).Some?
    requires p.leading <==> Opening(messages) == messages
    ensures Queued(messages + [message], MessageStep(p, |messages|, message).value)
  {
    hide NotesNamed, Parted, Waits, Opening, MessageStep, Placed, FirstWaiting;
    Earlier(messages, p);
    NamedLater(messages, message, p.history);
    SystemJoins(messages, message, p);
    FirstStays(messages, message, p);
    RestBehindFirst(messages, message, p, MessageStep(p, |messages|, message).value.pending);
  }

  /** The first waiting text goes on waiting. */
  lemma FirstStays(messages: seq<InMessage>, message: InMessage, p: Projection)
    requires Placed(messages, p) && Queued(messages, p) && message.role == Some("system")
    ensures var (n, now) := (|messages|, messages + [message]);
            && !Parted(now, n, |now|)
            && (p.pending != [] ==> Waits(now, p.pending[0].index) && !Parted(now, p.pending[0].index, |now|))
  {
    hide NotesNamed, Parted, Waits, DistinctIds;
    if p.pending != [] {
      assert IsSystem(messages, p.pending[0].index);
      WaitsLater(messages, message, p.pending[0].index);
      SystemDoesNotPart(messages, message, p.pending[0].index);
    }
    NothingBetween(messages + [message], |messages|);
  }

  /** All that wait stand behind the first. */
  lemma RestBehindFirst(messages: seq<InMessage>, message: InMessage, p: Projection, pending: seq<Pending>)
    requires Queued(messages, p) && message.role == Some("system")
    requires if Waits(messages + [message], |messages|) then exists text :: pending == p.pending + [Pending(|messages|, text)]
             else pending == p.pending
    ensures var now := messages + [message];
            forall j: nat | j < |now| && Waits(now, j) && !Parted(now, j, |now|) :: pending != [] && pending[0].index <= j
  {
    hide NotesNamed, Parted, Waits, IsSystem;
    var n, now := |messages|, messages + [message];
    forall j: nat | j < |now| && Waits(now, j) && !Parted(now, j, |now|)
      ensures pending != [] && pending[0].index <= j
    {
      if j < n {
        WaitsLater(messages, message, j);
        SystemDoesNotPart(messages, message, j);
      } else if p.pending != [] {
        FirstEarlier(messages, p);
      }
    }
  }

  lemma FirstEarlier(messages: seq<InMessage>, p: Projection)
    requires Queued(messages, p) && p.pending != []
    ensures p.pending[0].index < |messages|
  {
    hide NotesNamed, Parted;
  }

  lemma SystemJoins(messages: seq<InMessage>, message: InMessage, p: Projection)
    requires message.role == Some("system") && MessageStep(p, |messages|, message).Some?
    requires p.leading <==> Opening(messages) == messages
    ensures var (now, after) := (messages + [message], MessageStep(p, |messages|, message).value);
            && after.history == p.history
            && if Waits(now, |messages|) then exists text :: after.pending == p.pending + [Pending(|messages|, text)]
               else after.pending == p.pending
  {
    hide Instruction, Opening, SystemText;
    var n, now := |messages|, messages + [message];
    SystemMeaning(message);
    assert now[n] == message && forall i: nat | i < n :: IsSystem(now, i) == IsSystem(messages, i);
    OpeningIsAll(messages);
    if p.leading {
      assert !Waits(now, n);
    } else {
      var i: nat :| i < n && !IsSystem(messages, i);
      assert !IsSystem(now, i);
    }
  }

  /** The opening is everything exactly if no conversation message has come. */
  lemma {:induction false} OpeningIsAll(messages: seq<InMessage>)
    ensures Opening(messages) == messages <==> forall i: nat | i < |messages| :: IsSystem(messages, i)
  {
    if messages != [] {
      var tail := messages[1..];
      OpeningIsAll(tail);
      assert messages == [messages[0]] + tail;
      assert forall i: nat | i < |tail| :: IsSystem(tail, i) == IsSystem(messages, i + 1);
      assert forall i: nat | 0 < i < |messages| :: IsSystem(messages, i) == IsSystem(tail, i - 1);
      assert !IsSystem(messages, 0) <==> messages[0].role != Some("system");
    }
  }

  lemma {:induction false} ProjectionQueued(messages: seq<InMessage>)
    requires Projections(messages).Some?
    ensures Queued(messages, Projections(messages).value)
  {
    if messages == [] {
    } else {
      hide Queued, MessageStep;
      var init, last := messages[..|messages| - 1], messages[|messages| - 1];
      assert messages == init + [last];
      ProjectionQueued(init);
      ProjectionPlaced(init);
      ProjectionLeads(init);
      Snoc(init, last);
      if last.role == Some("system") {
        SystemQueued(init, last, Projections(init).value);
      } else {
        TurnQueued(init, last, Projections(init).value);
      }
    }
  }

  /** Every note has ordinal zero and the position of the first text that waited for it. */
  lemma NotesAreNamed(messages: seq<InMessage>)
    requires HistoryOf(messages).Some?
    ensures NotesNamed(messages, HistoryOf(messages).value.0)
  {
    hide NotesNamed;
    var p := Projections(messages).value;
    ProjectionQueued(messages);
    QueueNamed(messages, p);
    NamedConcat(messages, p.history, Notes(p.pending));
  }
}
