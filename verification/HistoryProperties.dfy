/** What the projection keeps: the conversation, the system texts, the tool pairs and the ids. */
module HistoryProperties {
  import opened Wrappers
  import opened History

  predicate IsSystem(messages: seq<InMessage>, index: nat) {
    index < |messages| && messages[index].role == Some("system")
  }

  /** A projected message is a note when it carries the position of a system message. */
  predicate IsNote(messages: seq<InMessage>, m: ProjectedMessage) {
    IsSystem(messages, m.id.index)
  }

  /** The invariant of the projection after `messages`. */
  ghost predicate Placed(messages: seq<InMessage>, p: Projection) {
    && (forall i | 0 <= i < |p.history| :: p.history[i].id.index < |messages|)
    && (forall i | 0 <= i < |p.pending| :: IsSystem(messages, p.pending[i].index))
    && (forall i, j | 0 <= i < j < |p.pending| :: p.pending[i].index < p.pending[j].index)
    && (forall i, j | 0 <= i < |p.history| && 0 <= j < |p.pending| ::
          IsNote(messages, p.history[i]) ==> p.history[i].id.index < p.pending[j].index)
    && DistinctIds(p.history)
  }

  ghost predicate DistinctIds(history: seq<ProjectedMessage>) {
    forall i, j | 0 <= i < j < |history| :: history[i].id != history[j].id
  }

  /** What one inbound message becomes: its own position, ascending ordinals. */
  ghost predicate From(index: nat, out: seq<ProjectedMessage>) {
    && (forall i | 0 <= i < |out| :: out[i].id.index == index)
    && (forall i, j | 0 <= i < j < |out| :: out[i].id.ordinal < out[j].id.ordinal)
  }

  lemma {:induction false} UserBlocksFrom(index: nat, blocks: seq<InBlock>)
    ensures var s := UserBlocks(index, blocks);
            s.Some? ==>
              && From(index, s.value.out)
              && forall i | 0 <= i < |s.value.out| :: s.value.out[i].id.ordinal < s.value.sequence
  {
    if blocks == [] {
    } else {
      UserBlocksFrom(index, blocks[..|blocks| - 1]);
    }
  }

  lemma UserMessagesFrom(index: nat, content: Content)
    ensures UserMessages(index, content).Some? ==> From(index, UserMessages(index, content).value)
  {
    if content.Blocks? {
      UserBlocksFrom(index, content.blocks);
    }
  }

  /** What a conversation message becomes, at its position. */
  function Turn(index: nat, message: InMessage): Option<seq<ProjectedMessage>> {
    if message.role == Some("user") then UserMessages(index, message.content)
    else AssistantMessages(index, message.content)
  }

  lemma FlushedPlaced(messages: seq<InMessage>, p: Projection)
    requires Placed(messages, p)
    ensures Placed(messages, Flushed(p))
  {
    if p.pending != [] {
      var note := Notes(p.pending)[0];
      forall i | 0 <= i < |p.history|
        ensures p.history[i].id != note.id
      {
        assert IsSystem(messages, p.pending[0].index);
      }
    }
  }

  lemma AppendedPlaced(messages: seq<InMessage>, message: InMessage, p: Projection, out: seq<ProjectedMessage>)
    requires Placed(messages, p) && From(|messages|, out) && message.role != Some("system")
    ensures Placed(messages + [message], Appended(p, Some(out)).value)
  {
    var now := messages + [message];
    assert forall i: nat | i < |messages| :: IsSystem(now, i) == IsSystem(messages, i);
    forall i | 0 <= i < |p.pending|
      ensures IsSystem(now, p.pending[i].index)
    {
      assert IsSystem(messages, p.pending[i].index);
    }
  }

  /** A conversation message adds its output and all waiting notes, after it only if it carries tool results. */
  lemma StepShape(p: Projection, n: nat, message: InMessage)
    requires message.role != Some("system") && MessageStep(p, n, message).Some?
    ensures Turn(n, message).Some? && From(n, Turn(n, message).value)
    ensures var (out, notes) := (Turn(n, message).value, Notes(p.pending));
            var together := if message.role == Some("user") && HasToolResult(message.content) then out + notes else notes + out;
            MessageStep(p, n, message) == Some(Projection(p.history + together, p.leadingSystem, [], false))
  {
    UserMessagesFrom(n, message.content);
    var out, notes := Turn(n, message).value, Notes(p.pending);
    assert p.history + (out + notes) == p.history + out + notes && p.history + (notes + out) == p.history + notes + out;
  }

  lemma PendingStays(messages: seq<InMessage>, message: InMessage, pending: seq<Pending>)
    requires forall i | 0 <= i < |pending| :: IsSystem(messages, pending[i].index)
    ensures forall i | 0 <= i < |pending| :: IsSystem(messages + [message], pending[i].index)
  {
    forall i | 0 <= i < |pending|
      ensures IsSystem(messages + [message], pending[i].index)
    {
      assert IsSystem(messages, pending[i].index);
    }
  }

  lemma SystemPlaced(messages: seq<InMessage>, message: InMessage, p: Projection)
    requires Placed(messages, p) && message.role == Some("system") && MessageStep(p, |messages|, message).Some?
    ensures Placed(messages + [message], MessageStep(p, |messages|, message).value)
  {
    var now := messages + [message];
    assert forall i: nat | i < |messages| :: IsSystem(now, i) == IsSystem(messages, i);
    assert IsSystem(now, |messages|);
    PendingStays(messages, message, p.pending);
    forall i | 0 <= i < |p.pending|
      ensures p.pending[i].index < |messages|
    {
      assert IsSystem(messages, p.pending[i].index);
    }
  }

  lemma StepPlaced(messages: seq<InMessage>, message: InMessage, p: Projection)
    requires Placed(messages, p) && MessageStep(p, |messages|, message).Some?
    ensures Placed(messages + [message], MessageStep(p, |messages|, message).value)
  {
    if message.role == Some("system") {
      SystemPlaced(messages, message, p);
    } else {
      UserMessagesFrom(|messages|, message.content);
      var now, out := messages + [message], Turn(|messages|, message).value;
      if message.role == Some("user") && HasToolResult(message.content) {
        AppendedPlaced(messages, message, p, out);
        FlushedPlaced(now, Appended(p, Some(out)).value);
      } else {
        FlushedPlaced(messages, p);
        AppendedPlaced(messages, message, Flushed(p), out);
      }
    }
  }

  lemma {:induction false} ProjectionPlaced(messages: seq<InMessage>)
    requires Projections(messages).Some?
    ensures Placed(messages, Projections(messages).value)
  {
    if messages == [] {
    } else {
      var init := messages[..|messages| - 1];
      assert messages == init + [messages[|messages| - 1]];
      ProjectionPlaced(init);
      StepPlaced(init, messages[|messages| - 1], Projections(init).value);
    }
  }

  // Ids.

  function Decimal(n: nat): string {
    if n < 10 then [DIGITS[n]] else Decimal(n / 10) + [DIGITS[n % 10]]
  }

  const DIGITS := "0123456789"

  /** The id as the program writes it. */
  function Render(id: MessageId): string {
    "claude-message-" + (Decimal(id.index) + "-" + Decimal(id.ordinal))
  }

  lemma {:induction false} DecimalDigits(n: nat)
    ensures Decimal(n) != "" && forall i | 0 <= i < |Decimal(n)| :: Decimal(n)[i] != '-'
  {
    if n >= 10 {
      DecimalDigits(n / 10);
    }
  }

  lemma {:induction false} DecimalInjective(a: nat, b: nat)
    requires Decimal(a) == Decimal(b)
    ensures a == b
  {
    DecimalSplit(a);
    DecimalSplit(b);
    var da, db := Decimal(a), Decimal(b);
    assert |da| == 1 <==> a < 10;
    if a >= 10 {
      DecimalInjective(a / 10, b / 10);
    }
  }

  /** The last digit and the digits before it. */
  lemma DecimalSplit(n: nat)
    ensures var d := Decimal(n);
            && |d| > 0 && d[|d| - 1] == DIGITS[n % 10]
            && (n < 10 <==> |d| == 1) && (n >= 10 ==> d[..|d| - 1] == Decimal(n / 10))
  {
    DecimalDigits(n / 10);
  }

  lemma RenderInjective(x: MessageId, y: MessageId)
    requires Render(x) == Render(y)
    ensures x == y
  {
    var p := "claude-message-";
    var a, c := Decimal(x.index), Decimal(y.index);
    var l, r := a + "-" + Decimal(x.ordinal), c + "-" + Decimal(y.ordinal);
    assert l == (p + l)[|p|..] && r == (p + r)[|p|..];
    DecimalDigits(x.index);
    DecimalDigits(y.index);
    FirstDash(a, Decimal(x.ordinal), c, Decimal(y.ordinal));
    DecimalInjective(x.index, y.index);
    DecimalInjective(x.ordinal, y.ordinal);
  }

  lemma FirstDash(a: string, b: string, c: string, d: string)
    requires a + "-" + b == c + "-" + d
    requires forall i | 0 <= i < |a| :: a[i] != '-'
    requires forall i | 0 <= i < |c| :: c[i] != '-'
    ensures a == c && b == d
  {
    var l, r := a + "-" + b, c + "-" + d;
    assert l[|a|] == '-' && r[|c|] == '-';
    assert |a| == |c|;
    assert a == l[..|a|] && c == r[..|c|] && b == l[|a| + 1..] && d == r[|c| + 1..];
  }

  /** All message ids of an accepted conversation are different strings. */
  lemma IdsAreDistinct(messages: seq<InMessage>)
    requires HistoryOf(messages).Some?
    ensures var history := HistoryOf(messages).value.0;
            forall i, j | 0 <= i < j < |history| :: Render(history[i].id) != Render(history[j].id)
  {
    ProjectionPlaced(messages);
    FlushedPlaced(messages, Projections(messages).value);
    var history := HistoryOf(messages).value.0;
    forall i, j | 0 <= i < j < |history|
      ensures Render(history[i].id) != Render(history[j].id)
    {
      if Render(history[i].id) == Render(history[j].id) {
        RenderInjective(history[i].id, history[j].id);
      }
    }
  }

  // System messages do not interfere with the conversation.

  function WithoutSystem(messages: seq<InMessage>): seq<InMessage> {
    if messages == [] then []
    else
      var last := messages[|messages| - 1];
      WithoutSystem(messages[..|messages| - 1]) + if last.role == Some("system") then [] else [last]
  }

  /** The history without its notes and ids. */
  function Conversation(messages: seq<InMessage>, history: seq<ProjectedMessage>): seq<Projected> {
    if history == [] then []
    else
      var last := history[|history| - 1];
      Conversation(messages, history[..|history| - 1]) + if IsNote(messages, last) then [] else [last.content]
  }

  lemma {:induction false} ConversationConcat(messages: seq<InMessage>, a: seq<ProjectedMessage>, b: seq<ProjectedMessage>)
    ensures Conversation(messages, a + b) == Conversation(messages, a) + Conversation(messages, b)
  {
    hide IsNote;
    if b == [] {
      assert a + b == a;
    } else {
      ConversationConcat(messages, a, b[..|b| - 1]);
      assert (a + b)[..|a + b| - 1] == a + b[..|b| - 1];
    }
  }

  /** Later inbound messages do not change what earlier output is. */
  lemma {:induction false} ConversationLater(messages: seq<InMessage>, message: InMessage, history: seq<ProjectedMessage>)
    requires forall i | 0 <= i < |history| :: history[i].id.index < |messages|
    ensures Conversation(messages + [message], history) == Conversation(messages, history)
  {
    if history == [] {
    } else {
      ConversationLater(messages, message, history[..|history| - 1]);
    }
  }

  function Contents(out: seq<ProjectedMessage>): seq<Projected> {
    seq(|out|, i requires 0 <= i < |out| => out[i].content)
  }

  lemma ContentsConcat(a: seq<ProjectedMessage>, b: seq<ProjectedMessage>)
    ensures Contents(a + b) == Contents(a) + Contents(b)
  {
  }

  lemma {:induction false} NotesAreNotConversation(messages: seq<InMessage>, pending: seq<Pending>)
    requires forall i | 0 <= i < |pending| :: IsSystem(messages, pending[i].index)
    ensures Conversation(messages, Notes(pending)) == []
  {
  }

  lemma {:induction false} TurnIsConversation(messages: seq<InMessage>, index: nat, out: seq<ProjectedMessage>)
    requires From(index, out) && !IsSystem(messages, index)
    ensures Conversation(messages, out) == Contents(out)
  {
    if out == [] {
    } else {
      TurnIsConversation(messages, index, out[..|out| - 1]);
      assert Contents(out) == Contents(out[..|out| - 1]) + [out[|out| - 1].content];
    }
  }

  lemma {:induction false} UserBlocksElsewhere(i: nat, j: nat, blocks: seq<InBlock>)
    ensures var a, b := UserBlocks(i, blocks), UserBlocks(j, blocks);
            && a.Some? == b.Some?
            && (a.Some? ==> Contents(a.value.out) == Contents(b.value.out) && a.value.parts == b.value.parts
                            && a.value.sequence == b.value.sequence)
  {
    if blocks == [] {
    } else {
      var init, last := blocks[..|blocks| - 1], blocks[|blocks| - 1];
      UserBlocksElsewhere(i, j, init);
      if UserBlocks(i, init).Some? && UserBlocks(i, blocks).Some? && last.ToolResultIn? {
        var s, t := UserBlocks(i, init).value, UserBlocks(j, init).value;
        ResultElsewhere(i, j, s, t, ToolResultOf(last).value);
      }
    }
  }

  lemma ResultElsewhere(i: nat, j: nat, s: UserState, t: UserState, result: Projected)
    requires Contents(s.out) == Contents(t.out) && s.parts == t.parts && s.sequence == t.sequence
    ensures Contents(s.out + FlushedParts(i, s.sequence, s.parts) + [ProjectedMessage(MessageId(i, s.sequence + 1), result)]) ==
            Contents(t.out + FlushedParts(j, t.sequence, t.parts) + [ProjectedMessage(MessageId(j, t.sequence + 1), result)])
    ensures Contents(s.out + FlushedParts(i, s.sequence, s.parts)) == Contents(t.out + FlushedParts(j, t.sequence, t.parts))
  {
    ContentsConcat(s.out, FlushedParts(i, s.sequence, s.parts));
    ContentsConcat(t.out, FlushedParts(j, t.sequence, t.parts));
    ContentsConcat(s.out + FlushedParts(i, s.sequence, s.parts), [ProjectedMessage(MessageId(i, s.sequence + 1), result)]);
    ContentsConcat(t.out + FlushedParts(j, t.sequence, t.parts), [ProjectedMessage(MessageId(j, t.sequence + 1), result)]);
  }

  /** The position of a message only shows in ids. */
  lemma TurnElsewhere(i: nat, j: nat, message: InMessage)
    ensures Turn(i, message).Some? == Turn(j, message).Some?
    ensures Turn(i, message).Some? ==> Contents(Turn(i, message).value) == Contents(Turn(j, message).value)
  {
    if message.content.Blocks? {
      var blocks := message.content.blocks;
      UserBlocksElsewhere(i, j, blocks);
      if UserBlocks(i, blocks).Some? {
        ResultElsewhere(i, j, UserBlocks(i, blocks).value, UserBlocks(j, blocks).value, Parts([]));
      }
    }
  }

  /** Projecting with and without the system messages, in step. */
  ghost predicate Agree(messages: seq<InMessage>, p: Projection, q: Projection) {
    && q.pending == [] && q.leadingSystem == [] && q.leading == p.leading
    && Contents(q.history) == Conversation(messages, p.history)
  }

  lemma StepConversation(messages: seq<InMessage>, message: InMessage, p: Projection)
    requires Placed(messages, p) && MessageStep(p, |messages|, message).Some? && message.role != Some("system")
    ensures var now := messages + [message];
            var p' := MessageStep(p, |messages|, message).value;
            && Conversation(now, p'.history) == Conversation(messages, p.history) + Contents(Turn(|messages|, message).value)
            && !p'.leading && p'.pending == []
  {
    var n, now := |messages|, messages + [message];
    StepShape(p, n, message);
    var out, notes := Turn(n, message).value, Notes(p.pending);
    PendingStays(messages, message, p.pending);
    NotesAreNotConversation(now, p.pending);
    TurnIsConversation(now, n, out);
    ConversationLater(messages, message, p.history);
    ConversationTogether(now, p.history, out, notes);
  }

  lemma ConversationTogether(messages: seq<InMessage>, history: seq<ProjectedMessage>, out: seq<ProjectedMessage>, notes: seq<ProjectedMessage>)
    requires Conversation(messages, notes) == []
    ensures Conversation(messages, history + (out + notes)) == Conversation(messages, history) + Conversation(messages, out)
    ensures Conversation(messages, history + (notes + out)) == Conversation(messages, history) + Conversation(messages, out)
  {
    ConversationConcat(messages, out, notes);
    ConversationConcat(messages, notes, out);
    ConversationConcat(messages, history, out + notes);
    ConversationConcat(messages, history, notes + out);
    assert Conversation(messages, out) + [] == Conversation(messages, out);
    assert [] + Conversation(messages, out) == Conversation(messages, out);
  }

  lemma StepAgrees(messages: seq<InMessage>, message: InMessage, p: Projection, q: Projection, k: nat)
    requires Placed(messages, p) && MessageStep(p, |messages|, message).Some? && Agree(messages, p, q)
    requires message.role != Some("system")
    ensures MessageStep(q, k, message).Some?
    ensures Agree(messages + [message], MessageStep(p, |messages|, message).value, MessageStep(q, k, message).value)
  {
    StepConversation(messages, message, p);
    StepElsewhere(p, q, |messages|, k, message);
    ContentsConcat(q.history, Turn(k, message).value);
  }

  /** With nothing waiting, a message adds its output; whether it is accepted depends on the message alone. */
  lemma StepElsewhere(p: Projection, q: Projection, n: nat, k: nat, message: InMessage)
    requires message.role != Some("system") && MessageStep(p, n, message).Some? && q.pending == []
    ensures Turn(n, message).Some? && Turn(k, message).Some?
    ensures Contents(Turn(n, message).value) == Contents(Turn(k, message).value)
    ensures MessageStep(q, k, message) == Some(Projection(q.history + Turn(k, message).value, q.leadingSystem, [], false))
  {
    StepShape(p, n, message);
    TurnElsewhere(n, k, message);
    var out := Turn(k, message).value;
    assert q.history + [] == q.history && q.history + out + [] == q.history + out;
  }

  lemma {:induction false} ProjectionsAgree(messages: seq<InMessage>)
    requires Projections(messages).Some?
    ensures Projections(WithoutSystem(messages)).Some?
    ensures Agree(messages, Projections(messages).value, Projections(WithoutSystem(messages)).value)
  {
    if messages == [] {
    } else {
      var init, last := messages[..|messages| - 1], messages[|messages| - 1];
      assert messages == init + [last];
      ProjectionsAgree(init);
      ProjectionPlaced(init);
      Snoc(init, last);
      if last.role == Some("system") {
        SystemAgrees(init, last, Projections(init).value, Projections(WithoutSystem(init)).value);
      } else {
        Snoc(WithoutSystem(init), last);
        StepAgrees(init, last, Projections(init).value, Projections(WithoutSystem(init)).value, |WithoutSystem(init)|);
      }
    }
  }

  lemma Snoc(messages: seq<InMessage>, message: InMessage)
    ensures Projections(messages + [message]) ==
            match Projections(messages) case None => None case Some(p) => MessageStep(p, |messages|, message)
    ensures WithoutSystem(messages + [message]) ==
            if message.role == Some("system") then WithoutSystem(messages) else WithoutSystem(messages) + [message]
  {
    assert (messages + [message])[..|messages|] == messages;
    assert WithoutSystem(messages) + [] == WithoutSystem(messages);
  }

  lemma SystemAgrees(messages: seq<InMessage>, message: InMessage, p: Projection, q: Projection)
    requires Placed(messages, p) && MessageStep(p, |messages|, message).Some? && Agree(messages, p, q)
    requires message.role == Some("system")
    ensures Agree(messages + [message], MessageStep(p, |messages|, message).value, q)
  {
    ConversationLater(messages, message, p.history);
  }

  /** Deleting all system messages deletes the notes and changes nothing else but ids. */
  lemma SystemMessagesDoNotInterfere(messages: seq<InMessage>)
    requires HistoryOf(messages).Some?
    ensures var conversation := Conversation(messages, HistoryOf(messages).value.0);
            if WithoutSystem(messages) == [] then conversation == []
            else HistoryOf(WithoutSystem(messages)).Some?
                 && Contents(HistoryOf(WithoutSystem(messages)).value.0) == conversation
  {
    ProjectionsAgree(messages);
    ProjectionPlaced(messages);
    var p := Projections(messages).value;
    NotesAreNotConversation(messages, p.pending);
    ConversationConcat(messages, p.history, Notes(p.pending));
    var q := Projections(WithoutSystem(messages)).value;
    assert q.history + [] == q.history;
  }

  // Every system text is kept, in order.

  function SystemTexts(messages: seq<InMessage>): seq<string> {
    if messages == [] then []
    else
      var last := messages[|messages| - 1];
      var text := SystemText(last.content).GetOr("");
      SystemTexts(messages[..|messages| - 1]) + if last.role == Some("system") && text != "" then [text] else []
  }

  /** The text under the operator line of a note. */
  function Unnoted(part: Part): string {
    var mark := "[operator note from the client]\n";
    if part.TextPart? && mark <= part.text then part.text[|mark|..] else ""
  }

  function NoteTexts(messages: seq<InMessage>, history: seq<ProjectedMessage>): seq<string> {
    if history == [] then []
    else
      var last := history[|history| - 1];
      NoteTexts(messages, history[..|history| - 1]) + if IsNote(messages, last) then TextsOf(last.content) else []
  }

  function TextsOf(note: Projected): seq<string> {
    if note.Parts? then seq(|note.parts|, i requires 0 <= i < |note.parts| => Unnoted(note.parts[i])) else []
  }

  function PendingTexts(pending: seq<Pending>): seq<string> {
    seq(|pending|, i requires 0 <= i < |pending| => pending[i].text)
  }

  lemma {:induction false} NoteTextsConcat(messages: seq<InMessage>, a: seq<ProjectedMessage>, b: seq<ProjectedMessage>)
    ensures NoteTexts(messages, a + b) == NoteTexts(messages, a) + NoteTexts(messages, b)
  {
    hide IsNote, TextsOf;
    if b == [] {
      assert a + b == a;
    } else {
      NoteTextsConcat(messages, a, b[..|b| - 1]);
      assert (a + b)[..|a + b| - 1] == a + b[..|b| - 1];
    }
  }

  lemma {:induction false} NoteTextsLater(messages: seq<InMessage>, message: InMessage, history: seq<ProjectedMessage>)
    requires forall i | 0 <= i < |history| :: history[i].id.index < |messages|
    ensures NoteTexts(messages + [message], history) == NoteTexts(messages, history)
  {
    if history == [] {
    } else {
      NoteTextsLater(messages, message, history[..|history| - 1]);
    }
  }

  lemma {:induction false} TurnHasNoNotes(messages: seq<InMessage>, index: nat, out: seq<ProjectedMessage>)
    requires From(index, out) && !IsSystem(messages, index)
    ensures NoteTexts(messages, out) == []
  {
    if out == [] {
    } else {
      TurnHasNoNotes(messages, index, out[..|out| - 1]);
    }
  }

  lemma NotesKeepTexts(messages: seq<InMessage>, pending: seq<Pending>)
    requires forall i | 0 <= i < |pending| :: IsSystem(messages, pending[i].index)
    ensures NoteTexts(messages, Notes(pending)) == PendingTexts(pending)
  {
    if pending != [] {
      var note := Notes(pending)[0];
      assert Notes(pending)[..0] == [];
      var parts := note.content.parts;
      forall i | 0 <= i < |pending|
        ensures Unnoted(parts[i]) == pending[i].text
      {
        var mark := "[operator note from the client]\n";
        assert mark == OPERATOR_NOTE + "\n" && (mark + pending[i].text)[|mark|..] == pending[i].text;
      }
      assert TextsOf(note.content) == PendingTexts(pending);
    }
  }

  ghost predicate TextsKept(messages: seq<InMessage>, p: Projection) {
    && (p.leading ==> p.pending == [] && NoteTexts(messages, p.history) == [])
    && p.leadingSystem + NoteTexts(messages, p.history) + PendingTexts(p.pending) == SystemTexts(messages)
  }

  lemma StepTexts(messages: seq<InMessage>, message: InMessage, p: Projection)
    requires Placed(messages, p) && MessageStep(p, |messages|, message).Some? && message.role != Some("system")
    ensures var p' := MessageStep(p, |messages|, message).value;
            && p'.leadingSystem == p.leadingSystem && p'.pending == [] && !p'.leading
            && NoteTexts(messages + [message], p'.history) == NoteTexts(messages, p.history) + PendingTexts(p.pending)
  {
    var n, now := |messages|, messages + [message];
    StepShape(p, n, message);
    var out, notes := Turn(n, message).value, Notes(p.pending);
    PendingStays(messages, message, p.pending);
    NotesKeepTexts(now, p.pending);
    TurnHasNoNotes(now, n, out);
    NoteTextsLater(messages, message, p.history);
    NoteTextsTogether(now, p.history, out, notes);
  }

  lemma NoteTextsTogether(messages: seq<InMessage>, history: seq<ProjectedMessage>, out: seq<ProjectedMessage>, notes: seq<ProjectedMessage>)
    requires NoteTexts(messages, out) == []
    ensures NoteTexts(messages, history + (out + notes)) == NoteTexts(messages, history) + NoteTexts(messages, notes)
    ensures NoteTexts(messages, history + (notes + out)) == NoteTexts(messages, history) + NoteTexts(messages, notes)
  {
    NoteTextsConcat(messages, out, notes);
    NoteTextsConcat(messages, notes, out);
    NoteTextsConcat(messages, history, out + notes);
    NoteTextsConcat(messages, history, notes + out);
    assert NoteTexts(messages, notes) + [] == NoteTexts(messages, notes);
    assert [] + NoteTexts(messages, notes) == NoteTexts(messages, notes);
  }

  lemma {:induction false} ProjectionTexts(messages: seq<InMessage>)
    requires Projections(messages).Some?
    ensures TextsKept(messages, Projections(messages).value)
  {
    if messages == [] {
    } else {
      var init, last := messages[..|messages| - 1], messages[|messages| - 1];
      assert messages == init + [last];
      ProjectionTexts(init);
      ProjectionPlaced(init);
      Snoc(init, last);
      if last.role == Some("system") {
        SystemStepTexts(init, last, Projections(init).value);
      } else {
        StepTextsKept(init, last, Projections(init).value);
      }
    }
  }

  lemma StepTextsKept(messages: seq<InMessage>, message: InMessage, p: Projection)
    requires Placed(messages, p) && MessageStep(p, |messages|, message).Some? && message.role != Some("system")
    requires TextsKept(messages, p)
    ensures TextsKept(messages + [message], MessageStep(p, |messages|, message).value)
  {
    StepTexts(messages, message, p);
    SystemTextsSnoc(messages, message);
    Regroup(p.leadingSystem, NoteTexts(messages, p.history), PendingTexts(p.pending));
    assert PendingTexts([]) == [];
  }

  lemma SystemTextsSnoc(messages: seq<InMessage>, message: InMessage)
    ensures var text := SystemText(message.content).GetOr("");
            SystemTexts(messages + [message]) == SystemTexts(messages) + if message.role == Some("system") && text != "" then [text] else []
  {
    assert (messages + [message])[..|messages|] == messages;
  }

  lemma SystemStepTexts(messages: seq<InMessage>, message: InMessage, p: Projection)
    requires Placed(messages, p) && TextsKept(messages, p)
    requires message.role == Some("system") && MessageStep(p, |messages|, message).Some?
    ensures TextsKept(messages + [message], MessageStep(p, |messages|, message).value)
  {
    hide SystemText, SystemTexts, NoteTexts, DistinctIds, IsNote;
    SystemTextsSnoc(messages, message);
    NoteTextsLater(messages, message, p.history);
    var text := SystemText(message.content).value;
    if text != "" {
      assert PendingTexts(p.pending + [Pending(|messages|, text)]) == PendingTexts(p.pending) + [text];
    }
  }

  /** Leading texts, then the texts of the notes: exactly the non-empty system texts, in order. */
  lemma SystemTextsAreKept(messages: seq<InMessage>)
    requires HistoryOf(messages).Some?
    ensures var (history, leading) := HistoryOf(messages).value;
            leading + NoteTexts(messages, history) == SystemTexts(messages)
  {
    ProjectionTexts(messages);
    ProjectionPlaced(messages);
    TextsAtEnd(messages, Projections(messages).value);
  }

  lemma TextsAtEnd(messages: seq<InMessage>, p: Projection)
    requires Placed(messages, p) && TextsKept(messages, p)
    ensures p.leadingSystem + NoteTexts(messages, Flushed(p).history) == SystemTexts(messages)
  {
    NoteTextsConcat(messages, p.history, Notes(p.pending));
    NotesKeepTexts(messages, p.pending);
    Regroup(p.leadingSystem, NoteTexts(messages, p.history), PendingTexts(p.pending));
  }

  // Tool results stay with their calls.

  /** Only system messages lie strictly between positions i and j. */
  ghost predicate Adjacent(messages: seq<InMessage>, i: nat, j: nat) {
    i < j < |messages| && forall k: nat | i < k < j :: IsSystem(messages, k)
  }

  lemma {:induction false} HistoryGrows(messages: seq<InMessage>, n: nat)
    requires n <= |messages| && Projections(messages).Some?
    ensures Projections(messages[..n]).Some?
    ensures Projections(messages[..n]).value.history <= Projections(messages).value.history
    ensures (forall k: nat | n <= k < |messages| :: IsSystem(messages, k)) ==>
            Projections(messages[..n]).value.history == Projections(messages).value.history
  {
    if n == |messages| {
      assert messages[..n] == messages;
    } else {
      var init := messages[..|messages| - 1];
      assert init[..n] == messages[..n];
      HistoryGrows(init, n);
      if forall k: nat | n <= k < |messages| :: IsSystem(messages, k) {
        assert IsSystem(messages, |messages| - 1);
        forall k: nat | n <= k < |init|
          ensures IsSystem(init, k)
        {
          assert IsSystem(messages, k);
        }
      }
    }
  }

  /** Output of later positions comes later and carries later positions, or is a note. */
  lemma {:induction false} LaterOutput(messages: seq<InMessage>, n: nat)
    requires n <= |messages| && HistoryOf(messages).Some?
    ensures Projections(messages[..n]).Some?
    ensures var before, all := Projections(messages[..n]).value.history, HistoryOf(messages).value.0;
            && before <= all
            && (forall x | 0 <= x < |before| :: before[x].id.index < n)
            && forall x | |before| <= x < |all| :: all[x].id.index >= n || IsNote(messages, all[x])
  {
    ProjectionLater(messages, n);
    ProjectionPlaced(messages[..n]);
    ProjectionPlaced(messages);
    var p := Projections(messages).value;
    assert forall x | 0 <= x < |p.history| :: (p.history + Notes(p.pending))[x] == p.history[x];
  }

  lemma {:induction false} ProjectionLater(messages: seq<InMessage>, n: nat)
    requires n <= |messages| && Projections(messages).Some?
    ensures Projections(messages[..n]).Some?
    ensures var before, all := Projections(messages[..n]).value.history, Projections(messages).value.history;
            && before <= all
            && forall x | |before| <= x < |all| :: all[x].id.index >= n || IsNote(messages, all[x])
  {
    if n == |messages| {
      assert messages[..n] == messages;
    } else {
      var init, last := messages[..|messages| - 1], messages[|messages| - 1];
      assert messages == init + [last] && init[..n] == messages[..n];
      ProjectionLater(init, n);
      ProjectionPlaced(init);
      Snoc(init, last);
      LaterStep(init, last, Projections(init).value);
    }
  }

  lemma LaterStep(messages: seq<InMessage>, message: InMessage, p: Projection)
    requires Placed(messages, p) && MessageStep(p, |messages|, message).Some?
    ensures var p', now := MessageStep(p, |messages|, message).value, messages + [message];
            && p.history <= p'.history
            && (forall x | 0 <= x < |p.history| :: IsNote(now, p.history[x]) == IsNote(messages, p.history[x]))
            && forall x | |p.history| <= x < |p'.history| :: p'.history[x].id.index >= |messages| || IsNote(now, p'.history[x])
  {
    if message.role != Some("system") {
      StepShape(p, |messages|, message);
      PendingStays(messages, message, p.pending);
    }
  }

  /**
   A user message with tool results directly follows the assistant message before it: in the
   whole history no note lies between what the two became.
   */
  lemma NoNoteBetweenCallAndResult(messages: seq<InMessage>, i: nat, j: nat, x: nat, y: nat, z: nat)
    requires HistoryOf(messages).Some? && Adjacent(messages, i, j)
    requires messages[i].role == Some("assistant")
    requires messages[j].role == Some("user") && HasToolResult(messages[j].content)
    requires var history := HistoryOf(messages).value.0;
             x < y < z < |history| && history[x].id.index == i && history[z].id.index == j
    ensures !IsNote(messages, HistoryOf(messages).value.0[y])
  {
    SystemsAddNothing(messages, i, j);
    CallStands(messages, i, x);
    ResultStands(messages, j, z);
    var called, result := Projections(messages[..i + 1]).value.history, Projections(messages[..j]).value.history;
    assert y < |called| || |result| <= y;
  }

  /** From an output of assistant position i on, everything before the next position is its output. */
  lemma CallStands(messages: seq<InMessage>, i: nat, x: nat)
    requires HistoryOf(messages).Some? && i < |messages| && messages[i].role == Some("assistant")
    requires x < |HistoryOf(messages).value.0| && HistoryOf(messages).value.0[x].id.index == i
    ensures Projections(messages[..i + 1]).Some?
    ensures |Projections(messages[..i + 1]).value.history| <= |HistoryOf(messages).value.0|
    ensures forall y | x <= y < |Projections(messages[..i + 1]).value.history| :: HistoryOf(messages).value.0[y].id.index == i
  {
    LaterOutput(messages, i);
    LaterOutput(messages, i + 1);
    NotesPlaced(messages, i);
    var p := Projections(messages[..i]).value;
    var out := OutputOf(messages, i);
    SplitAt(p.history, Notes(p.pending), out, x);
  }

  /** Up to an output of position j with tool results, everything from the end of the positions before is its output. */
  lemma ResultStands(messages: seq<InMessage>, j: nat, z: nat)
    requires HistoryOf(messages).Some? && j < |messages|
    requires messages[j].role == Some("user") && HasToolResult(messages[j].content)
    requires z < |HistoryOf(messages).value.0| && HistoryOf(messages).value.0[z].id.index == j
    ensures Projections(messages[..j]).Some?
    ensures forall y | |Projections(messages[..j]).value.history| <= y <= z :: HistoryOf(messages).value.0[y].id.index == j
  {
    LaterOutput(messages, j);
    LaterOutput(messages, j + 1);
    NotesPlaced(messages, j);
    var p := Projections(messages[..j]).value;
    var out := OutputOf(messages, j);
    SplitAt(p.history, out, Notes(p.pending), z);
  }

  lemma SplitAt(a: seq<ProjectedMessage>, b: seq<ProjectedMessage>, c: seq<ProjectedMessage>, x: nat)
    ensures var s := a + (b + c);
            && (forall y | |a| <= y < |a| + |b| :: s[y] == b[y - |a|])
            && (forall y | |a| + |b| <= y < |s| :: s[y] == c[y - |a| - |b|])
  {
  }

  /** Notes waiting at position k stand for earlier system messages. */
  lemma NotesPlaced(messages: seq<InMessage>, k: nat)
    requires k < |messages| && Projections(messages[..k]).Some?
    ensures forall m <- Notes(Projections(messages[..k]).value.pending) :: m.id.index < k && IsNote(messages, m)
  {
    ProjectionPlaced(messages[..k]);
    var pending := Projections(messages[..k]).value.pending;
    if pending != [] {
      assert IsSystem(messages[..k], pending[0].index);
    }
  }

  /** What position k adds, right after all that came before it. */
  lemma OutputOf(messages: seq<InMessage>, k: nat) returns (out: seq<ProjectedMessage>)
    requires HistoryOf(messages).Some? && k < |messages| && messages[k].role.Some? && messages[k].role != Some("system")
    ensures Projections(messages[..k]).Some? && Projections(messages[..k + 1]).Some?
    ensures From(k, out)
    ensures var (p, p') := (Projections(messages[..k]).value, Projections(messages[..k + 1]).value);
            && p'.pending == []
            && (messages[k].role == Some("user") && HasToolResult(messages[k].content) ==> p'.history == p.history + (out + Notes(p.pending)))
            && (messages[k].role == Some("assistant") ==> p'.history == p.history + (Notes(p.pending) + out))
  {
    LaterOutput(messages, k);
    LaterOutput(messages, k + 1);
    assert messages[..k + 1][..k] == messages[..k];
    StepShape(Projections(messages[..k]).value, k, messages[k]);
    out := Turn(k, messages[k]).value;
  }

  lemma SystemsAddNothing(messages: seq<InMessage>, i: nat, j: nat)
    requires HistoryOf(messages).Some? && Adjacent(messages, i, j)
    ensures Projections(messages[..i + 1]).Some? && Projections(messages[..j]).Some?
    ensures Projections(messages[..j]).value.history == Projections(messages[..i + 1]).value.history
  {
    LaterOutput(messages, j);
    assert messages[..j][..i + 1] == messages[..i + 1];
    forall k: nat | i + 1 <= k < |messages[..j]|
      ensures IsSystem(messages[..j], k)
    {
      assert IsSystem(messages, k);
    }
    HistoryGrows(messages[..j], i + 1);
  }

  // Calls.

  lemma {:induction false} CallsCount(blocks: seq<InBlock>)
    ensures var s := AssistantBlocks(blocks);
            s.Some? ==> forall k | 0 <= k < |s.value.calls| :: s.value.calls[k].index == k
  {
    if blocks == [] {
    } else {
      CallsCount(blocks[..|blocks| - 1]);
    }
  }

  ghost predicate Numbered(history: seq<ProjectedMessage>) {
    forall m | m in history && m.content.Assistant? ::
      forall k | 0 <= k < |m.content.calls| :: m.content.calls[k].index == k
  }

  lemma TurnNumbered(n: nat, message: InMessage)
    requires Turn(n, message).Some?
    ensures Numbered(Turn(n, message).value)
  {
    if message.content.Blocks? {
      CallsCount(message.content.blocks);
      NoAssistants(n, message.content.blocks);
    }
  }

  lemma {:induction false} ProjectionNumbered(messages: seq<InMessage>)
    requires Projections(messages).Some?
    ensures Numbered(Projections(messages).value.history)
  {
    if messages == [] {
    } else {
      var init, last := messages[..|messages| - 1], messages[|messages| - 1];
      ProjectionNumbered(init);
      if last.role != Some("system") {
        StepShape(Projections(init).value, |init|, last);
        TurnNumbered(|init|, last);
      }
    }
  }

  /** In every projected assistant message, the call at position k carries index k. */
  lemma CallsAreNumbered(messages: seq<InMessage>)
    requires HistoryOf(messages).Some?
    ensures Numbered(HistoryOf(messages).value.0)
  {
    ProjectionNumbered(messages);
  }

  lemma {:induction false} NoAssistants(index: nat, blocks: seq<InBlock>)
    ensures UserBlocks(index, blocks).Some? ==>
              forall m | m in UserBlocks(index, blocks).value.out :: !m.content.Assistant?
  {
    if blocks == [] {
    } else {
      NoAssistants(index, blocks[..|blocks| - 1]);
    }
  }
}
