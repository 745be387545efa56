/**
 The head of an answer: whatever the session did, it carries the id and model of its start,
 the last usage reported, and a stop reason from the last finish reason and the stop sequence.
 */
module Reports {
  import opened Wrappers
  import opened JsonValues
  import opened Events
  import opened StopMatching
  import opened StopFiltering
  import opened Translation
  import opened Protocol
  import opened ProtocolProof
  import opened Sessions
  import opened Assembly
  import opened Refinement
  import Conservation

  function LastUsage(events: seq<ModelEvent>): Usage {
    if events == [] then NO_USAGE
    else
      var e := events[|events| - 1];
      if e.UsageReport? then e.usage else LastUsage(events[..|events| - 1])
  }

  function LastReason(events: seq<ModelEvent>): Option<FinishReason> {
    if events == [] then None
    else
      var e := events[|events| - 1];
      if e.Done? then Some(e.reason) else LastReason(events[..|events| - 1])
  }

  /** Same reports. */
  predicate Same(t: Translator, d: Translator) {
    d.usage == t.usage && d.finish == t.finish
  }

  lemma {:induction false} FinishedSame(t: Translator)
    ensures Same(t, DeliveredFinished(t).0)
    decreases |t.tools|
  {
    if t.tools != [] && t.tools[0].ended {
      FinishedSame(DeliveredFirst(t).0);
    }
  }

  lemma {:induction false} AllSame(t: Translator)
    ensures Same(t, DeliveredAll(t).0) && DeliveredAll(t).0.stoppedBy == t.stoppedBy
    decreases |t.tools|
  {
    if t.tools != [] {
      AllSame(DeliveredFirst(t).0);
    }
  }

  lemma {:induction false} RedactedSame(t: Translator, blocks: seq<Json>)
    ensures Same(t, Redacted(t, blocks).0)
    decreases |blocks|
  {
    if blocks != [] {
      RedactedSame(RedactedOne(t, blocks[0]).0, blocks[1..]);
    }
  }

  lemma PushedReports(t: Translator, e: ModelEvent)
    requires !t.finished
    ensures var d := Pushed(t, e).0;
            && d.usage == (if e.UsageReport? then e.usage else t.usage)
            && d.finish == (if e.Done? then Some(e.reason) else t.finish)
  {
    hide DeliveredFinished, Redacted, Filtered;
    if e.ProviderReplayState? {
      RedactedSame(t, ReplayBlocks(e.providerKind, e.value));
    } else if e.ToolCallEnd? {
      FinishedSame(Marked(t, e.index));
    }
  }

  /** Usage and finish reason are the last ones reported, before or after a stop. */
  lemma {:induction false} RunReports(sequences: seq<string>, events: seq<ModelEvent>)
    ensures var t := Session(NewTranslator(sequences), Pushes(events)).0;
            t.usage == LastUsage(events) && t.finish == LastReason(events)
  {
    if events == [] {
    } else {
      hide Pushed;
      var init, e := events[..|events| - 1], events[|events| - 1];
      assert events == init + [e];
      RunReports(sequences, init);
      Conservation.PushesSnoc(NewTranslator(sequences), init, e);
      Conservation.RunBalanced(sequences, init);
      PushedReports(Session(NewTranslator(sequences), Pushes(init)).0, e);
    }
  }

  /** The message as its start leaves it. */
  function Started(start: WireEvent): Message
    requires start.MessageStart?
  {
    Message(Some(start.id), Some(start.model), None, None, NO_WIRE_USAGE.(inputTokens := start.estimatedInputTokens))
  }

  lemma {:induction false} FreshIsEmpty(trace: seq<WireEvent>)
    requires ReadAll(NEW_READER, trace).phase == Fresh
    ensures trace == []
  {
  }

  /** While content is sent, the head stays as the start left it. */
  lemma {:induction false} HeadStays(trace: seq<WireEvent>, parse: Parser)
    requires ReadAll(NEW_READER, trace).phase.Idle? || ReadAll(NEW_READER, trace).phase.InBlock?
    ensures trace != [] && trace[0].MessageStart?
    ensures var a := AssembleAll(NEW_ASSEMBLER, trace, parse); a.Some? ==> a.value.message == Some(Started(trace[0]))
  {
    var init, e := trace[..|trace| - 1], trace[|trace| - 1];
    assert trace == init + [e];
    if ReadAll(NEW_READER, init).phase.Fresh? {
      FreshIsEmpty(init);
    } else {
      HeadStays(init, parse);
    }
  }

  /** The last two events of a finished session, and the client before them. */
  lemma FinishEnds(t: Translator, r: Reader)
    returns (content: seq<WireEvent>)
    requires Linked(t, r) && !t.finished
    ensures Finished(t).1 == content + [MessageDelta(ReasonOf(t.finish, t.stoppedBy), t.stoppedBy, UsageOf(t.usage)), MessageStop]
    ensures ReadAll(r, content).phase == Idle
  {
    hide Linked, DeliveredAll;
    var s := t.(finished := true);
    LinkedFinished(t, r);
    var (d, delivered) := DeliveredAll(s);
    DeliveredAllLinked(s, r);
    AllSame(s);
    var (_, closing) := Closed(d);
    ClosedLinked(d, ReadAll(r, delivered));
    IdleWhenClosed(Closed(d).0, ReadAll(ReadAll(r, delivered), closing));
    ReadConcat(r, delivered, closing);
    content := delivered + closing;
  }

  lemma LinkedFinished(t: Translator, r: Reader)
    requires Linked(t, r)
    ensures Linked(t.(finished := true), r)
  {
    hide Once, Ordered, Texts;
  }

  lemma IdleWhenClosed(t: Translator, r: Reader)
    requires Linked(t, r) && t.open.None?
    ensures r.phase == Idle
  {
  }

  lemma LastTwo(a: Assembler, content: seq<WireEvent>, reason: StopReason, sequence: Option<string>, usage: WireUsage, parse: Parser)
    ensures var all := AssembleAll(a, content + [MessageDelta(reason, sequence, usage), MessageStop], parse);
            var before := AssembleAll(a, content, parse);
            && all.Some? == before.Some?
            && (all.Some? && before.value.message.Some? ==>
                  all.value.message == Some(before.value.message.value.(stopReason := Some(reason), stopSequence := sequence, usage := usage)))
  {
    hide AssembleAll;
    var delta := MessageDelta(reason, sequence, usage);
    AssembleSnoc(a, content, delta, parse);
    AssembleSnoc(a, content + [delta], MessageStop, parse);
    assert content + [delta, MessageStop] == content + [delta] + [MessageStop];
  }

  lemma AssembleSnoc(a: Assembler, events: seq<WireEvent>, e: WireEvent, parse: Parser)
    ensures AssembleAll(a, events + [e], parse) ==
            match AssembleAll(a, events, parse) case None => None case Some(b) => Assembled(b, e, parse)
  {
    assert (events + [e])[..|events|] == events;
  }

  /** The client is idle, and only the end of the message is left. */
  lemma BeforeTheEnd(start: WireEvent, sequences: seq<string>, events: seq<ModelEvent>, parse: Parser) returns (trace: seq<WireEvent>)
    requires start.MessageStart? && NonEmpty(sequences)
    ensures var t := Session(NewTranslator(sequences), Pushes(events)).0;
            Response(start, sequences, events, parse) ==
            AssembleAll(NEW_ASSEMBLER, trace + [MessageDelta(ReasonOf(t.finish, t.stoppedBy), t.stoppedBy, UsageOf(t.usage)), MessageStop], parse)
    ensures ReadAll(NEW_READER, trace).phase == Idle && trace != [] && trace[0] == start
  {
    hide Linked, Finished, Pushed, ReasonOf, UsageOf, Session, AssembleAll, ReadAll, Pushes;
    var (t, out) := Session(NewTranslator(sequences), Pushes(events));
    SessionSnoc(NewTranslator(sequences), Pushes(events), Finish);
    Conservation.RunBalanced(sequences, events);
    var r := RunLinked(start, sequences, events);
    var content := FinishEnds(t, r);
    trace := [start] + out + content;
    ReadConcat(NEW_READER, [start] + out, content);
    var end := [MessageDelta(ReasonOf(t.finish, t.stoppedBy), t.stoppedBy, UsageOf(t.usage)), MessageStop];
    assert [start] + (out + (content + end)) == trace + end;
  }

  lemma RunLinked(start: WireEvent, sequences: seq<string>, events: seq<ModelEvent>) returns (r: Reader)
    requires start.MessageStart? && NonEmpty(sequences)
    ensures var (t, out) := Session(NewTranslator(sequences), Pushes(events));
            r == ReadAll(NEW_READER, [start] + out) && Linked(t, r)
  {
    hide Linked, Session, ReadAll;
    var (_, out) := Session(NewTranslator(sequences), Pushes(events));
    Conservation.RunBalanced(sequences, events);
    SessionReached(start, sequences, Pushes(events));
    ReadOne(NEW_READER, start);
    ReadConcat(NEW_READER, [start], out);
    r := Client(start, sequences, Pushes(events));
  }

  /** The stop reason a client is told: the provider's limit, then its tool calls, then the stop sequence, then a plain end. */
  predicate Tells(reason: StopReason, last: Option<FinishReason>, stopped: bool) {
    && (reason.MaxTokens? <==> last == Some(Length))
    && (reason.CallTools? <==> last == Some(ToolUse))
    && (reason.HitStopSequence? <==> stopped && last != Some(Length) && last != Some(ToolUse))
  }

  /**
   The figures a client is told: a reported context total is split into input and cache
   figures, which never exceed it together unless the cache figures alone do.
   */
  predicate Accounts(told: WireUsage, usage: Usage) {
    var cached := usage.cacheReadTokens.GetOr(0) + usage.cacheWriteTokens.GetOr(0);
    && told.cacheReadInputTokens == usage.cacheReadTokens && told.cacheCreationInputTokens == usage.cacheWriteTokens
    && (usage.outputTokens.Some? ==> told.outputTokens == usage.outputTokens.value)
    && (usage.outputTokens.None? ==> told.outputTokens == 0)
    && match usage.contextInputTokens
       case Some(total) => if cached <= total then told.inputTokens + cached == total else told.inputTokens == 0
       case None => usage.inputTokens == Some(told.inputTokens) || (usage.inputTokens.None? && told.inputTokens == 0)
  }

  lemma ReportedRight(last: Option<FinishReason>, stoppedBy: Option<string>, usage: Usage)
    ensures Tells(ReasonOf(last, stoppedBy), last, stoppedBy.Some?) && Accounts(UsageOf(usage), usage)
  {
  }

  /** The head of an answer, against what the provider reported. */
  ghost predicate HeadRight(head: Message, start: WireEvent, events: seq<ModelEvent>, stoppedBy: Option<string>)
    requires start.MessageStart?
  {
    && head.id == Some(start.id) && head.model == Some(start.model) && head.stopSequence == stoppedBy
    && head.stopReason.Some? && Tells(head.stopReason.value, LastReason(events), stoppedBy.Some?)
    && Accounts(head.usage, LastUsage(events))
  }

  /**
   For every event list: a non-streaming answer carries the id and model of its start, the
   last usage the provider reported, the stop sequence that ended the text, and a stop
   reason in which the provider's limit and tool reasons win over that sequence.
   */
  lemma ResponseHead(start: WireEvent, sequences: seq<string>, events: seq<ModelEvent>, parse: Parser)
    requires start.MessageStart? && NonEmpty(sequences)
    ensures var response := Response(start, sequences, events, parse);
            var stoppedBy := Session(NewTranslator(sequences), Pushes(events)).0.stoppedBy;
            response.Some? ==> response.value.message.Some? && HeadRight(response.value.message.value, start, events, stoppedBy)
  {
    hide Session, Response, AssembleAll, ReadAll, ReasonOf, UsageOf, LastUsage, LastReason, Tells, Accounts;
    var t := Session(NewTranslator(sequences), Pushes(events)).0;
    RunReports(sequences, events);
    ReportedRight(t.finish, t.stoppedBy, t.usage);
    var trace := BeforeTheEnd(start, sequences, events, parse);
    HeadStays(trace, parse);
    LastTwo(NEW_ASSEMBLER, trace, ReasonOf(t.finish, t.stoppedBy), t.stoppedBy, UsageOf(t.usage), parse);
  }
}
