/** The response translator as the stateful object it is, proved against `Translation`. */
module ResponseTranslation {
  import opened Wrappers
  import opened JsonValues
  import opened Events
  import opened StopFiltering
  import opened Translation

  /** What was sent, and then the rest. */
  ghost function Then(sent: seq<WireEvent>, rest: (Translator, seq<WireEvent>)): (Translator, seq<WireEvent>) {
    (rest.0, sent + rest.1)
  }

  lemma FinishedUnfolds(t: Translator, sent: seq<WireEvent>)
    requires t.tools != [] && t.tools[0].ended
    ensures var (d, flushed) := DeliveredFirst(t);
            Then(sent, DeliveredFinished(t)) == Then(sent + flushed, DeliveredFinished(d))
  {
    var (d, flushed) := DeliveredFirst(t);
    assert sent + (flushed + DeliveredFinished(d).1) == sent + flushed + DeliveredFinished(d).1;
  }

  lemma AllUnfolds(t: Translator, sent: seq<WireEvent>)
    requires t.tools != []
    ensures var (d, flushed) := DeliveredFirst(t);
            Then(sent, DeliveredAll(t)) == Then(sent + flushed, DeliveredAll(d))
  {
    var (d, flushed) := DeliveredFirst(t);
    assert sent + (flushed + DeliveredAll(d).1) == sent + flushed + DeliveredAll(d).1;
  }

  lemma RedactedUnfolds(t: Translator, sent: seq<WireEvent>, blocks: seq<Json>)
    requires blocks != []
    ensures var (d, one) := RedactedOne(t, blocks[0]);
            Then(sent, Redacted(t, blocks)) == Then(sent + one, Redacted(d, blocks[1..]))
  {
    var (d, one) := RedactedOne(t, blocks[0]);
    assert sent + (one + Redacted(d, blocks[1..]).1) == sent + one + Redacted(d, blocks[1..]).1;
  }

  class ResponseTranslator {
    const messageId: string
    const model: string
    const estimatedInputTokens: nat
    const text: StopFilter
    var nextIndex: nat
    var open: Option<OpenBlock>
    var tools: seq<PendingTool>
    var usage: Usage
    var finish: Option<FinishReason>
    var stoppedBy: Option<string>
    var finished: bool

    ghost function State(): Translator
      reads this, text
    {
      Translator(nextIndex, open, tools, usage, finish, stoppedBy, text.State(), finished)
    }

    constructor (messageId: string, model: string, stopSequences: seq<string>, estimatedInputTokens: nat)
      ensures State() == NewTranslator(stopSequences) && fresh(text)
      ensures this.messageId == messageId && this.model == model && this.estimatedInputTokens == estimatedInputTokens
    {
      this.messageId, this.model, this.estimatedInputTokens := messageId, model, estimatedInputTokens;
      text := new StopFilter(stopSequences);
      nextIndex, open, tools := 0, None, [];
      usage, finish, stoppedBy, finished := NO_USAGE, None, None, false;
    }

    method Start() returns (event: WireEvent)
      ensures event == MessageStart(messageId, model, estimatedInputTokens)
    {
      event := MessageStart(messageId, model, estimatedInputTokens);
    }

    method Close() returns (out: seq<WireEvent>)
      modifies this, text
      ensures (State(), out) == Closed(old(State()))
    {
      out := [];
      if open.None? {
        return;
      }
      var block := open.value;
      open := None;
      if block.kind == TextKind {
        var rest := text.Flush();
        out := Piece(block.index, rest);
      }
      out := out + [BlockStop(block.index)];
      assert [] + [BlockStop(block.index)] == [BlockStop(block.index)];
    }

    method CloseKind(kind: BlockKind) returns (out: seq<WireEvent>)
      modifies this, text
      ensures (State(), out) == ClosedKind(old(State()), kind)
    {
      out := [];
      if open.Some? && open.value.kind == kind {
        out := Close();
      }
    }

    method Open(kind: BlockKind) returns (out: seq<WireEvent>)
      modifies this, text
      ensures (State(), out) == Opened(old(State()), kind)
    {
      out := Close();
      var index := nextIndex;
      nextIndex := nextIndex + 1;
      open := Some(OpenBlock(index, kind));
      out := out + [BlockStart(index, StartOf(kind))];
    }

    method EnsureOpen(kind: BlockKind) returns (out: seq<WireEvent>)
      modifies this, text
      ensures (State(), out) == EnsuredOpen(old(State()), kind)
    {
      out := [];
      if open.Some? && open.value.kind == kind {
        return;
      }
      out := Open(kind);
    }

    method FlushTool(tool: PendingTool) returns (out: seq<WireEvent>)
      modifies this, text
      ensures State() == Closed(old(State())).0 && out == Closed(old(State())).1 + Delivery(tool)
    {
      out := Close();
      var delivery := [BlockStart(tool.block, ToolUseBlock(tool.callId, tool.name))];
      if tool.arguments != "" {
        delivery := delivery + [BlockDelta(tool.block, InputJson(tool.arguments))];
      }
      delivery := delivery + [BlockStop(tool.block)];
      out := out + delivery;
    }

    method FlushFinishedTools() returns (out: seq<WireEvent>)
      modifies this, text
      ensures (State(), out) == DeliveredFinished(old(State()))
    {
      out := [];
      ghost var begin := State();
      ghost var result := DeliveredFinished(begin);
      assert [] + result.1 == result.1;
      while tools != [] && tools[0].ended
        invariant result == Then(out, DeliveredFinished(State()))
        decreases |tools|
      {
        ghost var before, sent := State(), out;
        var tool := tools[0];
        tools := tools[1..];
        var flushed := FlushTool(tool);
        out := out + flushed;
        FinishedUnfolds(before, sent);
      }
      assert out + [] == out;
    }

    method RedactedBlocks(providerKind: string, value: Json) returns (out: seq<WireEvent>)
      modifies this, text
      ensures (State(), out) == Redacted(old(State()), ReplayBlocks(providerKind, value))
    {
      out := [];
      var blocks := ReplayBlocks(providerKind, value);
      var i := 0;
      ghost var result := Redacted(State(), blocks);
      assert blocks[0..] == blocks && [] + result.1 == result.1;
      while i < |blocks|
        invariant 0 <= i <= |blocks|
        invariant result == Then(out, Redacted(State(), blocks[i..]))
      {
        ghost var before, sent := State(), out;
        var block := blocks[i];
        if block.GetString("type") == Some("redacted_thinking") {
          var index := nextIndex;
          nextIndex := nextIndex + 1;
          var closing := Close();
          out := out + (closing + [BlockStart(index, RawBlock(block)), BlockStop(index)]);
        }
        assert out == sent + RedactedOne(before, block).1;
        assert blocks[i..][1..] == blocks[i + 1..];
        RedactedUnfolds(before, sent, blocks[i..]);
        i := i + 1;
      }
      assert out + [] == out;
    }

    method PushText(delta: string) returns (out: seq<WireEvent>)
      modifies this, text
      ensures (State(), out) == TextPushed(old(State()), delta)
    {
      out := EnsureOpen(TextKind);
      var emitted := text.Push(delta);
      out := out + Piece(open.value.index, emitted);
      if text.stopped.Some? {
        stoppedBy := text.stopped;
        var closing := Close();
        out := out + closing;
      } else {
        assert out + [] == out;
      }
    }

    method PushTool(event: ModelEvent) returns (out: seq<WireEvent>)
      requires event.ToolCallStart? || event.ToolCallArgumentsDelta? || event.ToolCallEnd?
      requires !finished && stoppedBy.None?
      modifies this, text
      ensures (State(), out) == Pushed(old(State()), event)
    {
      out := [];
      var p := Position(tools, event.index);
      match event
      case ToolCallStart(index, callId, name) =>
        if p == |tools| {
          tools := tools + [PendingTool(nextIndex, index, callId, name, "", false)];
          nextIndex := nextIndex + 1;
        }
      case ToolCallArgumentsDelta(index, delta) =>
        if p < |tools| {
          tools := tools[p := tools[p].(arguments := tools[p].arguments + delta)];
        }
      case ToolCallEnd(index) =>
        if p < |tools| {
          tools := tools[p := tools[p].(ended := true)];
        }
        out := FlushFinishedTools();
    }

    method Push(event: ModelEvent) returns (out: seq<WireEvent>)
      modifies this, text
      ensures (State(), out) == Pushed(old(State()), event)
    {
      hide Closed, TextPushed, Redacted, DeliveredFinished;
      out := [];
      if finished {
        return;
      }
      if stoppedBy.Some? {
        match event {
          case UsageReport(u) => usage := u;
          case Done(reason) => finish := Some(reason);
          case ProviderReplayState(kind, value) => out := RedactedBlocks(kind, value);
          case _ =>
        }
        return;
      }
      match event
      case Started =>
      case TextStart => out := Open(TextKind);
      case TextDelta(delta) => out := PushText(delta);
      case TextEnd => out := CloseKind(TextKind);
      case ThinkingStart => out := Open(ThinkingKind);
      case ThinkingDelta(delta) =>
        out := EnsureOpen(ThinkingKind);
        out := out + [BlockDelta(open.value.index, Thinking(delta))];
      case ThinkingSignature(signature) =>
        if open.Some? && open.value.kind == ThinkingKind {
          out := [BlockDelta(open.value.index, Signature(signature))];
        }
      case ThinkingEnd => out := CloseKind(ThinkingKind);
      case ToolCallStart(_, _, _) => out := PushTool(event);
      case ToolCallArgumentsDelta(_, _) => out := PushTool(event);
      case ToolCallEnd(_) => out := PushTool(event);
      case ProviderReplayState(kind, value) => out := RedactedBlocks(kind, value);
      case StopSequence(sequence) =>
        stoppedBy := Some(sequence);
        out := Close();
      case UsageReport(u) => usage := u;
      case Done(reason) => finish := Some(reason);
    }

    method Finish() returns (out: seq<WireEvent>)
      modifies this, text
      ensures (State(), out) == Finished(old(State()))
    {
      out := [];
      if finished {
        return;
      }
      finished := true;
      ghost var result := DeliveredAll(State());
      assert [] + result.1 == result.1;
      while tools != []
        invariant result == Then(out, DeliveredAll(State()))
        decreases |tools|
      {
        ghost var before, sent := State(), out;
        var tool := tools[0];
        tools := tools[1..];
        var flushed := FlushTool(tool);
        out := out + flushed;
        AllUnfolds(before, sent);
      }
      assert out + [] == out;
      var closing := Close();
      out := out + closing + [MessageDelta(ReasonOf(finish, stoppedBy), stoppedBy, UsageOf(usage)), MessageStop];
    }

    method Fail(kind: string, message: string) returns (event: WireEvent)
      modifies this
      ensures (State(), [event]) == Failed(old(State()), kind, message)
    {
      finished := true;
      event := ErrorEvent(kind, message);
    }
  }
}
