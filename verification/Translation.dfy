/**
 What one call of the response translator does, as functions on its state. The class
 `ResponseTranslator` is proved against these; the run-level results are about them.
 */
module Translation {
  import opened Wrappers
  import opened JsonValues
  import opened Events
  import opened StopFiltering

  datatype BlockKind = TextKind | ThinkingKind

  datatype OpenBlock = OpenBlock(index: nat, kind: BlockKind)

  /** A reserved tool block. `tools` below lists them by block index, as the ordered map does. */
  datatype PendingTool = PendingTool(
    block: nat,
    providerIndex: nat,
    callId: string,
    name: string,
    arguments: string,
    ended: bool)

  datatype Translator = Translator(
    nextIndex: nat,
    open: Option<OpenBlock>,
    tools: seq<PendingTool>,
    usage: Usage,
    finish: Option<FinishReason>,
    stoppedBy: Option<string>,
    text: Filter,
    finished: bool)

  function NewTranslator(sequences: seq<string>): Translator {
    Translator(0, None, [], NO_USAGE, None, None, NewFilter(sequences), false)
  }

  function StartOf(kind: BlockKind): ContentBlock {
    match kind
    case TextKind => TextBlock
    case ThinkingKind => ThinkingBlock
  }

  /** A piece of text for the open block. */
  function Piece(i: nat, text: string): seq<WireEvent> {
    if text == "" then [] else [BlockDelta(i, Text(text))]
  }

  /** Close the open block, first sending text the filter still holds back. */
  function Closed(t: Translator): (Translator, seq<WireEvent>) {
    match t.open
    case None => (t, [])
    case Some(b) =>
      if b.kind.TextKind? then
        var rest := t.text.buffer;
        (t.(open := None, text := t.text.(buffer := "")),
         Piece(b.index, rest) + [BlockStop(b.index)])
      else
        (t.(open := None), [BlockStop(b.index)])
  }

  function ClosedKind(t: Translator, kind: BlockKind): (Translator, seq<WireEvent>) {
    if t.open.Some? && t.open.value.kind == kind then Closed(t) else (t, [])
  }

  function Opened(t: Translator, kind: BlockKind): (Translator, seq<WireEvent>) {
    var (c, out) := Closed(t);
    (c.(open := Some(OpenBlock(c.nextIndex, kind)), nextIndex := c.nextIndex + 1),
     out + [BlockStart(c.nextIndex, StartOf(kind))])
  }

  function EnsuredOpen(t: Translator, kind: BlockKind): (Translator, seq<WireEvent>) {
    if t.open.Some? && t.open.value.kind == kind then (t, []) else Opened(t, kind)
  }

  /** Start, all buffered arguments at once, stop. */
  function Delivery(tool: PendingTool): seq<WireEvent> {
    [BlockStart(tool.block, ToolUseBlock(tool.callId, tool.name))]
    + (if tool.arguments == "" then [] else [BlockDelta(tool.block, InputJson(tool.arguments))])
    + [BlockStop(tool.block)]
  }

  function DeliveredFirst(t: Translator): (Translator, seq<WireEvent>)
    requires t.tools != []
  {
    var (c, out) := Closed(t.(tools := t.tools[1..]));
    (c, out + Delivery(t.tools[0]))
  }

  /** The leading tools that have ended. */
  function EndedFront(tools: seq<PendingTool>): (n: nat)
    ensures n <= |tools|
  {
    if tools == [] || !tools[0].ended then 0 else 1 + EndedFront(tools[1..])
  }

  function DeliveredFinished(t: Translator): (Translator, seq<WireEvent>)
    decreases |t.tools|
  {
    if t.tools == [] || !t.tools[0].ended then (t, [])
    else
      var (d, out) := DeliveredFirst(t);
      var (rest, more) := DeliveredFinished(d);
      (rest, out + more)
  }

  function DeliveredAll(t: Translator): (Translator, seq<WireEvent>)
    decreases |t.tools|
  {
    if t.tools == [] then (t, [])
    else
      var (d, out) := DeliveredFirst(t);
      var (rest, more) := DeliveredAll(d);
      (rest, out + more)
  }

  /** A redacted thinking block passes through as a block of its own; other replay blocks are skipped. */
  function RedactedOne(t: Translator, block: Json): (Translator, seq<WireEvent>) {
    if block.GetString("type") != Some("redacted_thinking") then (t, [])
    else
      var (c, out) := Closed(t.(nextIndex := t.nextIndex + 1));
      (c, out + [BlockStart(t.nextIndex, RawBlock(block)), BlockStop(t.nextIndex)])
  }

  function Redacted(t: Translator, blocks: seq<Json>): (Translator, seq<WireEvent>)
    decreases |blocks|
  {
    if blocks == [] then (t, [])
    else
      var (c, out) := RedactedOne(t, blocks[0]);
      var (rest, more) := Redacted(c, blocks[1..]);
      (rest, out + more)
  }

  function ReplayBlocks(providerKind: string, value: Json): seq<Json> {
    var blocks := value.Get("blocks");
    if providerKind == "anthropic" && blocks.Some? && blocks.value.Array? then blocks.value.items else []
  }

  /** Position of the first pending tool with this provider index, or the number of tools. */
  function Position(tools: seq<PendingTool>, providerIndex: nat): (p: nat)
    ensures p <= |tools|
    ensures p < |tools| ==> tools[p].providerIndex == providerIndex
    ensures forall i | 0 <= i < p :: tools[i].providerIndex != providerIndex
  {
    if tools == [] || tools[0].providerIndex == providerIndex then 0
    else 1 + Position(tools[1..], providerIndex)
  }

  /** A call that is not pending yet reserves the next block. */
  function Reserved(t: Translator, index: nat, callId: string, name: string): Translator {
    if Position(t.tools, index) < |t.tools| then t
    else
      t.(nextIndex := t.nextIndex + 1,
         tools := t.tools + [PendingTool(t.nextIndex, index, callId, name, "", false)])
  }

  /** Argument text for a pending call waits with it; other argument text is dropped. */
  function Buffered(t: Translator, index: nat, delta: string): Translator {
    var p := Position(t.tools, index);
    if p == |t.tools| then t
    else t.(tools := t.tools[p := t.tools[p].(arguments := t.tools[p].arguments + delta)])
  }

  function Marked(t: Translator, index: nat): Translator {
    var p := Position(t.tools, index);
    if p == |t.tools| then t else t.(tools := t.tools[p := t.tools[p].(ended := true)])
  }

  function TextPushed(t: Translator, delta: string): (Translator, seq<WireEvent>) {
    var (o, out) := EnsuredOpen(t, TextKind);
    var (f, emitted) := Filtered(o.text, delta);
    var sent := out + Piece(o.open.value.index, emitted);
    if f.stopped.Some? then
      var (c, closing) := Closed(o.(text := f, stoppedBy := f.stopped));
      (c, sent + closing)
    else
      (o.(text := f), sent)
  }

  function Pushed(t: Translator, event: ModelEvent): (Translator, seq<WireEvent>) {
    if t.finished then (t, [])
    else if t.stoppedBy.Some? then
      match event
      case UsageReport(usage) => (t.(usage := usage), [])
      case Done(reason) => (t.(finish := Some(reason)), [])
      case ProviderReplayState(kind, value) => Redacted(t, ReplayBlocks(kind, value))
      case _ => (t, [])
    else
      match event
      case Started => (t, [])
      case TextStart => Opened(t, TextKind)
      case TextDelta(delta) => TextPushed(t, delta)
      case TextEnd => ClosedKind(t, TextKind)
      case ThinkingStart => Opened(t, ThinkingKind)
      case ThinkingDelta(delta) =>
        var (o, out) := EnsuredOpen(t, ThinkingKind);
        (o, out + [BlockDelta(o.open.value.index, Thinking(delta))])
      case ThinkingSignature(signature) =>
        if t.open.Some? && t.open.value.kind.ThinkingKind?
        then (t, [BlockDelta(t.open.value.index, Signature(signature))]) else (t, [])
      case ThinkingEnd => ClosedKind(t, ThinkingKind)
      case ToolCallStart(index, callId, name) => (Reserved(t, index, callId, name), [])
      case ToolCallArgumentsDelta(index, delta) => (Buffered(t, index, delta), [])
      case ToolCallEnd(index) => DeliveredFinished(Marked(t, index))
      case ProviderReplayState(kind, value) => Redacted(t, ReplayBlocks(kind, value))
      case StopSequence(sequence) => Closed(t.(stoppedBy := Some(sequence)))
      case UsageReport(usage) => (t.(usage := usage), [])
      case Done(reason) => (t.(finish := Some(reason)), [])
  }

  function ReasonOf(finish: Option<FinishReason>, stoppedBy: Option<string>): StopReason {
    match finish
    case Some(Length) => MaxTokens
    case Some(ToolUse) => CallTools
    case _ => if stoppedBy.Some? then HitStopSequence else EndTurn
  }

  function SaturatingSub(a: nat, b: nat): nat {
    if b <= a then a - b else 0
  }

  function UsageOf(usage: Usage): WireUsage {
    var input := match usage.contextInputTokens
                 case Some(total) =>
                   SaturatingSub(SaturatingSub(total, usage.cacheReadTokens.GetOr(0)), usage.cacheWriteTokens.GetOr(0))
                 case None => usage.inputTokens.GetOr(0);
    WireUsage(input, usage.outputTokens.GetOr(0), usage.cacheReadTokens, usage.cacheWriteTokens)
  }

  function Finished(t: Translator): (Translator, seq<WireEvent>) {
    if t.finished then (t, [])
    else
      var (d, delivered) := DeliveredAll(t.(finished := true));
      var (c, closing) := Closed(d);
      (c, delivered + closing + [MessageDelta(ReasonOf(c.finish, c.stoppedBy), c.stoppedBy, UsageOf(c.usage)), MessageStop])
  }

  function Failed(t: Translator, kind: string, message: string): (Translator, seq<WireEvent>) {
    (t.(finished := true), [ErrorEvent(kind, message)])
  }

  // Whole sessions.

  datatype Op = Push(event: ModelEvent) | Finish | Fail(kind: string, message: string)

  function Step(t: Translator, op: Op): (Translator, seq<WireEvent>) {
    match op
    case Push(event) => Pushed(t, event)
    case Finish => Finished(t)
    case Fail(kind, message) => Failed(t, kind, message)
  }

  /** The translator after `ops`, and everything it produced. */
  function Session(t: Translator, ops: seq<Op>): (Translator, seq<WireEvent>) {
    if ops == [] then (t, [])
    else
      var (s, out) := Session(t, ops[..|ops| - 1]);
      var (s', more) := Step(s, ops[|ops| - 1]);
      (s', out + more)
  }

  function Pushes(events: seq<ModelEvent>): seq<Op> {
    seq(|events|, i requires 0 <= i < |events| => Push(events[i]))
  }
}
