/**
 What a projected conversation says: every text, image, tool result, thought and call of
 an accepted conversation, in order and nothing else, told block by block.
 */
module HistoryContent {
  import opened Wrappers
  import opened JsonValues
  import opened History
  import opened HistoryProperties

  datatype Call = Call(id: string, name: string, input: Json)

  datatype Item =
    | Shown(part: Part)
    | Returned(callId: string, text: string, parts: seq<Part>, isError: bool)
    | Spoken(text: string, thinking: string, replay: seq<Json>, calls: seq<Call>)

  // What one block says.

  /** One per line; empty lines in front are left out. */
  function Lines(texts: seq<string>): string {
    if texts == [] then "" else if texts[0] == "" then Lines(texts[1..]) else texts[0] + More(texts[1..])
  }

  function More(texts: seq<string>): string {
    if texts == [] then "" else "\n" + texts[0] + More(texts[1..])
  }

  /** The texts in some blocks, empty ones included. */
  function Texts(blocks: seq<InBlock>): seq<string> {
    if blocks == [] then []
    else
      var b := blocks[|blocks| - 1];
      Texts(blocks[..|blocks| - 1]) + if b.TextIn? && b.text.Some? then [b.text.value] else []
  }

  function NonEmpty(texts: seq<string>): seq<string> {
    if texts == [] then []
    else NonEmpty(texts[..|texts| - 1]) + if texts[|texts| - 1] == "" then [] else [texts[|texts| - 1]]
  }

  /** Texts and images of a tool result. */
  function Inner(blocks: seq<InBlock>): seq<Part> {
    if blocks == [] then []
    else
      Inner(blocks[..|blocks| - 1])
      + match blocks[|blocks| - 1]
        case TextIn(Some(text)) => [TextPart(text)]
        case ImageIn(Some(image)) => [image]
        case _ => []
  }

  function UserItem(block: InBlock): seq<Item> {
    match block
    case TextIn(Some(text)) => if text == "" then [] else [Shown(TextPart(text))]
    case ImageIn(Some(image)) => [Shown(image)]
    case ToolResultIn(Some(id), ResultText(text), isError) => [Returned(id, text, [], isError)]
    case ToolResultIn(Some(id), ResultParts(parts), isError) => [Returned(id, Lines(Texts(parts)), Inner(parts), isError)]
    case ToolResultIn(Some(id), _, isError) => [Returned(id, "", [], isError)]
    case _ => []
  }

  function UserItems(blocks: seq<InBlock>): seq<Item> {
    if blocks == [] then [] else UserItems(blocks[..|blocks| - 1]) + UserItem(blocks[|blocks| - 1])
  }

  function Thoughts(blocks: seq<InBlock>): string {
    if blocks == [] then ""
    else
      var b := blocks[|blocks| - 1];
      Thoughts(blocks[..|blocks| - 1]) + if b.ThinkingIn? then b.thinking else ""
  }

  /** Signed thinking, and redacted thinking that has its data. */
  function Replayed(blocks: seq<InBlock>): seq<Json> {
    if blocks == [] then []
    else
      Replayed(blocks[..|blocks| - 1])
      + match blocks[|blocks| - 1]
        case ThinkingIn(thinking, signature) =>
          if signature == "" then []
          else [Object(map["type" := String("thinking"), "thinking" := String(thinking), "signature" := String(signature)])]
        case RedactedIn(hasData, raw) => if hasData then [raw] else []
        case _ => []
  }

  function Calls(blocks: seq<InBlock>): seq<Call> {
    if blocks == [] then []
    else
      Calls(blocks[..|blocks| - 1])
      + match blocks[|blocks| - 1]
        case ToolUseIn(Some(id), Some(name), input) => [Call(id, name, input)]
        case _ => []
  }

  function AssistantItem(blocks: seq<InBlock>): Item {
    Spoken(Lines(NonEmpty(Texts(blocks))), Thoughts(blocks), Replayed(blocks), Calls(blocks))
  }

  const SILENT := Spoken("", "", [], [])

  /** What a conversation message says. */
  function Says(message: InMessage): seq<Item> {
    match message.content
    case Plain(text) =>
      if text == "" then []
      else if message.role == Some("user") then [Shown(TextPart(text))]
      else [Spoken(text, "", [], [])]
    case Blocks(blocks) =>
      if message.role == Some("user") then UserItems(blocks)
      else if AssistantItem(blocks) == SILENT then [] else [AssistantItem(blocks)]
    case _ => []
  }

  // Which messages are accepted.

  predicate ReadableImage(block: InBlock) {
    block.ImageIn? ==> block.image.Some?
  }

  /** Images must be readable, also inside tool results, and tool results name their call. */
  ghost predicate UserBlockOk(block: InBlock) {
    && ReadableImage(block)
    && (block.ToolResultIn? ==>
          && block.callId.Some? && block.callId.value != "" && !block.result.OtherResult?
          && (block.result.ResultParts? ==> forall b | b in block.result.parts :: ReadableImage(b)))
  }

  predicate Named(value: Option<string>) {
    value.Some? && value.value != ""
  }

  predicate AssistantBlockOk(block: InBlock) {
    block.ToolUseIn? ==> Named(block.callId) && Named(block.name)
  }

  ghost predicate MessageOk(message: InMessage) {
    || (message.role == Some("system") && (message.content.NullContent? || message.content.Plain? || message.content.Blocks?))
    || (message.role == Some("user")
        && (message.content.Plain? || (message.content.Blocks? && forall b | b in message.content.blocks :: UserBlockOk(b))))
    || (message.role == Some("assistant")
        && (message.content.Plain? || (message.content.Blocks? && forall b | b in message.content.blocks :: AssistantBlockOk(b))))
  }

  // What projected messages say.

  function ShownAll(parts: seq<Part>): seq<Item> {
    seq(|parts|, i requires 0 <= i < |parts| => Shown(parts[i]))
  }

  function CallsOf(calls: seq<ToolCall>): seq<Call> {
    seq(|calls|, i requires 0 <= i < |calls| => Call(calls[i].callId, calls[i].name, calls[i].arguments))
  }

  function Items(content: Projected): seq<Item> {
    match content
    case Parts(parts) => ShownAll(parts)
    case Assistant(text, thinking, replay, calls) => [Spoken(text, thinking, replay, CallsOf(calls))]
    case ToolResult(callId, text, isError, parts) => [Returned(callId, text, parts, isError)]
  }

  function Flat(contents: seq<Projected>): seq<Item> {
    if contents == [] then [] else Flat(contents[..|contents| - 1]) + Items(contents[|contents| - 1])
  }

  lemma {:induction false} FlatConcat(a: seq<Projected>, b: seq<Projected>)
    ensures Flat(a + b) == Flat(a) + Flat(b)
  {
    hide Items;
    if b == [] {
      assert a + b == a;
    } else {
      FlatConcat(a, b[..|b| - 1]);
      assert (a + b)[..|a + b| - 1] == a + b[..|b| - 1];
    }
  }

  lemma FlatOne(content: Projected)
    ensures Flat([content]) == Items(content)
  {
    assert [content][..0] == [];
  }

  // Lines.

  lemma {:induction false} MoreSnoc(texts: seq<string>, text: string)
    ensures More(texts + [text]) == More(texts) + "\n" + text
  {
    if texts == [] {
      assert [text][1..] == [] && ([] + [text])[1..] == [];
      assert "\n" + text + "" == "" + "\n" + text;
    } else {
      MoreSnoc(texts[1..], text);
      assert (texts + [text])[1..] == texts[1..] + [text];
    }
  }

  lemma {:induction false} LinesSnoc(texts: seq<string>, text: string)
    ensures Lines(texts + [text]) == if Lines(texts) == "" then text else Lines(texts) + "\n" + text
  {
    if texts == [] {
      assert ([] + [text])[1..] == [] && text + "" == text;
    } else {
      assert (texts + [text])[1..] == texts[1..] + [text];
      if texts[0] == "" {
        LinesSnoc(texts[1..], text);
      } else {
        MoreSnoc(texts[1..], text);
      }
    }
  }

  // Tool results.

  lemma {:induction false} ResultMeaning(parts: seq<InBlock>)
    ensures ResultOf(parts).Some? <==> forall b | b in parts :: ReadableImage(b)
    ensures ResultOf(parts).Some? ==> ResultOf(parts).value == ResultState(Lines(Texts(parts)), Inner(parts))
  {
    if parts == [] {
    } else {
      var init, last := parts[..|parts| - 1], parts[|parts| - 1];
      assert parts == init + [last];
      ResultMeaning(init);
      assert ResultOf(parts).Some? <==> ResultOf(init).Some? && ReadableImage(last);
      assert Texts(init) + [] == Texts(init) && Inner(init) + [] == Inner(init);
      if last.TextIn? && last.text.Some? {
        LinesSnoc(Texts(init), last.text.value);
      }
    }
  }

  lemma ToolResultMeaning(block: InBlock)
    requires block.ToolResultIn?
    ensures ToolResultOf(block).Some? <==> UserBlockOk(block)
    ensures ToolResultOf(block).Some? ==> Items(ToolResultOf(block).value) == UserItem(block)
  {
    if block.result.ResultParts? {
      ResultMeaning(block.result.parts);
    }
  }

  // User messages.

  /** Parts are never empty, and no two messages of parts stand side by side. */
  ghost predicate Grouped(contents: seq<Projected>) {
    && (forall i | 0 <= i < |contents| :: contents[i].Parts? ==> contents[i].parts != [])
    && (forall i | 0 < i < |contents| :: !(contents[i - 1].Parts? && contents[i].Parts?))
  }

  ghost predicate Collected(s: UserState, blocks: seq<InBlock>) {
    var contents := Contents(s.out);
    && Flat(contents) + ShownAll(s.parts) == UserItems(blocks)
    && Grouped(contents) && (contents != [] ==> !contents[|contents| - 1].Parts?)
  }

  lemma CollectedPart(s: UserState, blocks: seq<InBlock>, block: InBlock, part: Part)
    requires Collected(s, blocks) && UserItem(block) == [Shown(part)]
    ensures Collected(s.(parts := s.parts + [part]), blocks + [block])
  {
    assert (blocks + [block])[..|blocks|] == blocks;
    assert ShownAll(s.parts + [part]) == ShownAll(s.parts) + [Shown(part)];
  }

  lemma GroupedMore(contents: seq<Projected>, content: Projected)
    requires Grouped(contents) && (content.Parts? ==> content.parts != [])
    requires contents != [] && content.Parts? ==> !contents[|contents| - 1].Parts?
    ensures Grouped(contents + [content]) && Flat(contents + [content]) == Flat(contents) + Items(content)
  {
    hide Flat, Items;
    FlatConcat(contents, [content]);
    FlatOne(content);
  }

  lemma FlushedItems(index: nat, s: UserState, blocks: seq<InBlock>)
    requires Collected(s, blocks)
    ensures var contents := Contents(s.out + FlushedParts(index, s.sequence, s.parts));
            Flat(contents) == UserItems(blocks) && Grouped(contents)
  {
    hide Grouped, Flat;
    var flushed := FlushedParts(index, s.sequence, s.parts);
    ContentsConcat(s.out, flushed);
    if s.parts == [] {
      assert Contents(flushed) == [] && ShownAll(s.parts) == [];
      assert Contents(s.out) + [] == Contents(s.out) && Flat(Contents(s.out)) + [] == Flat(Contents(s.out));
    } else {
      assert Contents(flushed) == [Parts(s.parts)];
      GroupedMore(Contents(s.out), Parts(s.parts));
    }
  }

  lemma CollectedResult(index: nat, s: UserState, blocks: seq<InBlock>, block: InBlock, result: Projected)
    requires Collected(s, blocks) && result.ToolResult? && Items(result) == UserItem(block)
    ensures var out := s.out + FlushedParts(index, s.sequence, s.parts) + [ProjectedMessage(MessageId(index, s.sequence + 1), result)];
            Collected(UserState(out, [], s.sequence + 2), blocks + [block])
  {
    var before := s.out + FlushedParts(index, s.sequence, s.parts);
    var message := ProjectedMessage(MessageId(index, s.sequence + 1), result);
    hide Grouped, Flat, UserItem, FlushedParts;
    FlushedItems(index, s, blocks);
    ContentsConcat(before, [message]);
    assert Contents([message]) == [result];
    GroupedMore(Contents(before), result);
    assert (blocks + [block])[..|blocks|] == blocks;
    assert ShownAll([]) == [];
    assert UserItems(blocks + [block]) + [] == UserItems(blocks + [block]);
  }

  lemma CollectedNothing(s: UserState, blocks: seq<InBlock>, block: InBlock)
    requires Collected(s, blocks) && UserItem(block) == []
    ensures Collected(s, blocks + [block])
  {
    assert (blocks + [block])[..|blocks|] == blocks && UserItems(blocks) + [] == UserItems(blocks);
  }

  lemma {:induction false} UserBlocksMeaning(index: nat, blocks: seq<InBlock>)
    ensures UserBlocks(index, blocks).Some? <==> forall b | b in blocks :: UserBlockOk(b)
    ensures UserBlocks(index, blocks).Some? ==> Collected(UserBlocks(index, blocks).value, blocks)
  {
    if blocks == [] {
      assert ShownAll([]) == [] && Contents([]) == [];
    } else {
      hide Collected, UserStep, UserBlockOk;
      var init, last := blocks[..|blocks| - 1], blocks[|blocks| - 1];
      assert blocks == init + [last];
      UserBlocksMeaning(index, init);
      if UserBlocks(index, init).Some? {
        UserStepAccepted(index, UserBlocks(index, init).value, last);
      }
      if UserBlocks(index, blocks).Some? {
        StepMeaning(index, UserBlocks(index, init).value, init, last);
      }
    }
  }

  lemma UserStepAccepted(index: nat, s: UserState, block: InBlock)
    ensures UserStep(index, s, block).Some? <==> UserBlockOk(block)
  {
    hide ToolResultOf;
    if block.ToolResultIn? {
      ToolResultMeaning(block);
    }
  }

  lemma StepMeaning(index: nat, s: UserState, blocks: seq<InBlock>, block: InBlock)
    requires Collected(s, blocks) && UserStep(index, s, block).Some?
    ensures Collected(UserStep(index, s, block).value, blocks + [block])
  {
    hide Collected, ToolResultOf;
    match block
    case TextIn(Some(text)) => if text == "" { CollectedNothing(s, blocks, block); } else { CollectedPart(s, blocks, block, TextPart(text)); }
    case ImageIn(Some(image)) => CollectedPart(s, blocks, block, image);
    case ToolResultIn(_, _, _) =>
      ToolResultMeaning(block);
      ResultIsResult(block);
      CollectedResult(index, s, blocks, block, ToolResultOf(block).value);
    case _ => CollectedNothing(s, blocks, block);
  }

  lemma ResultIsResult(block: InBlock)
    requires block.ToolResultIn? && ToolResultOf(block).Some?
    ensures ToolResultOf(block).value.ToolResult?
  {
  }

  /**
   What a user message becomes: accepted if and only if each block is; the same texts,
   images and results in the same order, in as few messages as the results allow.
   */
  lemma UserMessageMeaning(index: nat, message: InMessage)
    requires message.role == Some("user")
    ensures UserMessages(index, message.content).Some? <==> MessageOk(message)
    ensures UserMessages(index, message.content).Some? ==>
              var contents := Contents(UserMessages(index, message.content).value);
              Flat(contents) == Says(message) && Grouped(contents)
  {
    hide Flat, Grouped, UserBlockOk, FlushedParts;
    match message.content
    case Plain(text) => PlainMeaning(index, text);
    case Blocks(blocks) =>
      UserBlocksMeaning(index, blocks);
      if UserBlocks(index, blocks).Some? {
        FlushedItems(index, UserBlocks(index, blocks).value, blocks);
      }
    case _ =>
  }

  lemma PlainMeaning(index: nat, text: string)
    ensures var contents := Contents(if text == "" then [] else FlushedParts(index, 0, [TextPart(text)]));
            Flat(contents) == (if text == "" then [] else [Shown(TextPart(text))]) && Grouped(contents)
  {
    if text != "" {
      FlatOne(Parts([TextPart(text)]));
      assert Contents(FlushedParts(index, 0, [TextPart(text)])) == [Parts([TextPart(text)])];
    }
  }

  function ResultsIn(contents: seq<Projected>): nat {
    if contents == [] then 0
    else ResultsIn(contents[..|contents| - 1]) + if contents[|contents| - 1].ToolResult? then 1 else 0
  }

  /** Ordinals count in twos: parts before the n-th result have 2n, the result itself 2n + 1. */
  ghost predicate Counted(index: nat, out: seq<ProjectedMessage>) {
    forall i | 0 <= i < |out| ::
      out[i].id == MessageId(index, 2 * ResultsIn(Contents(out[..i])) + if out[i].content.ToolResult? then 1 else 0)
  }

  lemma CountedMore(index: nat, out: seq<ProjectedMessage>, message: ProjectedMessage)
    requires Counted(index, out)
    requires message.id == MessageId(index, 2 * ResultsIn(Contents(out)) + if message.content.ToolResult? then 1 else 0)
    ensures Counted(index, out + [message])
    ensures ResultsIn(Contents(out + [message])) == ResultsIn(Contents(out)) + if message.content.ToolResult? then 1 else 0
  {
    var all := out + [message];
    assert all[..|out|] == out && forall i | 0 <= i < |out| :: all[..i] == out[..i];
    ContentsConcat(out, [message]);
    assert Contents([message]) == [message.content];
    assert (Contents(out) + [message.content])[..|Contents(out)|] == Contents(out);
  }

  lemma FlushedCounted(index: nat, out: seq<ProjectedMessage>, sequence: nat, parts: seq<Part>)
    requires Counted(index, out) && sequence == 2 * ResultsIn(Contents(out))
    ensures var now := out + FlushedParts(index, sequence, parts);
            Counted(index, now) && ResultsIn(Contents(now)) == ResultsIn(Contents(out))
  {
    hide Counted;
    if parts == [] {
      assert out + [] == out;
    } else {
      CountedMore(index, out, ProjectedMessage(MessageId(index, sequence), Parts(parts)));
    }
  }

  lemma StepCounted(index: nat, s: UserState, block: InBlock)
    requires Counted(index, s.out) && s.sequence == 2 * ResultsIn(Contents(s.out)) && UserStep(index, s, block).Some?
    ensures var t := UserStep(index, s, block).value; Counted(index, t.out) && t.sequence == 2 * ResultsIn(Contents(t.out))
  {
    hide Counted, ToolResultOf, FlushedParts, ResultsIn, Contents;
    if block.ToolResultIn? {
      ResultIsResult(block);
      FlushedCounted(index, s.out, s.sequence, s.parts);
      CountedMore(index, s.out + FlushedParts(index, s.sequence, s.parts),
                  ProjectedMessage(MessageId(index, s.sequence + 1), ToolResultOf(block).value));
    }
  }

  lemma {:induction false} UserBlocksCounted(index: nat, blocks: seq<InBlock>)
    requires UserBlocks(index, blocks).Some?
    ensures var s := UserBlocks(index, blocks).value; Counted(index, s.out) && s.sequence == 2 * ResultsIn(Contents(s.out))
  {
    if blocks == [] {
    } else {
      hide Counted, UserStep, ResultsIn, Contents;
      var init, last := blocks[..|blocks| - 1], blocks[|blocks| - 1];
      UserBlocksCounted(index, init);
      StepCounted(index, UserBlocks(index, init).value, last);
    }
  }

  /** The ids of what a message becomes. */
  lemma TurnCounted(index: nat, message: InMessage)
    requires Turn(index, message).Some?
    ensures Counted(index, Turn(index, message).value)
  {
    hide FlushedParts;
    if message.role == Some("user") {
      match message.content
      case Plain(text) =>
        if text != "" {
          FlushedCounted(index, [], 0, [TextPart(text)]);
          assert [] + FlushedParts(index, 0, [TextPart(text)]) == FlushedParts(index, 0, [TextPart(text)]);
        }
      case Blocks(blocks) =>
        UserBlocksCounted(index, blocks);
        var s := UserBlocks(index, blocks).value;
        FlushedCounted(index, s.out, s.sequence, s.parts);
      case _ =>
    }
  }

  // Assistant messages.

  /** What an assistant message has said so far. */
  ghost predicate Gathered(s: AssistantState, blocks: seq<InBlock>) {
    && s.text == Lines(NonEmpty(Texts(blocks))) && s.thinking == Thoughts(blocks)
    && s.replay == Replayed(blocks) && CallsOf(s.calls) == Calls(blocks)
  }

  lemma CallsMore(calls: seq<ToolCall>, call: ToolCall)
    ensures CallsOf(calls + [call]) == CallsOf(calls) + [Call(call.callId, call.name, call.arguments)]
  {
  }

  lemma GatheredStep(s: AssistantState, blocks: seq<InBlock>, block: InBlock)
    requires Gathered(s, blocks)
    ensures AssistantStep(s, block).Some? <==> AssistantBlockOk(block)
    ensures AssistantStep(s, block).Some? ==> Gathered(AssistantStep(s, block).value, blocks + [block])
  {
    hide Lines, NonEmpty, CallsOf;
    var more := blocks + [block];
    assert more[..|more| - 1] == blocks;
    assert Texts(blocks) + [] == Texts(blocks) && Replayed(blocks) + [] == Replayed(blocks) && Calls(blocks) + [] == Calls(blocks);
    assert Thoughts(blocks) + "" == Thoughts(blocks);
    match block
    case TextIn(_) => TextsSnoc(blocks, block);
    case ToolUseIn(Some(id), Some(name), input) => CallsMore(s.calls, ToolCall(|s.calls|, id, name, input));
    case _ =>
  }

  lemma {:induction false} AssistantBlocksMeaning(blocks: seq<InBlock>)
    ensures AssistantBlocks(blocks).Some? <==> forall b | b in blocks :: AssistantBlockOk(b)
    ensures AssistantBlocks(blocks).Some? ==> Gathered(AssistantBlocks(blocks).value, blocks)
  {
    if blocks == [] {
      assert CallsOf([]) == [];
    } else {
      hide Gathered, AssistantStep, AssistantBlockOk;
      var init, last := blocks[..|blocks| - 1], blocks[|blocks| - 1];
      assert blocks == init + [last];
      AssistantBlocksMeaning(init);
      if AssistantBlocks(init).Some? {
        GatheredStep(AssistantBlocks(init).value, init, last);
      }
    }
  }

  lemma TextsMore(blocks: seq<InBlock>, block: InBlock)
    requires block.TextIn?
    ensures Texts(blocks + [block]) == if block.text.Some? then Texts(blocks) + [block.text.value] else Texts(blocks)
  {
    assert (blocks + [block])[..|blocks|] == blocks && Texts(blocks) + [] == Texts(blocks);
  }

  lemma NonEmptyMore(texts: seq<string>, text: string)
    ensures NonEmpty(texts + [text]) == if text == "" then NonEmpty(texts) else NonEmpty(texts) + [text]
  {
    assert (texts + [text])[..|texts|] == texts && NonEmpty(texts) + [] == NonEmpty(texts);
  }

  /** Joining line by line, as the program does it. */
  lemma TextsSnoc(blocks: seq<InBlock>, block: InBlock)
    requires block.TextIn?
    ensures Lines(NonEmpty(Texts(blocks + [block]))) == WithLine(Lines(NonEmpty(Texts(blocks))), block)
  {
    hide Texts, NonEmpty, Lines;
    TextsMore(blocks, block);
    if block.text.Some? {
      NonEmptyMore(Texts(blocks), block.text.value);
      LinesSnoc(NonEmpty(Texts(blocks)), block.text.value);
    }
  }

  lemma AssistantMessageMeaning(index: nat, message: InMessage)
    requires message.role == Some("assistant")
    ensures AssistantMessages(index, message.content).Some? <==> MessageOk(message)
    ensures AssistantMessages(index, message.content).Some? ==> Flat(Contents(AssistantMessages(index, message.content).value)) == Says(message)
  {
    match message.content
    case Plain(text) =>
      if text != "" {
        FlatOne(Assistant(text, "", [], []));
        assert Contents(AssistantMessages(index, message.content).value) == [Assistant(text, "", [], [])] && CallsOf([]) == [];
      }
    case Blocks(blocks) =>
      AssistantBlocksMeaning(blocks);
      if AssistantBlocks(blocks).Some? {
        var s := AssistantBlocks(blocks).value;
        assert |CallsOf(s.calls)| == |s.calls|;
        if AssistantItem(blocks) != SILENT {
          FlatOne(Assistant(s.text, s.thinking, s.replay, s.calls));
          assert Contents(AssistantMessages(index, message.content).value) == [Assistant(s.text, s.thinking, s.replay, s.calls)];
        }
      }
    case _ =>
  }

  lemma TurnMeaning(index: nat, message: InMessage)
    requires message.role == Some("user") || message.role == Some("assistant")
    ensures Turn(index, message).Some? <==> MessageOk(message)
    ensures Turn(index, message).Some? ==> Flat(Contents(Turn(index, message).value)) == Says(message)
  {
    if message.role == Some("user") {
      UserMessageMeaning(index, message);
    } else {
      AssistantMessageMeaning(index, message);
    }
  }

  // System texts.

  function Instruction(message: InMessage): seq<string> {
    var text := match message.content
                case Plain(text) => text
                case Blocks(blocks) => Lines(NonEmpty(Texts(blocks)))
                case _ => "";
    if message.role == Some("system") && text != "" then [text] else []
  }

  function Instructions(messages: seq<InMessage>): seq<string> {
    if messages == [] then [] else Instructions(messages[..|messages| - 1]) + Instruction(messages[|messages| - 1])
  }

  lemma {:induction false} JoinedMeaning(blocks: seq<InBlock>)
    ensures JoinedText(blocks) == Lines(NonEmpty(Texts(blocks)))
  {
    if blocks == [] {
    } else {
      var init, last := blocks[..|blocks| - 1], blocks[|blocks| - 1];
      assert blocks == init + [last];
      JoinedMeaning(init);
      if last.TextIn? {
        TextsSnoc(init, last);
      } else {
        assert Texts(init) + [] == Texts(init);
      }
    }
  }

  lemma SystemMeaning(message: InMessage)
    requires message.role == Some("system")
    ensures SystemText(message.content).Some? <==> MessageOk(message)
    ensures Instruction(message) == if SystemText(message.content).GetOr("") == "" then [] else [SystemText(message.content).value]
  {
    if message.content.Blocks? {
      JoinedMeaning(message.content.blocks);
    }
  }

  lemma {:induction false} InstructionsMeaning(messages: seq<InMessage>)
    ensures Instructions(messages) == SystemTexts(messages)
  {
    if messages == [] {
    } else {
      InstructionsMeaning(messages[..|messages| - 1]);
      var last := messages[|messages| - 1];
      if last.role == Some("system") {
        SystemMeaning(last);
      }
    }
  }

  // Whole conversations.

  function Said(messages: seq<InMessage>): seq<Item> {
    if messages == [] then []
    else
      var last := messages[|messages| - 1];
      Said(messages[..|messages| - 1]) + if last.role == Some("system") then [] else Says(last)
  }

  lemma StepAccepted(p: Projection, n: nat, message: InMessage)
    ensures MessageStep(p, n, message).Some? <==> MessageOk(message)
  {
    hide UserMessages, AssistantMessages, SystemText, MessageOk;
    if message.role == Some("system") {
      SystemMeaning(message);
      NoContentRefused(message);
    } else if message.role == Some("user") || message.role == Some("assistant") {
      TurnMeaning(n, message);
      NoContentRefused(message);
    } else {
      OtherRoleRefused(message);
    }
  }

  lemma NoContentRefused(message: InMessage)
    ensures message.content.NoContent? ==> !MessageOk(message)
  {
  }

  lemma OtherRoleRefused(message: InMessage)
    requires message.role != Some("system") && message.role != Some("user") && message.role != Some("assistant")
    ensures !MessageOk(message)
  {
  }

  lemma {:induction false} ProjectionSays(messages: seq<InMessage>)
    ensures Projections(messages).Some? <==> forall m | m in messages :: MessageOk(m)
    ensures Projections(messages).Some? ==> Flat(Conversation(messages, Projections(messages).value.history)) == Said(messages)
  {
    if messages == [] {
    } else {
      hide MessageOk, Says, MessageStep;
      var init, last := messages[..|messages| - 1], messages[|messages| - 1];
      assert messages == init + [last];
      ProjectionSays(init);
      Snoc(init, last);
      if Projections(init).Some? {
        StepAccepted(Projections(init).value, |init|, last);
      }
      if Projections(messages).Some? {
        ProjectionPlaced(init);
        StepSays(init, last, Projections(init).value);
      }
    }
  }

  lemma SystemStays(p: Projection, n: nat, message: InMessage)
    requires message.role == Some("system") && MessageStep(p, n, message).Some?
    ensures MessageStep(p, n, message).value.history == p.history
  {
  }

  lemma Earlier(messages: seq<InMessage>, p: Projection)
    requires Placed(messages, p)
    ensures forall i | 0 <= i < |p.history| :: p.history[i].id.index < |messages|
  {
  }

  lemma StepSays(messages: seq<InMessage>, message: InMessage, p: Projection)
    requires Placed(messages, p) && MessageStep(p, |messages|, message).Some?
    ensures var before := Flat(Conversation(messages, p.history));
            Flat(Conversation(messages + [message], MessageStep(p, |messages|, message).value.history)) ==
            before + if message.role == Some("system") then [] else Says(message)
  {
    hide Says, Turn, MessageOk, Placed, MessageStep, Flat, Conversation, From;
    var before := Flat(Conversation(messages, p.history));
    if message.role == Some("system") {
      Earlier(messages, p);
      ConversationLater(messages, message, p.history);
      SystemStays(p, |messages|, message);
      assert before + [] == before;
    } else {
      StepConversation(messages, message, p);
      StepShape(p, |messages|, message);
      RoleOfTurn(p, |messages|, message);
      TurnMeaning(|messages|, message);
      FlatConcat(Conversation(messages, p.history), Contents(Turn(|messages|, message).value));
    }
  }

  lemma RoleOfTurn(p: Projection, n: nat, message: InMessage)
    requires message.role != Some("system") && MessageStep(p, n, message).Some?
    ensures message.role == Some("user") || message.role == Some("assistant")
  {
  }

  /**
   A request is accepted if and only if it is not empty and every message is acceptable by
   itself. Then its projection says, apart from the notes, exactly what its user and assistant
   messages say, block by block and in order; leading and note texts are its system texts.
   */
  lemma ContentIsKept(messages: seq<InMessage>)
    ensures HistoryOf(messages).Some? <==> messages != [] && forall m | m in messages :: MessageOk(m)
    ensures HistoryOf(messages).Some? ==>
              var (history, leading) := HistoryOf(messages).value;
              && Flat(Conversation(messages, history)) == Said(messages)
              && leading + NoteTexts(messages, history) == Instructions(messages)
  {
    hide MessageOk, Flat, Said, Conversation, NoteTexts, Instructions, Projections;
    ProjectionSays(messages);
    if HistoryOf(messages).Some? {
      ProjectionPlaced(messages);
      var p := Projections(messages).value;
      NotesAreNotConversation(messages, p.pending);
      ConversationConcat(messages, p.history, Notes(p.pending));
      assert Conversation(messages, p.history) + [] == Conversation(messages, p.history);
      SystemTextsAreKept(messages);
      InstructionsMeaning(messages);
    }
  }
}
