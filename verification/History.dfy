/**
 Projection of an inbound conversation: system messages leave the conversation, either
 into the leading instructions or as operator notes placed where they cannot come
 between a tool call and its result.
 */
module History {
  import opened Wrappers
  import opened JsonValues

  /** A content block of an inbound message; an image carries what decoding it gave. */
  datatype InBlock =
    | TextIn(text: Option<string>)
    | ImageIn(image: Option<Part>)
    | ToolResultIn(callId: Option<string>, result: ResultContent, isError: bool)
    | ThinkingIn(thinking: string, signature: string)
    | RedactedIn(hasData: bool, raw: Json)
    | ToolUseIn(callId: Option<string>, name: Option<string>, input: Json)
    | OtherIn

  datatype ResultContent = NoResult | ResultText(text: string) | ResultParts(parts: seq<InBlock>) | OtherResult

  datatype Content = NoContent | NullContent | Plain(text: string) | Blocks(blocks: seq<InBlock>) | OtherContent

  datatype InMessage = InMessage(role: Option<string>, content: Content)

  datatype Part = TextPart(text: string) | ImagePart(mimeType: string, data: seq<bv8>)

  datatype ToolCall = ToolCall(index: nat, callId: string, name: string, arguments: Json)

  /** The id of a projected message: the inbound position, and an ordinal within it. */
  datatype MessageId = MessageId(index: nat, ordinal: nat)

  datatype Projected =
    | Parts(parts: seq<Part>)
    | Assistant(text: string, thinking: string, replay: seq<Json>, calls: seq<ToolCall>)
    | ToolResult(callId: string, content: string, isError: bool, providerParts: seq<Part>)

  datatype ProjectedMessage = ProjectedMessage(id: MessageId, content: Projected)

  const OPERATOR_NOTE := "[operator note from the client]"

  /** Text of the text blocks, one per line; empty ones are skipped. */
  function JoinedText(blocks: seq<InBlock>): string {
    if blocks == [] then ""
    else WithLine(JoinedText(blocks[..|blocks| - 1]), blocks[|blocks| - 1])
  }

  function WithLine(text: string, block: InBlock): string {
    if !block.TextIn? || block.text.GetOr("") == "" then text
    else if text == "" then block.text.value
    else text + "\n" + block.text.value
  }

  function SystemText(content: Content): Option<string> {
    match content
    case NullContent => Some("")
    case Plain(text) => Some(text)
    case Blocks(blocks) => Some(JoinedText(blocks))
    case _ => None
  }

  predicate HasToolResult(content: Content) {
    content.Blocks? && exists b | b in content.blocks :: b.ToolResultIn?
  }

  function FlushedParts(index: nat, ordinal: nat, parts: seq<Part>): seq<ProjectedMessage> {
    if parts == [] then [] else [ProjectedMessage(MessageId(index, ordinal), Parts(parts))]
  }

  datatype ResultState = ResultState(text: string, parts: seq<Part>)

  function ResultStep(s: ResultState, part: InBlock): Option<ResultState> {
    match part
    case TextIn(Some(value)) =>
      Some(ResultState((if s.text == "" then value else s.text + "\n" + value), s.parts + [TextPart(value)]))
    case ImageIn(image) => if image.None? then None else Some(s.(parts := s.parts + [image.value]))
    case _ => Some(s)
  }

  function ResultOf(parts: seq<InBlock>): Option<ResultState> {
    if parts == [] then Some(ResultState("", []))
    else
      match ResultOf(parts[..|parts| - 1])
      case None => None
      case Some(s) => ResultStep(s, parts[|parts| - 1])
  }

  function ToolResultOf(block: InBlock): Option<Projected>
    requires block.ToolResultIn?
  {
    if block.callId.GetOr("") == "" then None
    else
      var id := block.callId.value;
      match block.result
      case NoResult => Some(ToolResult(id, "", block.isError, []))
      case ResultText(text) => Some(ToolResult(id, text, block.isError, []))
      case ResultParts(parts) =>
        (match ResultOf(parts)
         case None => None
         case Some(s) => Some(ToolResult(id, s.text, block.isError, s.parts)))
      case OtherResult => None
  }

  datatype UserState = UserState(out: seq<ProjectedMessage>, parts: seq<Part>, sequence: nat)

  /** A tool result is a message of its own between the parts before and after it. */
  function UserStep(index: nat, s: UserState, block: InBlock): Option<UserState> {
    match block
    case TextIn(text) => Some(if text.GetOr("") == "" then s else s.(parts := s.parts + [TextPart(text.value)]))
    case ImageIn(image) => if image.None? then None else Some(s.(parts := s.parts + [image.value]))
    case ToolResultIn(_, _, _) =>
      (match ToolResultOf(block)
       case None => None
       case Some(result) =>
         Some(UserState(s.out + FlushedParts(index, s.sequence, s.parts)
                        + [ProjectedMessage(MessageId(index, s.sequence + 1), result)], [], s.sequence + 2)))
    case _ => Some(s)
  }

  function UserBlocks(index: nat, blocks: seq<InBlock>): Option<UserState> {
    if blocks == [] then Some(UserState([], [], 0))
    else
      match UserBlocks(index, blocks[..|blocks| - 1])
      case None => None
      case Some(s) => UserStep(index, s, blocks[|blocks| - 1])
  }

  function UserMessages(index: nat, content: Content): Option<seq<ProjectedMessage>> {
    match content
    case Plain(text) => Some(if text == "" then [] else FlushedParts(index, 0, [TextPart(text)]))
    case Blocks(blocks) =>
      (match UserBlocks(index, blocks)
       case None => None
       case Some(s) => Some(s.out + FlushedParts(index, s.sequence, s.parts)))
    case _ => None
  }

  datatype AssistantState = AssistantState(text: string, thinking: string, replay: seq<Json>, calls: seq<ToolCall>)

  function ThinkingReplay(thinking: string, signature: string): Json {
    Object(map["type" := String("thinking"), "thinking" := String(thinking), "signature" := String(signature)])
  }

  function AssistantStep(s: AssistantState, block: InBlock): Option<AssistantState> {
    match block
    case TextIn(_) => Some(s.(text := WithLine(s.text, block)))
    case ThinkingIn(thinking, signature) =>
      Some(s.(thinking := s.thinking + thinking,
              replay := if signature == "" then s.replay else s.replay + [ThinkingReplay(thinking, signature)]))
    case RedactedIn(hasData, raw) => Some(if hasData then s.(replay := s.replay + [raw]) else s)
    case ToolUseIn(callId, name, input) =>
      if callId.GetOr("") == "" || name.GetOr("") == "" then None
      else Some(s.(calls := s.calls + [ToolCall(|s.calls|, callId.value, name.value, input)]))
    case _ => Some(s)
  }

  function AssistantBlocks(blocks: seq<InBlock>): Option<AssistantState> {
    if blocks == [] then Some(AssistantState("", "", [], []))
    else
      match AssistantBlocks(blocks[..|blocks| - 1])
      case None => None
      case Some(s) => AssistantStep(s, blocks[|blocks| - 1])
  }

  function AssistantMessages(index: nat, content: Content): Option<seq<ProjectedMessage>> {
    match content
    case Plain(text) =>
      Some(if text == "" then [] else [ProjectedMessage(MessageId(index, 0), Assistant(text, "", [], []))])
    case Blocks(blocks) =>
      (match AssistantBlocks(blocks)
       case None => None
       case Some(s) =>
         Some(if s == AssistantState("", "", [], []) then []
              else [ProjectedMessage(MessageId(index, 0), Assistant(s.text, s.thinking, s.replay, s.calls))]))
    case _ => None
  }

  datatype Pending = Pending(index: nat, text: string)

  function NotePart(text: string): Part {
    TextPart(OPERATOR_NOTE + "\n" + text)
  }

  function NoteParts(pending: seq<Pending>): seq<Part> {
    seq(|pending|, i requires 0 <= i < |pending| => NotePart(pending[i].text))
  }

  /** All waiting system texts in one user message. */
  function Notes(pending: seq<Pending>): seq<ProjectedMessage> {
    if pending == [] then [] else [ProjectedMessage(MessageId(pending[0].index, 0), Parts(NoteParts(pending)))]
  }

  datatype Projection = Projection(
    history: seq<ProjectedMessage>,
    leadingSystem: seq<string>,
    pending: seq<Pending>,
    leading: bool)

  const NEW_PROJECTION := Projection([], [], [], true)

  function Flushed(p: Projection): Projection {
    p.(history := p.history + Notes(p.pending), pending := [])
  }

  function Appended(p: Projection, messages: Option<seq<ProjectedMessage>>): Option<Projection> {
    if messages.None? then None else Some(p.(history := p.history + messages.value, leading := false))
  }

  /** The message at position `index`. */
  function MessageStep(p: Projection, index: nat, message: InMessage): Option<Projection> {
    if message.role.None? || message.content.NoContent? then None
    else if message.role.value == "system" then
      match SystemText(message.content)
      case None => None
      case Some(text) =>
        Some(if text == "" then p
             else if p.leading then p.(leadingSystem := p.leadingSystem + [text])
             else p.(pending := p.pending + [Pending(index, text)]))
    else if message.role.value == "user" then
      if HasToolResult(message.content) then
        var a := Appended(p, UserMessages(index, message.content));
        if a.None? then None else Some(Flushed(a.value))
      else Appended(Flushed(p), UserMessages(index, message.content))
    else if message.role.value == "assistant" then Appended(Flushed(p), AssistantMessages(index, message.content))
    else None
  }

  function Projections(messages: seq<InMessage>): Option<Projection> {
    if messages == [] then Some(NEW_PROJECTION)
    else
      match Projections(messages[..|messages| - 1])
      case None => None
      case Some(p) => MessageStep(p, |messages| - 1, messages[|messages| - 1])
  }

  /** The projected history and the leading system texts; `None` is an invalid request. */
  function HistoryOf(messages: seq<InMessage>): Option<(seq<ProjectedMessage>, seq<string>)> {
    if messages == [] then None
    else
      match Projections(messages)
      case None => None
      case Some(p) => Some((Flushed(p).history, p.leadingSystem))
  }

  // The loops of the program.

  method FlushParts(index: nat, ordinal: nat, parts: seq<Part>, history: seq<ProjectedMessage>)
    returns (now: seq<ProjectedMessage>)
    ensures now == history + FlushedParts(index, ordinal, parts)
  {
    now := history;
    if parts != [] {
      now := now + [ProjectedMessage(MessageId(index, ordinal), Parts(parts))];
    }
  }

  method FlushSystem(pending: seq<Pending>, history: seq<ProjectedMessage>) returns (now: seq<ProjectedMessage>)
    ensures now == history + Notes(pending)
  {
    now := history;
    if pending == [] {
      return;
    }
    var parts: seq<Part> := [];
    for i := 0 to |pending|
      invariant parts == NoteParts(pending[..i])
    {
      parts := parts + [NotePart(pending[i].text)];
      assert NoteParts(pending[..i + 1]) == NoteParts(pending[..i]) + [NotePart(pending[i].text)];
    }
    assert pending[..|pending|] == pending;
    now := now + [ProjectedMessage(MessageId(pending[0].index, 0), Parts(parts))];
  }

  method ToolResultMessage(index: nat, ordinal: nat, block: InBlock) returns (message: Option<ProjectedMessage>)
    requires block.ToolResultIn?
    ensures message == match ToolResultOf(block)
                       case None => None
                       case Some(result) => Some(ProjectedMessage(MessageId(index, ordinal), result))
  {
    if block.callId.GetOr("") == "" {
      return None;
    }
    var text, parts := "", [];
    match block.result {
      case NoResult =>
      case ResultText(content) => text := content;
      case OtherResult => return None;
      case ResultParts(items) =>
        var i := 0;
        while i < |items|
          invariant 0 <= i <= |items|
          invariant ResultOf(items[..i]) == Some(ResultState(text, parts))
        {
          assert items[..i + 1][..i] == items[..i];
          match items[i] {
            case TextIn(Some(value)) =>
              text := if text == "" then value else text + "\n" + value;
              parts := parts + [TextPart(value)];
            case ImageIn(image) =>
              if image.None? {
                ResultFails(items, i + 1);
                return None;
              }
              parts := parts + [image.value];
            case _ =>
          }
          i := i + 1;
        }
        assert items[..|items|] == items;
    }
    message := Some(ProjectedMessage(MessageId(index, ordinal), ToolResult(block.callId.value, text, block.isError, parts)));
  }

  lemma {:induction false} ResultFails(items: seq<InBlock>, n: nat)
    requires n <= |items| && ResultOf(items[..n]).None?
    ensures ResultOf(items).None?
    decreases |items| - n
  {
    if n < |items| {
      assert items[..n + 1][..n] == items[..n];
      ResultFails(items, n + 1);
    } else {
      assert items[..n] == items;
    }
  }

  method UserMessage(index: nat, content: Content, history: seq<ProjectedMessage>) returns (now: Option<seq<ProjectedMessage>>)
    ensures now == match UserMessages(index, content) case None => None case Some(out) => Some(history + out)
  {
    assert history + [] == history;
    match content
    case Plain(text) =>
      now := Some(history);
      if text != "" {
        now := Some(history + [ProjectedMessage(MessageId(index, 0), Parts([TextPart(text)]))]);
      }
    case Blocks(blocks) =>
      var all, parts, sequence := history, [], 0;
      ghost var out: seq<ProjectedMessage> := [];
      var i := 0;
      while i < |blocks|
        invariant 0 <= i <= |blocks|
        invariant all == history + out
        invariant UserBlocks(index, blocks[..i]) == Some(UserState(out, parts, sequence))
      {
        assert blocks[..i + 1][..i] == blocks[..i];
        match blocks[i] {
          case TextIn(text) =>
            if text.GetOr("") != "" {
              parts := parts + [TextPart(text.value)];
            }
          case ImageIn(image) =>
            if image.None? {
              UserFails(index, blocks, i + 1);
              return None;
            }
            parts := parts + [image.value];
          case ToolResultIn(_, _, _) =>
            var result := ToolResultMessage(index, sequence + 1, blocks[i]);
            if result.None? {
              UserFails(index, blocks, i + 1);
              return None;
            }
            all := FlushParts(index, sequence, parts, all);
            all := all + [result.value];
            out := out + FlushedParts(index, sequence, parts) + [result.value];
            parts := [];
            sequence := sequence + 2;
          case _ =>
        }
        i := i + 1;
      }
      assert blocks[..|blocks|] == blocks;
      all := FlushParts(index, sequence, parts, all);
      assert all == history + (out + FlushedParts(index, sequence, parts));
      now := Some(all);
    case _ => now := None;
  }

  lemma {:induction false} UserFails(index: nat, blocks: seq<InBlock>, n: nat)
    requires n <= |blocks| && UserBlocks(index, blocks[..n]).None?
    ensures UserBlocks(index, blocks).None?
    decreases |blocks| - n
  {
    if n < |blocks| {
      assert blocks[..n + 1][..n] == blocks[..n];
      UserFails(index, blocks, n + 1);
    } else {
      assert blocks[..n] == blocks;
    }
  }

  method AssistantMessage(index: nat, content: Content, history: seq<ProjectedMessage>) returns (now: Option<seq<ProjectedMessage>>)
    ensures now == match AssistantMessages(index, content) case None => None case Some(out) => Some(history + out)
  {
    assert history + [] == history;
    match content
    case Plain(text) =>
      now := Some(history);
      if text != "" {
        now := Some(history + [ProjectedMessage(MessageId(index, 0), Assistant(text, "", [], []))]);
      }
    case Blocks(blocks) =>
      var text, thinking, replay, calls := "", "", [], [];
      var i := 0;
      while i < |blocks|
        invariant 0 <= i <= |blocks|
        invariant AssistantBlocks(blocks[..i]) == Some(AssistantState(text, thinking, replay, calls))
      {
        assert blocks[..i + 1][..i] == blocks[..i];
        match blocks[i] {
          case TextIn(_) => text := WithLine(text, blocks[i]);
          case ThinkingIn(part, signature) =>
            thinking := thinking + part;
            if signature != "" {
              replay := replay + [ThinkingReplay(part, signature)];
            }
          case RedactedIn(hasData, raw) =>
            if hasData {
              replay := replay + [raw];
            }
          case ToolUseIn(callId, name, input) =>
            if callId.GetOr("") == "" || name.GetOr("") == "" {
              AssistantFails(blocks, i + 1);
              return None;
            }
            calls := calls + [ToolCall(|calls|, callId.value, name.value, input)];
          case _ =>
        }
        i := i + 1;
      }
      assert blocks[..|blocks|] == blocks;
      if text == "" && thinking == "" && calls == [] && replay == [] {
        return Some(history);
      }
      now := Some(history + [ProjectedMessage(MessageId(index, 0), Assistant(text, thinking, replay, calls))]);
    case _ => now := None;
  }

  lemma {:induction false} AssistantFails(blocks: seq<InBlock>, n: nat)
    requires n <= |blocks| && AssistantBlocks(blocks[..n]).None?
    ensures AssistantBlocks(blocks).None?
    decreases |blocks| - n
  {
    if n < |blocks| {
      assert blocks[..n + 1][..n] == blocks[..n];
      AssistantFails(blocks, n + 1);
    } else {
      assert blocks[..n] == blocks;
    }
  }

  method Project(messages: seq<InMessage>) returns (result: Option<(seq<ProjectedMessage>, seq<string>)>)
    ensures result == HistoryOf(messages)
  {
    if messages == [] {
      return None;
    }
    var history: seq<ProjectedMessage> := [];
    var leadingSystem: seq<string> := [];
    var pending: seq<Pending> := [];
    var leading := true;
    var index := 0;
    while index < |messages|
      invariant 0 <= index <= |messages|
      invariant Projections(messages[..index]) == Some(Projection(history, leadingSystem, pending, leading))
    {
      var message := messages[index];
      assert messages[..index + 1][..index] == messages[..index];
      var next: Option<seq<ProjectedMessage>> := None;
      if message.role.None? || message.content.NoContent? {
      } else if message.role.value == "system" {
        var text := SystemText(message.content);
        if text.Some? {
          next := Some(history);
          if text.value == "" {
          } else if leading {
            leadingSystem := leadingSystem + [text.value];
          } else {
            pending := pending + [Pending(index, text.value)];
          }
        }
      } else if message.role.value == "user" {
        leading := false;
        var afterToolResult := HasToolResult(message.content);
        if !afterToolResult {
          history := FlushSystem(pending, history);
          pending := [];
        }
        next := UserMessage(index, message.content, history);
        if afterToolResult && next.Some? {
          var flushed := FlushSystem(pending, next.value);
          next := Some(flushed);
          pending := [];
        }
      } else if message.role.value == "assistant" {
        leading := false;
        history := FlushSystem(pending, history);
        pending := [];
        next := AssistantMessage(index, message.content, history);
      }
      if next.None? {
        ProjectionFails(messages, index + 1);
        return None;
      }
      history := next.value;
      index := index + 1;
    }
    assert messages[..|messages|] == messages;
    history := FlushSystem(pending, history);
    result := Some((history, leadingSystem));
  }

  lemma {:induction false} ProjectionFails(messages: seq<InMessage>, n: nat)
    requires n <= |messages| && Projections(messages[..n]).None?
    ensures Projections(messages).None?
    decreases |messages| - n
  {
    if n < |messages| {
      assert messages[..n + 1][..n] == messages[..n];
      ProjectionFails(messages, n + 1);
    } else {
      assert messages[..n] == messages;
    }
  }
}
