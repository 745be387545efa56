/**
 The non-streaming fold: the same events, collected into one document. The class
 `MessageAssembler` is proved against `Assembled`.
 */
module Assembly {
  import opened Wrappers
  import opened JsonValues
  import opened Events

  /** Parsing of tool arguments: the object written in a text, if it is one. */
  type Parser = string -> Option<Json>

  /** A content block as sent, and the fields written over it since. */
  datatype Block = Block(
    sent: ContentBlock,
    text: Option<string>,
    thinking: Option<string>,
    signature: Option<string>,
    input: Option<Json>)

  datatype Message = Message(
    id: Option<string>,
    model: Option<string>,
    stopReason: Option<StopReason>,
    stopSequence: Option<string>,
    usage: WireUsage)

  const NO_WIRE_USAGE := WireUsage(0, 0, None, None)
  const EMPTY_MESSAGE := Message(Some(""), Some(""), None, None, NO_WIRE_USAGE)

  datatype Assembler = Assembler(message: Option<Message>, blocks: map<nat, Block>, partialJson: map<nat, string>)

  const NEW_ASSEMBLER := Assembler(None, map[], map[])

  function NewBlock(sent: ContentBlock): Block {
    Block(sent, None, None, None, None)
  }

  /** The text field a block carries when it is sent. */
  function OwnField(sent: ContentBlock, field: string): string {
    if sent.RawBlock? then sent.value.GetString(field).GetOr("") else ""
  }

  function WithDelta(block: Block, delta: Delta): Block {
    match delta
    case Text(text) =>
      if text == "" then block
      else block.(text := Some(block.text.GetOr(OwnField(block.sent, "text")) + text))
    case Thinking(thinking) =>
      if thinking == "" then block
      else block.(thinking := Some(block.thinking.GetOr(OwnField(block.sent, "thinking")) + thinking))
    case Signature(signature) => block.(signature := Some(signature))
    case InputJson(_) => block
  }

  /** Deltas continue the text or thinking that a block brought along. */
  lemma OwnFieldContinues(value: Json, own: string, more: string)
    requires more != ""
    ensures value.GetString("text") == Some(own) ==> WithDelta(NewBlock(RawBlock(value)), Text(more)).text == Some(own + more)
    ensures value.GetString("thinking") == Some(own) ==> WithDelta(NewBlock(RawBlock(value)), Thinking(more)).thinking == Some(own + more)
  {
  }

  /** One event; `None` is the upstream protocol error of unreadable tool arguments. */
  function Assembled(a: Assembler, event: WireEvent, parse: Parser): Option<Assembler> {
    match event
    case MessageStart(id, model, estimated) =>
      Some(a.(message := Some(Message(Some(id), Some(model), None, None, NO_WIRE_USAGE.(inputTokens := estimated)))))
    case BlockStart(i, block) => Some(a.(blocks := a.blocks[i := NewBlock(block)]))
    case BlockDelta(i, delta) =>
      if i !in a.blocks then Some(a)
      else if delta.InputJson? then
        Some(a.(partialJson := a.partialJson[i := (if i in a.partialJson then a.partialJson[i] else "") + delta.partial]))
      else Some(a.(blocks := a.blocks[i := WithDelta(a.blocks[i], delta)]))
    case BlockStop(i) =>
      if i !in a.partialJson then Some(a)
      else
        var rest := a.(partialJson := a.partialJson - {i});
        if i !in a.blocks then Some(rest)
        else
          var input := parse(a.partialJson[i]);
          if input.None? then None else Some(rest.(blocks := rest.blocks[i := rest.blocks[i].(input := input)]))
    case MessageDelta(reason, sequence, usage) =>
      var message := a.message.GetOr(Message(None, None, None, None, NO_WIRE_USAGE));
      Some(a.(message := Some(message.(stopReason := Some(reason), stopSequence := sequence, usage := usage))))
    case _ => Some(a)
  }

  function AssembleAll(a: Assembler, events: seq<WireEvent>, parse: Parser): Option<Assembler> {
    if events == [] then Some(a)
    else
      match AssembleAll(a, events[..|events| - 1], parse)
      case None => None
      case Some(b) => Assembled(b, events[|events| - 1], parse)
  }

  lemma {:induction false} AssembleConcat(a: Assembler, first: seq<WireEvent>, second: seq<WireEvent>, parse: Parser)
    ensures AssembleAll(a, first + second, parse) ==
            match AssembleAll(a, first, parse)
            case None => None
            case Some(b) => AssembleAll(b, second, parse)
  {
    if second == [] {
      assert first + second == first;
    } else {
      AssembleConcat(a, first, second[..|second| - 1], parse);
      assert (first + second)[..|first + second| - 1] == first + second[..|second| - 1];
    }
  }

  /** The blocks in index order. */
  function Content(blocks: map<nat, Block>, below: nat): seq<Block> {
    if below == 0 then []
    else Content(blocks, below - 1) + if below - 1 in blocks then [blocks[below - 1]] else []
  }

  datatype Document = Document(message: Message, content: seq<Block>)

  lemma {:induction false} ContentOfRange(blocks: map<nat, Block>, below: nat)
    requires forall i | 0 <= i < below :: i in blocks
    ensures |Content(blocks, below)| == below
    ensures forall i | 0 <= i < below :: Content(blocks, below)[i] == blocks[i]
  {
    if below > 0 {
      ContentOfRange(blocks, below - 1);
    }
  }

  /** Counting further does not add blocks. */
  lemma {:induction false} ContentStops(blocks: map<nat, Block>, n: nat, below: nat)
    requires n <= below && forall i | i in blocks :: i < n
    ensures Content(blocks, below) == Content(blocks, n)
  {
    if below > n {
      ContentStops(blocks, n, below - 1);
    }
  }

  class MessageAssembler {
    const parse: Parser
    var message: Option<Message>
    var blocks: map<nat, Block>
    var partialJson: map<nat, string>

    ghost function State(): Assembler
      reads this
    {
      Assembler(message, blocks, partialJson)
    }

    constructor (parse: Parser)
      ensures State() == NEW_ASSEMBLER && this.parse == parse
    {
      this.parse := parse;
      message, blocks, partialJson := None, map[], map[];
    }

    method Push(event: WireEvent) returns (ok: bool)
      modifies this
      ensures ok == Assembled(old(State()), event, parse).Some?
      ensures ok ==> State() == Assembled(old(State()), event, parse).value
    {
      ok := true;
      match event
      case MessageStart(id, model, estimated) =>
        message := Some(Message(Some(id), Some(model), None, None, WireUsage(estimated, 0, None, None)));
      case BlockStart(index, block) =>
        blocks := blocks[index := NewBlock(block)];
      case BlockDelta(index, delta) =>
        if index !in blocks {
          return;
        }
        match delta {
          case InputJson(partial) =>
            var entry := if index in partialJson then partialJson[index] else "";
            partialJson := partialJson[index := entry + partial];
          case _ =>
            blocks := blocks[index := WithDelta(blocks[index], delta)];
        }
      case BlockStop(index) =>
        if index !in partialJson {
          return;
        }
        var partial := partialJson[index];
        partialJson := partialJson - {index};
        if index in blocks {
          var input := parse(partial);
          if input.None? {
            return false;
          }
          blocks := blocks[index := blocks[index].(input := input)];
        }
      case MessageDelta(stopReason, stopSequence, usage) =>
        var m := message.GetOr(Message(None, None, None, None, NO_WIRE_USAGE));
        message := Some(m.(stopReason := Some(stopReason), stopSequence := stopSequence, usage := usage));
      case _ =>
    }

    /** The document: blocks in index order under the message head, or under an empty head. */
    method Finish() returns (document: Document)
      ensures document.message == message.GetOr(Message(Some(""), Some(""), None, None, WireUsage(0, 0, None, None)))
      ensures forall n: nat | (forall i | i in blocks :: i < n) :: document.content == Content(blocks, n)
    {
      var content: seq<Block> := [];
      var rest := blocks.Keys;
      ghost var done: nat := 0;
      while rest != {}
        invariant rest <= blocks.Keys
        invariant forall i | i in blocks :: i in rest <==> i >= done
        invariant content == Content(blocks, done)
        decreases |rest|
      {
        var next := Smallest(rest);
        ContentSkips(blocks, done, next);
        content := content + [blocks[next]];
        rest := rest - {next};
        done := next + 1;
      }
      forall n: nat | (forall i | i in blocks :: i < n)
        ensures content == Content(blocks, n)
      {
        if done <= n {
          ContentStops(blocks, done, n);
        } else {
          ContentStops(blocks, n, done);
        }
      }
      document := Document(message.GetOr(EMPTY_MESSAGE), content);
    }
  }

  lemma {:induction false} ContentSkips(blocks: map<nat, Block>, from: nat, to: nat)
    requires from <= to && forall i | from <= i < to :: i !in blocks
    ensures Content(blocks, to) == Content(blocks, from)
  {
    if to > from {
      ContentSkips(blocks, from, to - 1);
    }
  }

  /** The first key in order. */
  method Smallest(keys: set<nat>) returns (least: nat)
    requires keys != {}
    ensures least in keys && forall k | k in keys :: least <= k
  {
    least :| least in keys;
    var rest := keys - {least};
    while rest != {}
      invariant rest <= keys && least in keys
      invariant forall k | k in keys && k !in rest :: least <= k
      decreases |rest|
    {
      var k :| k in rest;
      if k < least {
        least := k;
      }
      rest := rest - {k};
    }
  }
}
