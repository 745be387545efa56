/**
 A client's view of the stream: a reader that accepts exactly the block-structured
 protocol, and keeps what it has seen.
 */
module Protocol {
  import opened Events

  datatype Phase =
    | Fresh
    | Idle
    | InBlock(index: nat, block: ContentBlock)
    | Delivered
    | Ended
    | Errored
    | Broken

  datatype Reader = Reader(
    phase: Phase,
    started: seq<nat>,
    stopped: seq<nat>,
    toolStarts: seq<nat>,
    texts: seq<string>,
    current: string)

  const NEW_READER := Reader(Fresh, [], [], [], [], "")

  /** Which deltas a block may receive. */
  predicate Fits(block: ContentBlock, delta: Delta) {
    match block
    case TextBlock => delta.Text?
    case ThinkingBlock => delta.Thinking? || delta.Signature?
    case ToolUseBlock(_, _) => delta.InputJson? && delta.partial != ""
    case RawBlock(_) => false
  }

  /** One event. Anything out of place, or a second start of the same index, breaks the stream for good. */
  function Read(r: Reader, event: WireEvent): Reader {
    match (r.phase, event)
    case (Fresh, MessageStart(_, _, _)) => r.(phase := Idle)
    case (Idle, BlockStart(i, block)) =>
      if i in r.started then r.(phase := Broken)
      else r.(phase := InBlock(i, block), started := r.started + [i], current := "",
              toolStarts := if block.ToolUseBlock? then r.toolStarts + [i] else r.toolStarts)
    case (InBlock(i, block), BlockDelta(j, delta)) =>
      if i != j || !Fits(block, delta) then r.(phase := Broken)
      else r.(current := if delta.Text? then r.current + delta.text else r.current)
    case (InBlock(i, block), BlockStop(j)) =>
      if i != j then r.(phase := Broken)
      else r.(phase := Idle, stopped := r.stopped + [i],
              texts := if block.TextBlock? then r.texts + [r.current] else r.texts)
    case (Idle, MessageDelta(_, _, _)) => r.(phase := Delivered)
    case (Delivered, MessageStop) => r.(phase := Ended)
    case (Idle, ErrorEvent(_, _)) => r.(phase := Errored)
    case (InBlock(_, _), ErrorEvent(_, _)) => r.(phase := Errored)
    case _ => r.(phase := Broken)
  }

  function ReadAll(r: Reader, events: seq<WireEvent>): Reader {
    if events == [] then r else Read(ReadAll(r, events[..|events| - 1]), events[|events| - 1])
  }

  lemma {:induction false} ReadConcat(r: Reader, a: seq<WireEvent>, b: seq<WireEvent>)
    ensures ReadAll(r, a + b) == ReadAll(ReadAll(r, a), b)
  {
    if b == [] {
      assert a + b == a;
    } else {
      ReadConcat(r, a, b[..|b| - 1]);
      assert (a + b)[..|a + b| - 1] == a + b[..|b| - 1];
    }
  }

  lemma ReadOne(r: Reader, e: WireEvent)
    ensures ReadAll(r, [e]) == Read(r, e)
  {
    assert [e][..0] == [];
  }

  lemma ReadSnoc(r: Reader, a: seq<WireEvent>, e: WireEvent)
    ensures ReadAll(r, a + [e]) == Read(ReadAll(r, a), e)
  {
    assert (a + [e])[..|a|] == a;
  }
}
