/**
 Parallel tool calls: however the provider interleaves them, the client receives one whole
 block per call, in call order, with all of its arguments, unless they come too late.
 */
module Interleaving {
  import opened Wrappers
  import opened Events
  import opened Translation
  import opened Sessions
  import opened Conservation
  import opened ToolLedger

  datatype Call = Call(index: nat, callId: string, name: string)

  /** The calls, in the order they start. */
  function Calls(events: seq<ModelEvent>): seq<Call> {
    if events == [] then []
    else
      var e := Last(events);
      Calls(Init(events)) + if e.ToolCallStart? then [Call(e.index, e.callId, e.name)] else []
  }

  ghost predicate HasStarted(events: seq<ModelEvent>, index: nat) {
    exists call | call in Calls(events) :: call.index == index
  }

  /** All argument text sent for `index` after its start. */
  ghost function ArgumentsFor(events: seq<ModelEvent>, index: nat): string {
    if events == [] then ""
    else
      var e := Last(events);
      ArgumentsFor(Init(events), index)
      + if e.ToolCallArgumentsDelta? && e.index == index && HasStarted(Init(events), index) then e.partial else ""
  }

  ghost predicate HasEnded(events: seq<ModelEvent>, index: nat) {
    events != [] &&
    (HasEnded(Init(events), index) || (Last(events) == ToolCallEnd(index) && HasStarted(Init(events), index)))
  }

  ghost predicate StartOnce(events: seq<ModelEvent>) {
    forall i, j | 0 <= i < j < |Calls(events)| :: Calls(events)[i].index != Calls(events)[j].index
  }

  /** No call receives arguments after its own end, delivered or not. */
  ghost predicate NoLateArguments(events: seq<ModelEvent>) {
    events == [] ||
    (NoLateArguments(Init(events)) && (Last(events).ToolCallArgumentsDelta? ==> !HasEnded(Init(events), Last(events).index)))
  }

  /** The k-th call as the batch view has it: block k, with everything `events` says about it. */
  ghost function Tool(events: seq<ModelEvent>, k: nat): PendingTool
    requires k < |Calls(events)|
  {
    var call := Calls(events)[k];
    PendingTool(k, call.index, call.callId, call.name, ArgumentsFor(events, call.index), HasEnded(events, call.index))
  }

  ghost function Tools(events: seq<ModelEvent>): seq<PendingTool> {
    seq(|Calls(events)|, k requires 0 <= k < |Calls(events)| => Tool(events, k))
  }

  lemma {:induction false} NothingBeforeStart(events: seq<ModelEvent>, index: nat)
    requires !HasStarted(events, index)
    ensures ArgumentsFor(events, index) == "" && !HasEnded(events, index)
  {
    if events == [] {
    } else {
      assert forall call | call in Calls(Init(events)) :: call in Calls(events);
      NothingBeforeStart(Init(events), index);
    }
  }

  // How one more event changes the batch view.

  /** Equal views of all calls but the one named, as text pieces for other calls are empty. */
  lemma OtherTools(events: seq<ModelEvent>, e: ModelEvent, k: nat)
    requires e.ToolCallStart? || e.ToolCallArgumentsDelta? || e.ToolCallEnd?
    requires k < |Calls(events)| && Calls(events)[k].index != e.index
    ensures k < |Calls(events + [e])| && Tool(events + [e], k) == Tool(events, k)
  {
    assert Init(events + [e]) == events;
    var index := Calls(events)[k].index;
    assert ArgumentsFor(events, index) + "" == ArgumentsFor(events, index);
  }

  lemma StartsLast(events: seq<ModelEvent>, e: ModelEvent)
    requires e.ToolCallStart? && StartOnce(events + [e])
    ensures Calls(events + [e]) == Calls(events) + [Call(e.index, e.callId, e.name)]
    ensures forall k | 0 <= k < |Calls(events)| :: Calls(events)[k].index != e.index
    ensures !HasStarted(events, e.index)
  {
    var now, calls := events + [e], Calls(events);
    assert Init(now) == events;
    forall k | 0 <= k < |calls|
      ensures calls[k].index != e.index
    {
      assert Calls(now)[k] == calls[k] && Calls(now)[|calls|].index == e.index;
    }
  }

  lemma ToolsAfterStart(events: seq<ModelEvent>, e: ModelEvent)
    requires e.ToolCallStart? && StartOnce(events + [e])
    ensures forall k | 0 <= k < |Tools(events)| :: Tools(events)[k].providerIndex != e.index
    ensures Tools(events + [e]) == Tools(events) + [PendingTool(|Tools(events)|, e.index, e.callId, e.name, "", false)]
  {
    StartsLast(events, e);
    forall k | 0 <= k < |Calls(events)|
      ensures Tool(events + [e], k) == Tool(events, k)
    {
      OtherTools(events, e, k);
    }
    StartedTool(events, e);
  }

  lemma StartedTool(events: seq<ModelEvent>, e: ModelEvent)
    requires e.ToolCallStart? && !HasStarted(events, e.index)
    requires Calls(events + [e]) == Calls(events) + [Call(e.index, e.callId, e.name)]
    ensures Tool(events + [e], |Calls(events)|) == PendingTool(|Calls(events)|, e.index, e.callId, e.name, "", false)
  {
    assert Init(events + [e]) == events;
    NothingBeforeStart(events, e.index);
    assert "" + "" == "";
  }

  lemma NamedTool(events: seq<ModelEvent>, e: ModelEvent, k: nat)
    requires e.ToolCallArgumentsDelta? || e.ToolCallEnd?
    requires k < |Calls(events)| && Calls(events)[k].index == e.index
    ensures k < |Calls(events + [e])| && Tool(events + [e], k) == Updated(Tool(events, k), e)
  {
    assert Init(events + [e]) == events;
    assert Calls(events + [e]) == Calls(events) + [] == Calls(events);
    assert Calls(events)[k] in Calls(events);
    assert ArgumentsFor(events, e.index) + "" == ArgumentsFor(events, e.index);
  }

  /** Arguments and ends change at most the one call they name. */
  lemma ToolsAfterOther(events: seq<ModelEvent>, e: ModelEvent) returns (k: nat)
    requires e.ToolCallArgumentsDelta? || e.ToolCallEnd?
    requires StartOnce(events)
    ensures k <= |Tools(events)|
    ensures forall i | 0 <= i < |Tools(events)| :: Tools(events)[i].providerIndex == e.index <==> i == k
    ensures k < |Tools(events)| ==> Tools(events)[k].ended == HasEnded(events, e.index)
    ensures var tools := Tools(events);
            Tools(events + [e]) == if k == |tools| then tools else tools[k := Updated(tools[k], e)]
  {
    k := CallNamed(events, e.index);
    assert Init(events + [e]) == events;
    assert Calls(events + [e]) == Calls(events) + [] == Calls(events);
    if k < |Calls(events)| {
      NamedTool(events, e, k);
    }
    forall i | 0 <= i < |Calls(events)| && i != k
      ensures Tool(events + [e], i) == Tool(events, i)
    {
      OtherTools(events, e, i);
    }
  }

  lemma CallNamed(events: seq<ModelEvent>, index: nat) returns (k: nat)
    requires StartOnce(events)
    ensures k <= |Calls(events)|
    ensures forall i | 0 <= i < |Calls(events)| :: Calls(events)[i].index == index <==> i == k
  {
    if i :| 0 <= i < |Calls(events)| && Calls(events)[i].index == index {
      k := i;
    } else {
      k := |Calls(events)|;
    }
  }

  /** The position of a call among the waiting ones. */
  lemma PositionIs(tools: seq<PendingTool>, f: nat, index: nat, k: nat)
    requires f <= |tools| && k <= |tools|
    requires forall i | 0 <= i < |tools| :: tools[i].providerIndex == index <==> i == k
    ensures Position(tools[f..], index) == if f <= k < |tools| then k - f else |tools| - f
  {
    var waiting := tools[f..];
    var p := Position(waiting, index);
    assert forall i | 0 <= i < |waiting| :: waiting[i] == tools[f + i];
    if f <= k < |tools| {
      assert waiting[k - f].providerIndex == index;
    }
  }

  /** Text for a call that has ended, and all calls before it too: it has been delivered. */
  ghost predicate TooLate(init: seq<ModelEvent>, e: ModelEvent) {
    && e.ToolCallArgumentsDelta? && e.partial != ""
    && exists k :: 0 <= k < EndedFront(Tools(init)) && Tools(init)[k].providerIndex == e.index
  }

  /** No argument text comes too late. */
  ghost predicate InTime(events: seq<ModelEvent>) {
    events == [] || (InTime(Init(events)) && !TooLate(Init(events), Last(events)))
  }

  // The ledger against the batch view.

  /** The same calls, but for argument text that has not arrived. */
  ghost predicate Behind(ledger: seq<PendingTool>, tools: seq<PendingTool>) {
    |ledger| == |tools| &&
    forall i | 0 <= i < |tools| ::
      ledger[i].(arguments := tools[i].arguments) == tools[i] && |ledger[i].arguments| <= |tools[i].arguments|
  }

  ghost predicate Short(ledger: seq<PendingTool>, tools: seq<PendingTool>) {
    |ledger| == |tools| && exists i :: 0 <= i < |tools| && |ledger[i].arguments| < |tools[i].arguments|
  }

  lemma {:induction false} SameFront(a: seq<PendingTool>, b: seq<PendingTool>)
    requires |a| == |b| && forall i | 0 <= i < |a| :: a[i].ended == b[i].ended
    ensures EndedFront(a) == EndedFront(b)
  {
    if a != [] && a[0].ended {
      SameFront(a[1..], b[1..]);
    }
  }

  /** Where the ledger looks for a call that the batch view has at `k`, or not at all. */
  lemma EnteredAt(ledger: seq<PendingTool>, tools: seq<PendingTool>, k: nat, e: ModelEvent)
    requires IsTool(e) && Behind(ledger, tools) && k <= |tools|
    requires forall i | 0 <= i < |tools| :: tools[i].providerIndex == e.index <==> i == k
    ensures EndedFront(ledger) == EndedFront(tools)
    ensures e.ToolCallStart? && k == |tools| ==>
              Entered(ledger, e) == ledger + [PendingTool(|tools|, e.index, e.callId, e.name, "", false)]
    ensures !e.ToolCallStart? ==>
              Entered(ledger, e) == if EndedFront(tools) <= k < |tools| then ledger[k := Updated(ledger[k], e)] else ledger
  {
    hide EndedFront, Position;
    SameFront(ledger, tools);
    assert forall i | 0 <= i < |tools| :: ledger[i].providerIndex == tools[i].providerIndex;
    PositionIs(ledger, EndedFront(tools), e.index, k);
  }

  /** One update: on time it keeps the ledger where it was against the batch view; too late, it leaves it short. */
  lemma UpdateBehind(ledger: seq<PendingTool>, tools: seq<PendingTool>, k: nat, e: ModelEvent)
    requires Behind(ledger, tools) && k < |tools| && (e.ToolCallArgumentsDelta? || e.ToolCallEnd?)
    ensures var (l, t) := (ledger[k := Updated(ledger[k], e)], tools[k := Updated(tools[k], e)]);
            Behind(l, t) && (ledger == tools ==> l == t) && (Short(ledger, tools) ==> Short(l, t))
    ensures tools[k].ended || e.ToolCallArgumentsDelta? ==>
              var t := tools[k := Updated(tools[k], e)];
              Behind(ledger, t) && (Short(ledger, tools) ==> Short(ledger, t))
              && (e.ToolCallEnd? || e.partial == "" ==> t == tools)
              && (e.ToolCallArgumentsDelta? && e.partial != "" ==> Short(ledger, t))
  {
    var (l, t) := (ledger[k := Updated(ledger[k], e)], tools[k := Updated(tools[k], e)]);
    if i :| 0 <= i < |tools| && |ledger[i].arguments| < |tools[i].arguments| {
      assert |l[i].arguments| < |t[i].arguments| && |ledger[i].arguments| < |t[i].arguments|;
    }
    if e.ToolCallArgumentsDelta? && e.partial == "" {
      assert tools[k].arguments + "" == tools[k].arguments;
    }
    if e.ToolCallArgumentsDelta? && e.partial != "" {
      assert |ledger[k].arguments| < |t[k].arguments|;
    }
  }

  /** The ledger is the batch view as long as everything comes in time, and short of text from then on. */
  lemma {:induction false} LedgerAgainstTools(events: seq<ModelEvent>)
    requires ToolOnly(events) && StartOnce(events)
    ensures Behind(Ledger(events), Tools(events))
    ensures if InTime(events) then Ledger(events) == Tools(events) else Short(Ledger(events), Tools(events))
  {
    if events == [] {
    } else {
      hide Ledger, Entered, Tools, EndedFront;
      var init, e := Init(events), Last(events);
      assert events == init + [e] && e in events;
      StillOnce(init, e);
      LedgerAgainstTools(init);
      LedgerSnoc(init, e);
      if e.ToolCallStart? {
        StartAgainst(init, e, Ledger(init));
      } else {
        OtherAgainst(init, e, Ledger(init));
      }
    }
  }

  lemma StartAgainst(init: seq<ModelEvent>, e: ModelEvent, ledger: seq<PendingTool>)
    requires e.ToolCallStart? && StartOnce(init + [e]) && Behind(ledger, Tools(init))
    ensures var (l, t) := (Entered(ledger, e), Tools(init + [e]));
            Behind(l, t) && (ledger == Tools(init) ==> l == t) && (Short(ledger, Tools(init)) ==> Short(l, t))
  {
    hide Entered, EndedFront;
    var tools := Tools(init);
    ToolsAfterStart(init, e);
    EnteredAt(ledger, tools, |tools|, e);
    if i :| 0 <= i < |tools| && |ledger[i].arguments| < |tools[i].arguments| {
      var (l, t) := (Entered(ledger, e), Tools(init + [e]));
      assert |l[i].arguments| < |t[i].arguments|;
    }
  }

  lemma OtherAgainst(init: seq<ModelEvent>, e: ModelEvent, ledger: seq<PendingTool>)
    requires (e.ToolCallArgumentsDelta? || e.ToolCallEnd?) && StartOnce(init) && Behind(ledger, Tools(init))
    ensures var (l, t) := (Entered(ledger, e), Tools(init + [e]));
            && Behind(l, t) && (Short(ledger, Tools(init)) ==> Short(l, t))
            && (ledger == Tools(init) ==> if TooLate(init, e) then Short(l, t) else l == t)
  {
    hide Entered, Tools, EndedFront;
    var tools := Tools(init);
    var k := ToolsAfterOther(init, e);
    EnteredAt(ledger, tools, k, e);
    DoneEnded(tools);
    if k < |tools| {
      UpdateBehind(ledger, tools, k, e);
    }
  }

  lemma StillOnce(init: seq<ModelEvent>, e: ModelEvent)
    requires ToolOnly(init + [e]) && StartOnce(init + [e])
    ensures ToolOnly(init) && StartOnce(init)
  {
    var events := init + [e];
    assert Init(events) == init;
    assert forall x | x in init :: x in events;
    assert forall i | 0 <= i < |Calls(init)| :: Calls(init)[i] == Calls(events)[i];
  }

  lemma LedgerSnoc(init: seq<ModelEvent>, e: ModelEvent)
    requires ToolOnly(init) && IsTool(e)
    ensures ToolOnly(init + [e]) && Ledger(init + [e]) == Entered(Ledger(init), e)
  {
    assert Init(init + [e]) == init;
  }

  // Short ledgers show in the output.

  function Length(e: WireEvent): nat {
    if e.BlockDelta? && e.delta.InputJson? then |e.delta.partial| else 0
  }

  /** How much argument text is sent. */
  function Sent(out: seq<WireEvent>): nat {
    if out == [] then 0 else Sent(out[..|out| - 1]) + Length(out[|out| - 1])
  }

  lemma {:induction false} SentConcat(a: seq<WireEvent>, b: seq<WireEvent>)
    ensures Sent(a + b) == Sent(a) + Sent(b)
  {
    if b == [] {
      assert a + b == a;
    } else {
      hide Length;
      SentConcat(a, b[..|b| - 1]);
      assert (a + b)[..|a + b| - 1] == a + b[..|b| - 1];
    }
  }

  lemma SentOne(e: WireEvent)
    ensures Sent([e]) == Length(e)
  {
    assert [e][..0] == [];
  }

  lemma SentDelivery(tool: PendingTool)
    ensures Sent(Delivery(tool)) == |tool.arguments|
  {
    hide Sent;
    var start, stop := BlockStart(tool.block, ToolUseBlock(tool.callId, tool.name)), BlockStop(tool.block);
    var delta := BlockDelta(tool.block, InputJson(tool.arguments));
    SentOne(start);
    SentOne(delta);
    SentOne(stop);
    SentConcat([start], [delta]);
    SentConcat([start] + [delta], [stop]);
    SentConcat([start], [stop]);
    if tool.arguments == "" {
      assert Delivery(tool) == [start] + [stop];
    } else {
      assert Delivery(tool) == [start] + [delta] + [stop];
    }
  }

  lemma {:induction false} ShortSendsLess(ledger: seq<PendingTool>, tools: seq<PendingTool>)
    requires Behind(ledger, tools)
    ensures Sent(Deliveries(ledger)) <= Sent(Deliveries(tools))
    ensures Short(ledger, tools) ==> Sent(Deliveries(ledger)) < Sent(Deliveries(tools))
  {
    if tools == [] {
    } else {
      hide Sent, Delivery;
      var n := |tools| - 1;
      ShortSendsLess(ledger[..n], tools[..n]);
      SentConcat(Deliveries(ledger[..n]), Delivery(ledger[n]));
      SentConcat(Deliveries(tools[..n]), Delivery(tools[n]));
      SentDelivery(ledger[n]);
      SentDelivery(tools[n]);
      if i :| 0 <= i < |tools| && |ledger[i].arguments| < |tools[i].arguments| {
        if i < n {
          assert |ledger[..n][i].arguments| < |tools[..n][i].arguments|;
        }
      }
    }
  }

  /**
   If every index starts once: the output is one delivery per call, in call order, with all
   arguments sent for it, if and only if no argument text comes after its call was delivered.
   */
  lemma ToolSessionOutputIff(sequences: seq<string>, events: seq<ModelEvent>)
    requires ToolOnly(events) && StartOnce(events)
    ensures Output(sequences, events) == Deliveries(Tools(events)) + END <==> InTime(events)
  {
    hide Tools, Ledger, Deliveries, Output, InTime, Sent;
    LedgerOutput(sequences, events);
    LedgerAgainstTools(events);
    ShortSendsLess(Ledger(events), Tools(events));
    SentConcat(Deliveries(Ledger(events)), END);
    SentConcat(Deliveries(Tools(events)), END);
  }

  /** In particular when no call gets arguments after its own end. */
  lemma {:induction false} EndsLastIsInTime(events: seq<ModelEvent>)
    requires ToolOnly(events) && StartOnce(events) && NoLateArguments(events)
    ensures InTime(events)
  {
    if events == [] {
    } else {
      hide Tools, EndedFront;
      var init, e := Init(events), Last(events);
      assert events == init + [e] && e in events;
      StillOnce(init, e);
      EndsLastIsInTime(init);
      if e.ToolCallArgumentsDelta? {
        var k := ToolsAfterOther(init, e);
        DoneEnded(Tools(init));
      }
    }
  }

  /** What a session says about one call: its start and argument pieces, in order. */
  function Projection(events: seq<ModelEvent>, index: nat): seq<ModelEvent> {
    if events == [] then []
    else
      var e := Last(events);
      Projection(Init(events), index)
      + if (e.ToolCallStart? || e.ToolCallArgumentsDelta?) && e.index == index then [e] else []
  }

  lemma {:induction false} ProjectionKeeps(events: seq<ModelEvent>, index: nat)
    ensures ArgumentsFor(Projection(events, index), index) == ArgumentsFor(events, index)
    ensures HasStarted(Projection(events, index), index) <==> HasStarted(events, index)
  {
    if events == [] {
    } else {
      var init, e := Init(events), Last(events);
      ProjectionKeeps(init, index);
      var before := Projection(init, index);
      if (e.ToolCallStart? || e.ToolCallArgumentsDelta?) && e.index == index {
        assert Init(before + [e]) == before;
        if e.ToolCallStart? {
          var call := Call(index, e.callId, e.name);
          assert call in Calls(before + [e]) && call in Calls(events);
        }
      } else {
        assert before + [] == before;
        assert ArgumentsFor(init, index) + "" == ArgumentsFor(init, index);
      }
    }
  }

  /**
   Interleaving does not matter among sessions in time: for equal call order and equal pieces
   per call, another session has the same output as one in time if and only if it is in time
   too. Whether, and where, ends are reported only matters for that.
   */
  lemma InterleavingIndependenceIff(sequences: seq<string>, a: seq<ModelEvent>, b: seq<ModelEvent>)
    requires ToolOnly(a) && StartOnce(a) && InTime(a)
    requires ToolOnly(b) && Calls(a) == Calls(b)
    requires forall index :: Projection(a, index) == Projection(b, index)
    ensures Output(sequences, a) == Output(sequences, b) <==> InTime(b)
  {
    hide InTime, Output, Deliveries;
    ToolSessionOutputIff(sequences, a);
    ToolSessionOutputIff(sequences, b);
    SameBatch(a, b);
  }

  lemma SameBatch(a: seq<ModelEvent>, b: seq<ModelEvent>)
    requires Calls(a) == Calls(b) && forall index :: Projection(a, index) == Projection(b, index)
    ensures Deliveries(Tools(a)) == Deliveries(Tools(b))
  {
    hide Deliveries, Projection;
    var ta, tb := Tools(a), Tools(b);
    forall k | 0 <= k < |ta|
      ensures ta[k].(ended := true) == tb[k].(ended := true)
    {
      var index := Calls(a)[k].index;
      ProjectionKeeps(a, index);
      ProjectionKeeps(b, index);
      assert Projection(a, index) == Projection(b, index);
    }
    SameDeliveries(ta, tb);
  }

  lemma {:induction false} SameDeliveries(a: seq<PendingTool>, b: seq<PendingTool>)
    requires |a| == |b| && forall k | 0 <= k < |a| :: a[k].(ended := true) == b[k].(ended := true)
    ensures Deliveries(a) == Deliveries(b)
  {
    if a == [] {
    } else {
      SameDeliveries(a[..|a| - 1], b[..|b| - 1]);
      assert a[|a| - 1].(ended := true) == b[|b| - 1].(ended := true);
    }
  }

  // Coming too late is possible.

  const START := ToolCallStart(0, "c", "n")
  const LATE := ToolCallArgumentsDelta(0, "x")
  const CALL := PendingTool(0, 0, "c", "n", "", false)

  lemma OneCall(ledger: seq<PendingTool>, e: ModelEvent)
    requires |ledger| == 1 && ledger[0].providerIndex == 0 && (e.ToolCallArgumentsDelta? || e.ToolCallEnd?) && e.index == 0
    ensures Entered(ledger, e) == if ledger[0].ended then ledger else [Updated(ledger[0], e)]
  {
    assert ledger[0..] == ledger && ledger[1..] == [];
  }

  lemma LateLedgers()
    ensures var (a, b) := ([START] + [ToolCallEnd(0)] + [LATE], [START] + [LATE] + [ToolCallEnd(0)]);
            && ToolOnly(a) && ToolOnly(b)
            && Ledger(a) == [CALL.(ended := true)] && Ledger(b) == [CALL.(arguments := "x", ended := true)]
  {
    hide Entered;
    LedgerSnoc([], START);
    assert Ledger([START]) == [CALL] by {
      StartAlone();
      assert [] + [START] == [START];
    }
    LedgerSnoc([START], ToolCallEnd(0));
    LedgerSnoc([START] + [ToolCallEnd(0)], LATE);
    LedgerSnoc([START], LATE);
    LedgerSnoc([START] + [LATE], ToolCallEnd(0));
    OneCall([CALL], ToolCallEnd(0));
    OneCall([CALL.(ended := true)], LATE);
    OneCall([CALL], LATE);
    assert "" + "x" == "x";
    OneCall([CALL.(arguments := "x")], ToolCallEnd(0));
  }

  lemma StartAlone()
    ensures Ledger([]) == [] && Entered([], START) == [CALL]
  {
  }

  lemma ProjectionSnoc(init: seq<ModelEvent>, e: ModelEvent, index: nat)
    ensures Projection(init + [e], index) ==
            Projection(init, index) + if (e.ToolCallStart? || e.ToolCallArgumentsDelta?) && e.index == index then [e] else []
    ensures Calls(init + [e]) == Calls(init) + if e.ToolCallStart? then [Call(e.index, e.callId, e.name)] else []
  {
    assert Init(init + [e]) == init;
  }

  /**
   Same calls, same pieces per call, but one list has the pieces behind the end of their
   call: they come after its delivery and are dropped.
   */
  lemma LateArgumentsAreDropped(sequences: seq<string>)
    ensures var (a, b) := ([START] + [ToolCallEnd(0)] + [LATE], [START] + [LATE] + [ToolCallEnd(0)]);
            && Calls(a) == Calls(b) && (forall index :: Projection(a, index) == Projection(b, index))
            && Output(sequences, a) != Output(sequences, b)
  {
    hide Projection, Calls, Output;
    var (a, b) := ([START] + [ToolCallEnd(0)] + [LATE], [START] + [LATE] + [ToolCallEnd(0)]);
    forall index
      ensures Projection(a, index) == Projection(b, index) && Calls(a) == Calls(b)
    {
      ProjectionSnoc([START], ToolCallEnd(0), index);
      ProjectionSnoc([START] + [ToolCallEnd(0)], LATE, index);
      ProjectionSnoc([START], LATE, index);
      ProjectionSnoc([START] + [LATE], ToolCallEnd(0), index);
    }
    assert Projection(a, 0) == Projection(b, 0);
    LateLedgers();
    LedgerOutput(sequences, a);
    LedgerOutput(sequences, b);
    OneDelivery(CALL.(ended := true));
    OneDelivery(CALL.(arguments := "x", ended := true));
  }

  lemma OneDelivery(tool: PendingTool)
    ensures |Deliveries([tool])| == if tool.arguments == "" then 2 else 3
  {
    assert [tool][..0] == [];
  }

  const OTHER := ToolCallStart(1, "d", "m")
  const STILL := ToolCallArgumentsDelta(1, "x")

  lemma EventSnoc(init: seq<ModelEvent>, e: ModelEvent, index: nat)
    ensures Calls(init + [e]) == Calls(init) + if e.ToolCallStart? then [Call(e.index, e.callId, e.name)] else []
    ensures HasEnded(init + [e], index) == (HasEnded(init, index) || (e == ToolCallEnd(index) && HasStarted(init, index)))
    ensures InTime(init + [e]) == (InTime(init) && !TooLate(init, e))
    ensures NoLateArguments(init + [e]) == (NoLateArguments(init) && (e.ToolCallArgumentsDelta? ==> !HasEnded(init, e.index)))
  {
    assert Init(init + [e]) == init;
  }

  /** The second call has ended, the first has not. */
  lemma SecondEnded()
    ensures var init := [START] + [OTHER] + [ToolCallEnd(1)];
            && Calls(init) == [Call(0, "c", "n"), Call(1, "d", "m")]
            && !HasEnded(init, 0) && HasEnded(init, 1) && InTime(init) && NoLateArguments(init)
  {
    hide Calls, HasEnded, InTime, NoLateArguments;
    NoEvents();
    var one, two := [START], [START] + [OTHER];
    assert [] + [START] == one;
    EventSnoc([], START, 0);
    EventSnoc([], START, 1);
    EventSnoc(one, OTHER, 0);
    EventSnoc(one, OTHER, 1);
    EventSnoc(two, ToolCallEnd(1), 0);
    EventSnoc(two, ToolCallEnd(1), 1);
    assert Calls(two)[1] == Call(1, "d", "m");
    assert Calls(two)[1] in Calls(two);
  }

  lemma NoEvents()
    ensures Calls([]) == [] && !HasEnded([], 0) && !HasEnded([], 1) && InTime([]) && NoLateArguments([])
  {
  }

  /** A call's own end alone is not too late: while the call before it is open, its text still arrives. */
  lemma EndedIsNotTooLate()
    ensures var events := [START] + [OTHER] + [ToolCallEnd(1)] + [STILL];
            StartOnce(events) && InTime(events) && !NoLateArguments(events)
  {
    hide Calls, HasEnded, InTime, NoLateArguments;
    var init := [START] + [OTHER] + [ToolCallEnd(1)];
    SecondEnded();
    EventSnoc(init, STILL, 1);
    assert !Tools(init)[0].ended && EndedFront(Tools(init)) == 0;
  }
}
