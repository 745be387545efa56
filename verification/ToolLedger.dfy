/**
 Tool events of any kind: the list of all calls with what has reached them, and the session's
 output as one whole block per call, in call order.
 */
module ToolLedger {
  import opened Wrappers
  import opened Events
  import opened Translation
  import opened Sessions
  import opened Conservation

  ghost predicate ToolOnly(events: seq<ModelEvent>) {
    forall e | e in events :: IsTool(e)
  }

  function Last(events: seq<ModelEvent>): ModelEvent
    requires events != []
  {
    events[|events| - 1]
  }

  function Init(events: seq<ModelEvent>): seq<ModelEvent>
    requires events != []
  {
    events[..|events| - 1]
  }

  function Deliveries(tools: seq<PendingTool>): seq<WireEvent> {
    if tools == [] then [] else Deliveries(tools[..|tools| - 1]) + Delivery(tools[|tools| - 1])
  }

  lemma {:induction false} DeliveriesConcat(a: seq<PendingTool>, b: seq<PendingTool>)
    ensures Deliveries(a + b) == Deliveries(a) + Deliveries(b)
  {
    hide Delivery;
    if b == [] {
      assert a + b == a;
    } else {
      DeliveriesConcat(a, b[..|b| - 1]);
      assert (a + b)[..|a + b| - 1] == a + b[..|b| - 1];
    }
  }

  lemma DeliveriesCons(tool: PendingTool, rest: seq<PendingTool>)
    ensures Deliveries([tool] + rest) == Delivery(tool) + Deliveries(rest)
  {
    DeliveriesConcat([tool], rest);
    assert [tool][..0] == [];
  }

  /** Translator state in a tool-only session: nothing open, and the undelivered calls wait. */
  ghost predicate Waiting(t: Translator, sequences: seq<string>, tools: seq<PendingTool>, n: nat) {
    t == NewTranslator(sequences).(nextIndex := n, tools := tools)
  }

  lemma {:induction false} DeliveredFinishedPrefix(t: Translator)
    requires t.open.None?
    ensures var j := EndedFront(t.tools); DeliveredFinished(t) == (t.(tools := t.tools[j..]), Deliveries(t.tools[..j]))
    decreases |t.tools|
  {
    hide Deliveries, Delivery;
    if t.tools == [] || !t.tools[0].ended {
      NoDeliveries();
    } else {
      var rest, j := t.(tools := t.tools[1..]), EndedFront(t.tools);
      DeliveredFinishedPrefix(rest);
      assert t.tools[..j] == [t.tools[0]] + rest.tools[..j - 1];
      DeliveriesCons(t.tools[0], rest.tools[..j - 1]);
      assert rest.tools[j - 1..] == t.tools[j..];
      assert [] + Delivery(t.tools[0]) == Delivery(t.tools[0]);
    }
  }

  lemma NoDeliveries()
    ensures Deliveries([]) == []
  {
  }

  lemma {:induction false} DeliveredAllOutput(t: Translator)
    requires t.open.None?
    ensures DeliveredAll(t) == (t.(tools := []), Deliveries(t.tools))
    decreases |t.tools|
  {
    if t.tools == [] {
    } else {
      var rest := t.(tools := t.tools[1..]);
      DeliveredAllOutput(rest);
      DeliveriesCons(t.tools[0], rest.tools);
      assert t.tools == [t.tools[0]] + rest.tools;
      assert [] + Delivery(t.tools[0]) == Delivery(t.tools[0]);
    }
  }

  /** The call an argument piece or an end names. */
  function Updated(tool: PendingTool, e: ModelEvent): PendingTool
    requires e.ToolCallArgumentsDelta? || e.ToolCallEnd?
  {
    if e.ToolCallEnd? then tool.(ended := true) else tool.(arguments := tool.arguments + e.partial)
  }

  /**
   One event in the list of all calls: calls up to the first that has not ended are out of
   reach; among the others the first with this provider index is meant, and only if there is
   none does a start begin a new call.
   */
  function Entered(ledger: seq<PendingTool>, e: ModelEvent): seq<PendingTool>
    requires IsTool(e)
  {
    var p := EndedFront(ledger) + Position(ledger[EndedFront(ledger)..], e.index);
    if e.ToolCallStart? then
      if p < |ledger| then ledger else ledger + [PendingTool(|ledger|, e.index, e.callId, e.name, "", false)]
    else if p == |ledger| then ledger
    else ledger[p := Updated(ledger[p], e)]
  }

  ghost function Ledger(events: seq<ModelEvent>): seq<PendingTool>
    requires ToolOnly(events)
  {
    if events == [] then []
    else
      assert Last(events) in events && forall e | e in Init(events) :: e in events;
      Entered(Ledger(Init(events)), Last(events))
  }

  /** Calls that have ended stay at the front of the count. */
  lemma {:induction false} DoneSplit(ledger: seq<PendingTool>, f: nat)
    requires f <= |ledger| && forall i | 0 <= i < f :: ledger[i].ended
    ensures EndedFront(ledger) == f + EndedFront(ledger[f..])
    decreases f
  {
    if f == 0 {
      assert ledger[0..] == ledger;
    } else {
      DoneSplit(ledger[1..], f - 1);
      assert ledger[1..][f - 1..] == ledger[f..];
    }
  }

  lemma {:induction false} DoneEnded(ledger: seq<PendingTool>)
    ensures forall i | 0 <= i < EndedFront(ledger) :: ledger[i].ended
    ensures EndedFront(ledger) < |ledger| ==> !ledger[EndedFront(ledger)].ended
  {
    if ledger != [] && ledger[0].ended {
      DoneEnded(ledger[1..]);
    }
  }

  lemma DoneIs(ledger: seq<PendingTool>, f: nat)
    requires f <= |ledger| && forall i | 0 <= i < f :: ledger[i].ended
    requires f < |ledger| ==> !ledger[f].ended
    ensures EndedFront(ledger) == f
  {
    DoneSplit(ledger, f);
  }

  /** The translator holds what the ledger still has to deliver, and has sent the rest. */
  ghost predicate Books(t: Translator, out: seq<WireEvent>, sequences: seq<string>, ledger: seq<PendingTool>) {
    Waiting(t, sequences, ledger[EndedFront(ledger)..], |ledger|) && out == Deliveries(ledger[..EndedFront(ledger)])
  }

  lemma StartEntered(t: Translator, out: seq<WireEvent>, sequences: seq<string>, ledger: seq<PendingTool>, e: ModelEvent)
    requires e.ToolCallStart? && Books(t, out, sequences, ledger)
    ensures Books(Pushed(t, e).0, out + Pushed(t, e).1, sequences, Entered(ledger, e))
  {
    hide Deliveries, Delivery, DeliveredFinished;
    var f, now := EndedFront(ledger), Entered(ledger, e);
    assert out + [] == out;
    if now != ledger {
      DoneEnded(ledger);
      DoneIs(now, f);
      assert now[f..] == ledger[f..] + [now[|ledger|]] && now[..f] == ledger[..f];
    }
  }

  lemma ArgumentsEntered(t: Translator, out: seq<WireEvent>, sequences: seq<string>, ledger: seq<PendingTool>, e: ModelEvent)
    requires e.ToolCallArgumentsDelta? && Books(t, out, sequences, ledger)
    ensures Books(Pushed(t, e).0, out + Pushed(t, e).1, sequences, Entered(ledger, e))
  {
    hide Deliveries;
    var f, now := EndedFront(ledger), Entered(ledger, e);
    assert out + [] == out;
    if now != ledger {
      var p := Position(ledger[f..], e.index);
      DoneEnded(ledger);
      DoneIs(now, f);
      assert now[f..] == ledger[f..][p := now[f + p]] && now[..f] == ledger[..f];
    }
  }

  lemma EndEntered(t: Translator, out: seq<WireEvent>, sequences: seq<string>, ledger: seq<PendingTool>, e: ModelEvent)
    requires e.ToolCallEnd? && Books(t, out, sequences, ledger)
    ensures Books(Pushed(t, e).0, out + Pushed(t, e).1, sequences, Entered(ledger, e))
  {
    hide Deliveries, DeliveredFinished, Delivery, Entered, EndedFront;
    var f, now := EndedFront(ledger), Entered(ledger, e);
    EndLedger(ledger, e);
    MarkedTools(t, e.index);
    var s, j := Marked(t, e.index), EndedFront(now[f..]);
    DeliveredFinishedPrefix(s);
    assert now[f..][j..] == now[f + j..] && now[..f + j] == now[..f] + now[f..][..j];
    DeliveriesConcat(now[..f], now[f..][..j]);
  }

  /** Waiting tools with the first of this provider index ended. */
  function MarkedIn(tools: seq<PendingTool>, index: nat): seq<PendingTool> {
    var p := Position(tools, index);
    if p == |tools| then tools else tools[p := tools[p].(ended := true)]
  }

  lemma MarkedTools(t: Translator, index: nat)
    ensures Marked(t, index) == t.(tools := MarkedIn(t.tools, index))
  {
  }

  lemma UpdatedBehind<T>(items: seq<T>, f: nat, p: nat, x: T)
    requires f + p < |items|
    ensures items[f + p := x][..f] == items[..f] && items[f + p := x][f..] == items[f..][p := x]
  {
  }

  lemma EndLedger(ledger: seq<PendingTool>, e: ModelEvent)
    requires e.ToolCallEnd?
    ensures var (f, now) := (EndedFront(ledger), Entered(ledger, e));
            && |now| == |ledger| && now[..f] == ledger[..f] && now[f..] == MarkedIn(ledger[f..], e.index)
            && EndedFront(now) == f + EndedFront(now[f..])
  {
    hide EndedFront, Position;
    var f, now := EndedFront(ledger), Entered(ledger, e);
    var p := Position(ledger[f..], e.index);
    DoneEnded(ledger);
    if f + p < |ledger| {
      UpdatedBehind(ledger, f, p, ledger[f + p].(ended := true));
    }
    DoneSplit(now, f);
  }

  lemma {:induction false} LedgerBooks(sequences: seq<string>, events: seq<ModelEvent>)
    requires ToolOnly(events)
    ensures var (t, out) := Session(NewTranslator(sequences), Pushes(events)); Books(t, out, sequences, Ledger(events))
  {
    if events == [] {
    } else {
      hide Books, Entered, Pushed;
      var init, e := Init(events), Last(events);
      assert events == init + [e] && e in events && forall x | x in init :: x in events;
      LedgerBooks(sequences, init);
      var (t, out) := Session(NewTranslator(sequences), Pushes(init));
      PushesSnoc(NewTranslator(sequences), init, e);
      match e
      case ToolCallStart(_, _, _) => StartEntered(t, out, sequences, Ledger(init), e);
      case ToolCallArgumentsDelta(_, _) => ArgumentsEntered(t, out, sequences, Ledger(init), e);
      case ToolCallEnd(_) => EndEntered(t, out, sequences, Ledger(init), e);
    }
  }

  /** The whole output of a finished session after its `message_start`. */
  function Output(sequences: seq<string>, events: seq<ModelEvent>): seq<WireEvent> {
    Session(NewTranslator(sequences), Pushes(events) + [Finish]).1
  }

  const END := [MessageDelta(EndTurn, None, UsageOf(NO_USAGE)), MessageStop]

  /** For any tool events: one delivery per call of the ledger, in call order. */
  lemma LedgerOutput(sequences: seq<string>, events: seq<ModelEvent>)
    requires ToolOnly(events)
    ensures Output(sequences, events) == Deliveries(Ledger(events)) + END
  {
    hide Ledger, Books, Finished, Deliveries, Session;
    LedgerBooks(sequences, events);
    var (t, out) := Session(NewTranslator(sequences), Pushes(events));
    SessionSnoc(NewTranslator(sequences), Pushes(events), Finish);
    FinishStep(t, out, sequences, Ledger(events));
  }

  lemma FinishStep(t: Translator, out: seq<WireEvent>, sequences: seq<string>, ledger: seq<PendingTool>)
    requires Books(t, out, sequences, ledger)
    ensures out + Finished(t).1 == Deliveries(ledger) + END
  {
    hide Deliveries, DeliveredAll;
    var f := EndedFront(ledger);
    DeliveredAllOutput(t.(finished := true));
    DeliveriesConcat(ledger[..f], ledger[f..]);
    assert ledger[..f] + ledger[f..] == ledger;
    assert out + (Deliveries(ledger[f..]) + [] + END) == out + Deliveries(ledger[f..]) + END;
  }
}
