/** What the Watch and SSE handlers send to their viewers, against what their channels were given. */
module PipelineDelivery {
  import opened Events
  import opened Subsequences
  import opened BoundedQueue
  import opened Pipeline
  import opened PipelineInvariants
  import opened PipelineTheorems
  import B = BrokerSteps

  // ---------------------------------------------------------------- sent and received

  /** The event a handler has taken and not yet sent. */
  function InHand(p: Phase): seq<Event> {
    if p.Delivering? then [p.ev] else []
  }

  predicate Live(p: Phase) {
    p.Inserted? || p.Watching? || p.Delivering?
  }

  /** A live handler has sent all it received but the event in hand; one on its way out has sent
      what it received, or all of it but the event whose send failed. */
  ghost predicate SentFits(handler: Handler, received: seq<Event>) {
    var p := handler.phase;
    if Live(p) then received == handler.sent + InHand(p)
    else handler.sent <= received && |received| <= |handler.sent| + 1
  }

  ghost predicate Delivers(s: State, h: nat)
    requires h in s.handlers
  {
    var handler := s.handlers[h];
    if HasId(handler.phase) then SentFits(handler, QueueOf(s, handler.phase.id).received) else handler.sent == []
  }

  ghost predicate AllDeliver(s: State) {
    forall h :: h in s.handlers ==> Delivers(s, h)
  }

  lemma OthersLeaveReceived(b: B.State, step: B.Step, id: nat)
    requires B.Enabled(b, step) && step != B.Receive(id) && (step.InsertSubscriber? ==> id != b.nextID)
    ensures B.ChanAt(B.Next(b, step), id).q.received == B.ChanAt(b, id).q.received
  {
  }

  lemma ReceiveTakesOldest(b: B.State, id: nat)
    requires B.Enabled(b, B.Receive(id))
    ensures B.ChanAt(B.Next(b, B.Receive(id)), id).q.received
         == B.ChanAt(b, id).q.received + [B.ChanAt(b, id).q.buf[0]]
  {
  }

  lemma ForwardLeavesReceived(s: State, fs: ForwardStep, id: nat)
    requires ForwardEnabled(s, fs)
    ensures QueueOf(NextForward(s, fs), id).received == QueueOf(s, id).received
    ensures NextForward(s, fs).handlers == s.handlers
  {
    if ForwardBroker(s, fs).Some? {
      OthersLeaveReceived(s.broker, ForwardBroker(s, fs).value, id);
    }
  }

  lemma HandleLeavesReceived(s: State, h: nat, hs: HandlerStep, id: nat)
    requires HandleEnabled(s, h, hs)
    requires hs.Receive? ==> s.handlers[h].phase.id != id
    requires hs.InsertSub? ==> id != s.broker.nextID
    ensures QueueOf(NextHandle(s, h, hs), id).received == QueueOf(s, id).received
  {
    if !hs.Connect? {
      HandlerBrokerStep(s, h, hs);
      var b := HandlerBroker(s.handlers[h].phase, hs);
      if b.Some? {
        OthersLeaveReceived(s.broker, b.value, id);
      }
    }
  }

  lemma HandlerAfter(s: State, h: nat, hs: HandlerStep)
    requires HandleEnabled(s, h, hs)
    ensures var t := NextHandle(s, h, hs);
      && t.handlers == s.handlers[h := t.handlers[h]]
      && (hs.Connect? ==> t.handlers[h] == Handler(hs.kind, Entering, []))
      && (!hs.Connect? ==>
            && t.handlers[h].phase == NextPhase(s.broker, s.handlers[h].phase, hs)
            && t.handlers[h].sent == NextSent(s.handlers[h], hs))
  {
    match hs
    case Connect(_) =>
    case InsertSub =>
    case DeleteSub =>
    case _ =>
  }

  /** The handler that takes a step keeps its account, whatever the step. */
  lemma MoverDelivers(s: State, h: nat, hs: HandlerStep)
    requires B.ChannelsMatch(s.broker) && HandleEnabled(s, h, hs) && !hs.Connect? && Delivers(s, h)
    ensures h in NextHandle(s, h, hs).handlers && Delivers(NextHandle(s, h, hs), h)
  {
    HandlerAfter(s, h, hs);
    var p := s.handlers[h].phase;
    HandlerBrokerStep(s, h, hs);
    if hs.Receive? {
      ReceiveTakesOldest(s.broker, p.id);
    } else if HasId(p) {
      HandleLeavesReceived(s, h, hs, p.id);
    }
  }

  lemma BystanderDelivers(s: State, h: nat, hs: HandlerStep, g: nat)
    requires HandlersInOrder(s) && HandleEnabled(s, h, hs) && g in s.handlers && g != h && Delivers(s, g)
    ensures g in NextHandle(s, h, hs).handlers && Delivers(NextHandle(s, h, hs), g)
  {
    HandlerAfter(s, h, hs);
    if HasId(s.handlers[g].phase) {
      var id := s.handlers[g].phase.id;
      assert id in s.owner && s.owner[id] == g;
      assert hs.Receive? ==> s.owner[s.handlers[h].phase.id] == h;
      HandleLeavesReceived(s, h, hs, id);
    }
  }

  lemma StepKeepsDelivery(s: State, step: Step)
    requires Inv(s) && AllDeliver(s) && Enabled(s, step)
    ensures AllDeliver(Next(s, step))
  {
    var t := Next(s, step);
    forall g | g in t.handlers ensures Delivers(t, g) {
      match step
      case Emit(es) => EmitDelivers(s, es, g);
      case Forward(fs) => ForwardDelivers(s, fs, g);
      case Handle(h, hs) => HandleDelivers(s, h, hs, g);
    }
  }

  lemma EmitDelivers(s: State, es: EmitStep, g: nat)
    requires EmitEnabled(s, es) && AllDeliver(s) && g in NextEmit(s, es).handlers
    ensures Delivers(NextEmit(s, es), g)
  {
    assert Delivers(s, g);
  }

  lemma ForwardDelivers(s: State, fs: ForwardStep, g: nat)
    requires ForwardEnabled(s, fs) && AllDeliver(s) && g in NextForward(s, fs).handlers
    ensures Delivers(NextForward(s, fs), g)
  {
    ForwardLeavesReceived(s, fs, 0);
    assert Delivers(s, g);
    var p := s.handlers[g].phase;
    ForwardLeavesReceived(s, fs, if HasId(p) then p.id else 0);
  }

  lemma HandleDelivers(s: State, h: nat, hs: HandlerStep, g: nat)
    requires B.ChannelsMatch(s.broker) && HandlersInOrder(s) && AllDeliver(s)
    requires HandleEnabled(s, h, hs) && g in NextHandle(s, h, hs).handlers
    ensures Delivers(NextHandle(s, h, hs), g)
  {
    HandlerAfter(s, h, hs);
    if g != h {
      BystanderDelivers(s, h, hs, g);
    } else if !hs.Connect? {
      MoverDelivers(s, h, hs);
    }
  }

  lemma {:induction false} RunKeepsDelivery(s: State, steps: seq<Step>)
    requires Inv(s) && AllDeliver(s) && Admissible(s, steps)
    ensures AllDeliver(Exec(s, steps))
    decreases |steps|
  {
    if steps != [] {
      StepKeepsInv(s, steps[0]);
      StepKeepsDelivery(s, steps[0]);
      RunKeepsDelivery(Next(s, steps[0]), steps[1..]);
    }
  }

  lemma ReachableDelivers(steps: seq<Step>)
    requires Admissible(Init(), steps)
    ensures Inv(Exec(Init(), steps)) && AllDeliver(Exec(Init(), steps))
  {
    Reachable(steps);
    InitInv();
    RunKeepsDelivery(Init(), steps);
  }

  /** In every reachable state a handler that waits for its next event has sent exactly what it
      received, and one that is sending has received that and the event in hand. */
  lemma SentIsReceived(steps: seq<Step>, h: nat)
    requires Admissible(Init(), steps) && h in Exec(Init(), steps).handlers
    ensures var s := Exec(Init(), steps); var handler := s.handlers[h];
      && (handler.phase.Watching? ==> QueueOf(s, handler.phase.id).received == handler.sent)
      && (handler.phase.Delivering? ==>
            QueueOf(s, handler.phase.id).received == handler.sent + [handler.phase.ev])
      && (HasId(handler.phase) ==> handler.sent <= QueueOf(s, handler.phase.id).received)
      && (!HasId(handler.phase) ==> handler.sent == [])
  {
    ReachableDelivers(steps);
    assert Delivers(Exec(Init(), steps), h);
  }

  // ---------------------------------------------------------------- what viewers see

  lemma PrefixIsSubsequence(a: seq<Event>, b: seq<Event>)
    requires a <= b
    ensures Subsequence(a, b)
  {
    SliceIsSubsequence(b, 0, |a|);
    assert b[0..|a|] == a;
  }

  /** Across both lossy stages a viewer is sent events in emission order, each emission at most
      once, and every viewer in the same order, namely that of the published events. */
  lemma ViewersSeeEmissionsInOrder(steps: seq<Step>, h: nat)
    requires Admissible(Init(), steps) && h in Exec(Init(), steps).handlers
    ensures var s := Exec(Init(), steps);
      && Subsequence(s.handlers[h].sent, s.published)
      && Subsequence(s.published, Emitted(s))
      && Subsequence(s.handlers[h].sent, Emitted(s))
  {
    var s := Exec(Init(), steps);
    var handler := s.handlers[h];
    SentIsReceived(steps, h);
    var id := if HasId(handler.phase) then handler.phase.id else 0;
    SubscribersSeeEmissionsInOrder(steps, id);
    assert handler.sent <= Seen(s, id);
    PrefixIsSubsequence(handler.sent, Seen(s, id));
    SubsequenceTransitive(handler.sent, Seen(s, id), s.published);
    SubsequenceTransitive(handler.sent, s.published, Emitted(s));
  }

  /** If neither channel was ever found full, a live viewer was sent every emission since it
      subscribed, in order, up to those in hand and still waiting. */
  lemma LosslessEndToEnd(steps: seq<Step>, h: nat)
    requires Admissible(Init(), steps)
    requires var s := Exec(Init(), steps);
      && h in s.handlers && Live(s.handlers[h].phase) && NeverFull(s.events)
      && NeverFull(QueueOf(s, s.handlers[h].phase.id))
    ensures var s := Exec(Init(), steps); var p := s.handlers[h].phase;
      && p.id in s.since && s.since[p.id] <= End(s, p.id) <= |Emitted(s)|
      && s.handlers[h].sent + InHand(p) + QueueOf(s, p.id).buf == Emitted(s)[s.since[p.id]..End(s, p.id)]
  {
    var s := Exec(Init(), steps);
    var p := s.handlers[h].phase;
    ReachableDelivers(steps);
    assert Delivers(s, h);
    assert p.id in s.owner;
    LosslessToSubscriber(steps, p.id);
  }

  // ---------------------------------------------------------------- what emitters send

  /** The events of a run's sends into the proxy's channel while it is open, in order. */
  function SentByEmitters(s: State, steps: seq<Step>): seq<Event>
    requires Admissible(s, steps)
    decreases |steps|
  {
    if steps == [] then []
    else
      var rest := SentByEmitters(Next(s, steps[0]), steps[1..]);
      if IsSend(steps[0]) && !s.eventsClosed then [s.emitters[steps[0].es.e]] + rest else rest
  }

  lemma StepEmits(s: State, step: Step)
    requires Enabled(s, step)
    ensures Emitted(Next(s, step))
         == if IsSend(step) && !s.eventsClosed then Emitted(s) + [s.emitters[step.es.e]] else Emitted(s)
  {
    match step
    case Emit(es) =>
      if es.Send? {
        OfferHistories(s.events, s.emitters[es.e]);
      }
    case Forward(fs) => ForwardLeavesEmitted(s, fs);
    case Handle(h, hs) => HandleLeavesForwarder(s, h, hs);
  }

  lemma ForwardLeavesEmitted(s: State, fs: ForwardStep)
    requires ForwardEnabled(s, fs)
    ensures NextForward(s, fs).events.log == s.events.log && NextForward(s, fs).emitters == s.emitters
  {
  }

  /** What counts as emitted is what the emitters sent, in the order of their sends. */
  lemma {:induction false} EmittedIsSent(s: State, steps: seq<Step>)
    requires Admissible(s, steps)
    ensures Emitted(Exec(s, steps)) == Emitted(s) + SentByEmitters(s, steps)
    decreases |steps|
  {
    if steps != [] {
      StepEmits(s, steps[0]);
      EmittedIsSent(Next(s, steps[0]), steps[1..]);
    }
  }

  lemma StepKeepsEmitter(s: State, step: Step, e: nat)
    requires Enabled(s, step) && e in s.emitters && step != Emit(Send(e))
    ensures e in Next(s, step).emitters && Next(s, step).emitters[e] == s.emitters[e]
  {
    match step
    case Emit(_) =>
    case Forward(fs) => ForwardLeavesEmitted(s, fs);
    case Handle(h, hs) => HandleLeavesEmitters(s, h, hs);
  }

  /** An emitter sends the event it began with, whatever happens in between. */
  lemma {:induction false} EmittersKeepTheirEvent(s: State, steps: seq<Step>, e: nat)
    requires Admissible(s, steps) && e in s.emitters
    requires forall i :: 0 <= i < |steps| ==> steps[i] != Emit(Send(e))
    ensures e in Exec(s, steps).emitters && Exec(s, steps).emitters[e] == s.emitters[e]
    decreases |steps|
  {
    if steps != [] {
      StepKeepsEmitter(s, steps[0], e);
      EmittersKeepTheirEvent(Next(s, steps[0]), steps[1..], e);
    }
  }

  // ---------------------------------------------------------------- leaving

  /** A handler that will not take another event. */
  predicate IsLeaving(p: Phase) {
    p.Leaving? || p.Deleting? || p.Closing? || p.Deleted? || p.Gone?
  }

  ghost predicate LeftWith(s: State, h: nat, sent: seq<Event>) {
    h in s.handlers && IsLeaving(s.handlers[h].phase) && s.handlers[h].sent == sent
  }

  lemma LeavingStaysSo(s: State, step: Step, h: nat, sent: seq<Event>)
    requires LeftWith(s, h, sent) && Enabled(s, step)
    ensures LeftWith(Next(s, step), h, sent)
  {
    match step
    case Emit(_) =>
    case Forward(fs) => ForwardLeavesReceived(s, fs, 0);
    case Handle(g, hs) => HandlerAfter(s, g, hs);
  }

  lemma {:induction false} NothingSentAfterLeaving(s: State, steps: seq<Step>, h: nat, sent: seq<Event>)
    requires LeftWith(s, h, sent) && Admissible(s, steps)
    ensures LeftWith(Exec(s, steps), h, sent)
    decreases |steps|
  {
    if steps != [] {
      LeavingStaysSo(s, steps[0], h, sent);
      NothingSentAfterLeaving(Next(s, steps[0]), steps[1..], h, sent);
    }
  }

  /** A failed send, a cancelled request and a closed channel end the stream: whatever happens
      afterwards, the viewer is sent nothing more, and what failed to be sent stays unsent. */
  lemma EndedStreamsStayEnded(s: State, h: nat, hs: HandlerStep, steps: seq<Step>)
    requires hs == SendFailed || hs == Cancel || hs == ReceiveClosed
    requires HandleEnabled(s, h, hs) && Admissible(NextHandle(s, h, hs), steps)
    ensures LeftWith(Exec(NextHandle(s, h, hs), steps), h, s.handlers[h].sent)
  {
    HandlerAfter(s, h, hs);
    NothingSentAfterLeaving(NextHandle(s, h, hs), steps, h, s.handlers[h].sent);
  }

  // ---------------------------------------------------------------- the forwarder's end

  /** A forwarder that has stopped has left nothing in the closed channel. */
  predicate Drained(s: State) {
    s.forwarder == Finished ==> s.events.buf == [] && s.eventsClosed
  }

  lemma StepKeepsDrained(s: State, step: Step)
    requires Drained(s) && Enabled(s, step)
    ensures Drained(Next(s, step))
  {
    if step.Handle? {
      HandleLeavesForwarder(s, step.h, step.hs);
      HandleLeavesEmitters(s, step.h, step.hs);
    } else if step.Forward? {
      ForwardKeepsDrained(s, step.fs);
    }
  }

  lemma ForwardKeepsDrained(s: State, fs: ForwardStep)
    requires Drained(s) && ForwardEnabled(s, fs)
    ensures Drained(NextForward(s, fs))
  {
  }

  lemma {:induction false} RunKeepsDrained(s: State, steps: seq<Step>)
    requires Drained(s) && Admissible(s, steps)
    ensures Drained(Exec(s, steps))
    decreases |steps|
  {
    if steps != [] {
      StepKeepsDrained(s, steps[0]);
      RunKeepsDrained(Next(s, steps[0]), steps[1..]);
    }
  }

  /** The forwarder drains before it stops: once it has, every emission was published or had been
      dropped at the proxy's full channel. */
  lemma ForwarderDrains(steps: seq<Step>)
    requires Admissible(Init(), steps) && Exec(Init(), steps).forwarder == Finished
    ensures var s := Exec(Init(), steps);
      && s.eventsClosed && s.published == Accepted(s.events.log)
      && multiset(Emitted(s)) == multiset(Dropped(s.events.log)) + multiset(s.published)
  {
    Reachable(steps);
    RunKeepsDrained(Init(), steps);
    PipelineConserves(steps);
    var s := Exec(Init(), steps);
    assert s.events.received + [] == s.published + [];
  }
}
