/** What holds in every run of the daemon's pipeline. */
module PipelineTheorems {
  import opened Events
  import opened Subsequences
  import opened BoundedQueue
  import opened Pipeline
  import opened PipelineInvariants
  import B = BrokerSteps

  lemma Reachable(steps: seq<Step>)
    requires Admissible(Init(), steps)
    ensures Inv(Exec(Init(), steps))
  {
    InitInv();
    RunKeepsInv(Init(), steps);
  }

  /** What the emitters offered to the proxy's channel, in the order of their sends. */
  function Emitted(s: State): seq<Event> {
    Offered(s.events.log)
  }

  function QueueOf(s: State, id: nat): Queue<Event> {
    B.ChanAt(s.broker, id).q
  }

  /** What id's handler has taken from its channel, and what still waits there. */
  function Seen(s: State, id: nat): seq<Event> {
    QueueOf(s, id).received + QueueOf(s, id).buf
  }

  /** Across both lossy stages a subscriber is given events in emission order, each emission at most
      once, and every subscriber in the same order, namely that of the published events. */
  lemma SubscribersSeeEmissionsInOrder(steps: seq<Step>, id: nat)
    requires Admissible(Init(), steps)
    ensures var s := Exec(Init(), steps);
      && Subsequence(Seen(s, id), s.published)
      && Subsequence(s.published, Emitted(s))
      && Subsequence(Seen(s, id), Emitted(s))
  {
    var s := Exec(Init(), steps);
    Reachable(steps);
    PublishedIsEmitted(s);
    if id < s.broker.nextID {
      var q := QueueOf(s, id);
      assert B.Sound(q, BUF_SIZE);
      DeliveryKeepsOrder(q);
      assert Tracked(s, id);
      SliceIsSubsequence(s.published, s.since[id], End(s, id));
      SubsequenceTransitive(Seen(s, id), Offered(q.log), s.published);
    } else {
      EmptyIsSubsequence(s.published);
      assert Seen(s, id) == [];
    }
    SubsequenceTransitive(Seen(s, id), s.published, Emitted(s));
  }

  lemma PublishedIsEmitted(s: State)
    requires Forwarding(s) && EventsSound(s)
    ensures Subsequence(s.published, Emitted(s))
  {
    var taken := s.events.received + s.events.buf;
    assert taken[..|s.published|] == s.published;
    SliceIsSubsequence(taken, 0, |s.published|);
    DeliveryKeepsOrder(s.events);
    SubsequenceTransitive(s.published, taken, Emitted(s));
  }

  /** Conservation over the whole pipeline and per subscriber. */
  lemma PipelineConserves(steps: seq<Step>)
    requires Admissible(Init(), steps)
    ensures var s := Exec(Init(), steps);
      && |Emitted(s)| == |Dropped(s.events.log)| + |s.events.buf| + |Held(s.forwarder)| + |s.published|
      && multiset(Emitted(s)) == multiset(Dropped(s.events.log)) + multiset(s.events.buf)
           + multiset(Held(s.forwarder)) + multiset(s.published)
      && forall id: nat :: id < s.broker.nextID ==> SubscriberConserves(s, id)
  {
    var s := Exec(Init(), steps);
    Reachable(steps);
    OffersAreConserved(s.events);
    forall id: nat | id < s.broker.nextID ensures SubscriberConserves(s, id) {
      assert Tracked(s, id);
      OffersAreConserved(QueueOf(s, id));
    }
  }

  /** Every event published while id was subscribed was received by it, waits for it, or was
      dropped for it; none is skipped and none is counted twice. */
  ghost predicate SubscriberConserves(s: State, id: nat) {
    && id in s.since && s.since[id] <= End(s, id) <= |s.published|
    && Offered(QueueOf(s, id).log) == s.published[s.since[id]..End(s, id)]
    && End(s, id) - s.since[id]
       == |QueueOf(s, id).received| + |QueueOf(s, id).buf| + |Dropped(QueueOf(s, id).log)|
    && |QueueOf(s, id).buf| <= BUF_SIZE
  }

  ghost predicate NeverFull(q: Queue<Event>) {
    forall i :: 0 <= i < |q.log| ==> q.log[i].backlog < q.cap
  }

  lemma LosslessStages(s: State, id: nat)
    requires Forwarding(s) && EventsSound(s) && B.Sound(QueueOf(s, id), BUF_SIZE)
    requires NeverFull(s.events) && NeverFull(QueueOf(s, id))
    ensures s.published <= Emitted(s) && Seen(s, id) == Offered(QueueOf(s, id).log)
  {
    LosslessIffNeverFull(s.events);
    LosslessIffNeverFull(QueueOf(s, id));
  }

  lemma SliceOfPrefix(a: seq<Event>, b: seq<Event>, lo: nat, hi: nat)
    requires a <= b && lo <= hi <= |a|
    ensures a[lo..hi] == b[lo..hi]
  {
  }

  /** If neither channel was ever found full, id is given every emission since it subscribed. */
  lemma LosslessToSubscriber(steps: seq<Step>, id: nat)
    requires Admissible(Init(), steps)
    requires var s := Exec(Init(), steps);
      id < s.broker.nextID && NeverFull(s.events) && NeverFull(QueueOf(s, id))
    ensures var s := Exec(Init(), steps);
      && id in s.since && s.since[id] <= End(s, id) <= |Emitted(s)|
      && Seen(s, id) == Emitted(s)[s.since[id]..End(s, id)]
  {
    var s := Exec(Init(), steps);
    Reachable(steps);
    assert B.Sound(QueueOf(s, id), BUF_SIZE);
    LosslessStages(s, id);
    assert Tracked(s, id);
    SliceOfPrefix(s.published, Emitted(s), s.since[id], End(s, id));
  }

  // ---------------------------------------------------------------- who is subscribed

  /** Handlers between the return of Subscribe and their deferred unsubscribe. */
  function LiveHandlers(s: State): set<nat> {
    set h | h in s.handlers
            && (s.handlers[h].phase.Watching? || s.handlers[h].phase.Delivering? || s.handlers[h].phase.Leaving?)
  }

  lemma {:induction false} ImageSize(ids: set<nat>, f: map<nat, nat>)
    requires ids <= f.Keys
    requires forall a, b :: a in ids && b in ids && f[a] == f[b] ==> a == b
    ensures |set id | id in ids :: f[id]| == |ids|
  {
    if ids != {} {
      var id :| id in ids;
      var rest := ids - {id};
      ImageSize(rest, f);
      assert (set i | i in ids :: f[i]) == (set i | i in rest :: f[i]) + {f[id]};
    }
  }

  lemma OwnersAreLive(s: State)
    requires HandlersInOrder(s) && s.broker.writer == B.NoWriter
    ensures s.broker.subscribers <= s.owner.Keys
    ensures (set id | id in s.broker.subscribers :: s.owner[id]) == LiveHandlers(s)
  {
    forall h | h in LiveHandlers(s) ensures h in set id | id in s.broker.subscribers :: s.owner[id] {
      assert s.handlers[h].phase.id in s.broker.subscribers;
    }
  }

  lemma UnlockedMapIsLive(s: State)
    requires HandlersInOrder(s) && s.broker.writer == B.NoWriter
    ensures |s.broker.subscribers| == |LiveHandlers(s)|
    ensures forall id :: id in s.broker.subscribers <==> id in s.owner && s.owner[id] in LiveHandlers(s)
  {
    OwnersAreLive(s);
    assert forall id :: id in s.broker.subscribers ==> id in s.owner;
    ImageSize(s.broker.subscribers, s.owner);
  }

  /** SubscriberCount, which holds the read lock, returns the number of live viewers, and the
      map holds exactly their ids. */
  lemma SubscriberCountIsLiveViewers(steps: seq<Step>)
    requires Admissible(Init(), steps)
    requires Exec(Init(), steps).broker.writer == B.NoWriter
    ensures var s := Exec(Init(), steps);
      && |s.broker.subscribers| == |LiveHandlers(s)|
      && forall id :: id in s.broker.subscribers <==> id in s.owner && s.owner[id] in LiveHandlers(s)
  {
    Reachable(steps);
    UnlockedMapIsLive(Exec(Init(), steps));
  }

  /** No exit path leaks: a handler that is gone has no map entry and its channel is closed. */
  lemma ExitsLeaveNothing(steps: seq<Step>, h: nat)
    requires Admissible(Init(), steps)
    requires var s := Exec(Init(), steps); h in s.handlers && s.handlers[h].phase.Gone?
    ensures var s := Exec(Init(), steps);
      && s.handlers[h].phase.id !in s.broker.subscribers
      && B.ChanAt(s.broker, s.handlers[h].phase.id).closed
  {
    Reachable(steps);
    var s := Exec(Init(), steps);
    assert s.handlers[h].phase.id in s.owner;
    assert s.broker.writer != B.Closing(s.handlers[h].phase.id) by {
      GoneIsNotClosing(s, h);
    }
  }

  lemma GoneIsNotClosing(s: State, h: nat)
    requires HandlersInOrder(s) && h in s.handlers && s.handlers[h].phase.Gone?
    ensures s.broker.writer != B.Closing(s.handlers[h].phase.id)
  {
  }

  lemma WatchedChannelIsOpen(s: State, h: nat)
    requires B.ChannelsMatch(s.broker) && HandlersInOrder(s)
    requires h in s.handlers && s.handlers[h].phase.Watching?
    ensures !B.ChanAt(s.broker, s.handlers[h].phase.id).closed
  {
    assert s.handlers[h].phase.id in s.owner;
  }

  lemma NoReceiveClosed(s: State, h: nat)
    requires B.ChannelsMatch(s.broker) && HandlersInOrder(s)
    ensures !HandleEnabled(s, h, ReceiveClosed)
  {
    if h in s.handlers && s.handlers[h].phase.Watching? {
      WatchedChannelIsOpen(s, h);
    }
  }

  /** The closed-channel branches of Watch and handleSSE are never taken: only a handler's own
      deferred unsubscribe closes its channel. */
  lemma HandlersNeverSeeClosed(steps: seq<Step>, h: nat)
    requires Admissible(Init(), steps)
    ensures !Enabled(Exec(Init(), steps), Handle(h, ReceiveClosed))
  {
    Reachable(steps);
    NoReceiveClosed(Exec(Init(), steps), h);
  }

  // ---------------------------------------------------------------- closing the events channel

  /** The channel is closed only when no emitter is about to send, and none starts later. */
  predicate Orderly(s: State, steps: seq<Step>)
    requires Admissible(s, steps)
    decreases |steps|
  {
    steps == []
    || (OrderlyStep(s, steps[0]) && Orderly(Next(s, steps[0]), steps[1..]))
  }

  /** Nothing has panicked, and no send an emitter is about to make would. */
  predicate SendsAreSafe(s: State) {
    !s.panicked && !s.broker.panicked && forall e :: e in s.emitters ==> !NextEmit(s, Send(e)).panicked
  }

  predicate AlwaysSafe(s: State, steps: seq<Step>)
    requires Admissible(s, steps)
    decreases |steps|
  {
    SendsAreSafe(s) && (steps == [] || AlwaysSafe(Next(s, steps[0]), steps[1..]))
  }

  /** No send is about to panic as long as a closed channel has no emitters. */
  predicate Quiet(s: State) {
    !s.panicked && (s.eventsClosed ==> s.emitters == map[])
  }

  predicate OrderlyStep(s: State, step: Step) {
    && (step == Emit(CloseEvents) ==> s.emitters == map[])
    && (step.Emit? && step.es.Begin? ==> !s.eventsClosed)
  }

  lemma OrderlyStepStaysQuiet(s: State, step: Step)
    requires Enabled(s, step) && Quiet(s) && OrderlyStep(s, step)
    ensures Quiet(Next(s, step))
  {
    if step.Handle? {
      HandleLeavesEmitters(s, step.h, step.hs);
    }
  }

  lemma HandleLeavesEmitters(s: State, h: nat, hs: HandlerStep)
    requires HandleEnabled(s, h, hs)
    ensures NextHandle(s, h, hs).emitters == s.emitters
    ensures NextHandle(s, h, hs).eventsClosed == s.eventsClosed
    ensures NextHandle(s, h, hs).panicked == s.panicked
  {
    match hs
    case Connect(_) =>
    case InsertSub =>
    case DeleteSub =>
    case _ =>
  }

  lemma DisorderlyStepIsUnsafe(s: State, es: EmitStep)
    requires EmitEnabled(s, es) && Quiet(s) && !OrderlyStep(s, Emit(es))
    ensures !SendsAreSafe(NextEmit(s, es))
  {
    var t := NextEmit(s, es);
    var e :| e in t.emitters;
    assert NextEmit(t, Send(e)).panicked;
  }

  lemma QuietIsSafe(s: State)
    requires Quiet(s) && !s.broker.panicked
    ensures SendsAreSafe(s)
  {
  }

  lemma {:induction false} SafeIffOrderlyFrom(s: State, steps: seq<Step>)
    requires Inv(s) && Admissible(s, steps) && Quiet(s)
    ensures AlwaysSafe(s, steps) <==> Orderly(s, steps)
    decreases |steps|
  {
    QuietIsSafe(s);
    if steps != [] {
      if OrderlyStep(s, steps[0]) {
        StepKeepsInv(s, steps[0]);
        OrderlyStepStaysQuiet(s, steps[0]);
        SafeIffOrderlyFrom(Next(s, steps[0]), steps[1..]);
      } else {
        DisorderlyStepIsUnsafe(s, steps[0].es);
      }
    }
  }

  /** close(rp.events) races with an emission exactly in the disorderly runs. */
  lemma SafeIffOrderly(steps: seq<Step>)
    requires Admissible(Init(), steps)
    ensures AlwaysSafe(Init(), steps) <==> Orderly(Init(), steps)
  {
    InitInv();
    SafeIffOrderlyFrom(Init(), steps);
  }

  predicate IsSend(step: Step) {
    step.Emit? && step.es.Send?
  }

  lemma ForwardNeverPanics(s: State, fs: ForwardStep)
    requires ForwardEnabled(s, fs)
    ensures NextForward(s, fs).panicked == s.panicked && NextForward(s, fs).eventsClosed == s.eventsClosed
  {
  }

  lemma StepPanics(s: State, step: Step)
    requires Enabled(s, step)
    ensures Next(s, step).panicked <==> s.panicked || (s.eventsClosed && IsSend(step))
    ensures Next(s, step).eventsClosed <==> s.eventsClosed || step == Emit(CloseEvents)
  {
    match step
    case Emit(_) =>
    case Forward(fs) => ForwardNeverPanics(s, fs);
    case Handle(h, hs) => HandleLeavesEmitters(s, h, hs);
  }

  /** A send comes when the channel is closed, given whether it is closed now. */
  predicate SendsLate(closed: bool, steps: seq<Step>)
    decreases |steps|
  {
    steps != []
    && ((closed && IsSend(steps[0])) || SendsLate(closed || steps[0] == Emit(CloseEvents), steps[1..]))
  }

  lemma {:induction false} PanicsIffLate(s: State, steps: seq<Step>)
    requires Admissible(s, steps)
    ensures Exec(s, steps).panicked <==> s.panicked || SendsLate(s.eventsClosed, steps)
    decreases |steps|
  {
    if steps != [] {
      StepPanics(s, steps[0]);
      PanicsIffLate(Next(s, steps[0]), steps[1..]);
    }
  }

  /** Step j sends, and the channel was closed before it, or is closed from the start. */
  ghost predicate LateSendAt(closed: bool, steps: seq<Step>, j: nat) {
    && j < |steps| && IsSend(steps[j])
    && (closed || exists i :: 0 <= i < j && steps[i] == Emit(CloseEvents))
  }

  lemma {:induction false} LateSendsAt(closed: bool, steps: seq<Step>)
    ensures SendsLate(closed, steps) <==> exists j :: LateSendAt(closed, steps, j)
    decreases |steps|
  {
    if steps != [] {
      var now, rest := closed || steps[0] == Emit(CloseEvents), steps[1..];
      LateSendsAt(now, rest);
      if exists j :: LateSendAt(now, rest, j) {
        var j: nat :| LateSendAt(now, rest, j);
        assert steps[j + 1] == rest[j];
        if !now {
          var i :| 0 <= i < j && rest[i] == Emit(CloseEvents);
          assert steps[i + 1] == Emit(CloseEvents);
        }
        assert LateSendAt(closed, steps, j + 1);
      }
      if closed && IsSend(steps[0]) {
        assert LateSendAt(closed, steps, 0);
      }
      if exists j :: LateSendAt(closed, steps, j) {
        var j: nat :| LateSendAt(closed, steps, j);
        if j > 0 {
          LateSendInRest(closed, steps, j);
        }
      }
    }
  }

  lemma LateSendInRest(closed: bool, steps: seq<Step>, j: nat)
    requires LateSendAt(closed, steps, j) && j > 0
    ensures LateSendAt(closed || steps[0] == Emit(CloseEvents), steps[1..], j - 1)
  {
    assert steps[1..][j - 1] == steps[j];
    if !closed && steps[0] != Emit(CloseEvents) {
      var i :| 0 <= i < j && steps[i] == Emit(CloseEvents);
      assert steps[1..][i - 1] == Emit(CloseEvents);
    }
  }

  /** The daemon has panicked if and only if some emitter sent after the channel was closed. */
  lemma PanicsIffSentAfterClose(steps: seq<Step>)
    requires Admissible(Init(), steps)
    ensures !Exec(Init(), steps).broker.panicked
    ensures Exec(Init(), steps).panicked
      <==> exists i, j :: 0 <= i < j < |steps| && steps[i] == Emit(CloseEvents) && IsSend(steps[j])
  {
    Reachable(steps);
    PanicsIffLate(Init(), steps);
    LateSendsFollowClose(steps);
  }

  lemma LateSendsFollowClose(steps: seq<Step>)
    ensures SendsLate(false, steps)
      <==> exists i, j :: 0 <= i < j < |steps| && steps[i] == Emit(CloseEvents) && IsSend(steps[j])
  {
    LateSendsAt(false, steps);
    if exists j :: LateSendAt(false, steps, j) {
      var j: nat :| LateSendAt(false, steps, j);
      var i :| 0 <= i < j && steps[i] == Emit(CloseEvents);
      assert steps[i] == Emit(CloseEvents) && IsSend(steps[j]);
    }
    forall i, j | 0 <= i < j < |steps| && steps[i] == Emit(CloseEvents) && IsSend(steps[j])
      ensures LateSendAt(false, steps, j)
    {
    }
  }

  /** The race is real: an emitter in flight when ListenAndServe closes the channel panics. */
  lemma CloseRaces(ev: Event)
    ensures var steps := [Emit(Begin(0, ev)), Emit(CloseEvents), Emit(Send(0))];
      Admissible(Init(), steps) && Exec(Init(), steps).panicked
  {
    var s1 := Next(Init(), Emit(Begin(0, ev)));
    var s2 := Next(s1, Emit(CloseEvents));
    var steps := [Emit(Begin(0, ev)), Emit(CloseEvents), Emit(Send(0))];
    assert steps[1..] == [Emit(CloseEvents), Emit(Send(0))];
    assert steps[1..][1..] == [Emit(Send(0))];
    assert steps[1..][1..][1..] == [];
    assert Exec(s2, [Emit(Send(0))]) == Next(s2, Emit(Send(0)));
    assert Exec(s1, steps[1..]) == Exec(s2, [Emit(Send(0))]);
  }
}
