/** What every step of the pipeline keeps, one aspect of the state at a time. */
module PipelineInvariants {
  import opened Events
  import opened BoundedQueue
  import opened Pipeline
  import B = BrokerSteps

  // ---------------------------------------------------------------- the write lock

  predicate HoldsLock(p: Phase) {
    p.Inserting? || p.Inserted? || p.Deleting? || p.Closing? || p.Deleted?
  }

  /** What the write lock looks like while its holder is in phase p. */
  predicate WriterFits(p: Phase, w: B.Writer) {
    match p
    case Inserting => w == B.Subscribing
    case Inserted(_) => w == B.Finishing
    case Deleting(id) => w == B.Unsubscribing(id)
    case Closing(id) => w == B.Closing(id)
    case Deleted(_) => w == B.Finishing
    case _ => true
  }

  /** Exactly one handler is inside a taken write lock, at the place the lock says. */
  ghost predicate OneWriter(handlers: map<nat, Handler>, w: B.Writer) {
    && (w != B.NoWriter ==> exists h :: h in handlers && HoldsLock(handlers[h].phase))
    && (forall h :: h in handlers ==> WriterFits(handlers[h].phase, w))
    && (forall g, h ::
          g in handlers && h in handlers && HoldsLock(handlers[g].phase) && HoldsLock(handlers[h].phase)
          ==> g == h)
  }

  /** The part of OneWriter that concerns only the handler that moves. */
  ghost predicate LockMove(p: Phase, w: B.Writer, p': Phase, w': B.Writer) {
    && WriterFits(p', w')
    && (HoldsLock(p) || HoldsLock(p') || w' == w)
    && (HoldsLock(p') && !HoldsLock(p) ==> w == B.NoWriter)
    && (HoldsLock(p) && !HoldsLock(p') ==> w' == B.NoWriter)
  }

  lemma OneWriterMoves(handlers: map<nat, Handler>, w: B.Writer, h: nat, handler: Handler, w': B.Writer)
    requires OneWriter(handlers, w) && h in handlers
    requires LockMove(handlers[h].phase, w, handler.phase, w')
    ensures OneWriter(handlers[h := handler], w')
  {
    var moved := handlers[h := handler];
    if w' != B.NoWriter {
      if HoldsLock(handler.phase) {
        assert h in moved && HoldsLock(moved[h].phase);
      } else {
        var g :| g in handlers && HoldsLock(handlers[g].phase);
        assert g in moved && HoldsLock(moved[g].phase);
      }
    }
  }

  lemma OneWriterConnects(handlers: map<nat, Handler>, w: B.Writer, h: nat, handler: Handler)
    requires OneWriter(handlers, w) && h !in handlers && handler.phase == Entering
    ensures OneWriter(handlers[h := handler], w)
  {
    if w != B.NoWriter {
      var g :| g in handlers && HoldsLock(handlers[g].phase);
      assert g in handlers[h := handler];
    }
  }

  // ---------------------------------------------------------------- ids and handlers

  /** The phases in which a handler's id is in the broker's map. */
  predicate InMap(p: Phase) {
    p.Inserted? || p.Watching? || p.Delivering? || p.Leaving? || p.Deleting?
  }

  /** Ids and the handlers that got one correspond one to one, and the broker's map holds
      exactly the ids of handlers between insertion and deletion. */
  ghost predicate Ownership(handlers: map<nat, Handler>, owner: map<nat, nat>, nextID: nat, subscribers: set<nat>) {
    && (forall id: nat :: id in owner <==> id < nextID)
    && (forall id :: id in owner ==>
          && owner[id] in handlers
          && HasId(handlers[owner[id]].phase)
          && handlers[owner[id]].phase.id == id
          && (id in subscribers <==> InMap(handlers[owner[id]].phase)))
    && (forall h :: h in handlers && HasId(handlers[h].phase) ==>
          handlers[h].phase.id in owner && owner[handlers[h].phase.id] == h)
    && (forall id :: id in subscribers ==> id in owner)
  }

  lemma OwnershipMoves(handlers: map<nat, Handler>, owner: map<nat, nat>, nextID: nat, subscribers: set<nat>,
                       h: nat, handler: Handler, subscribers': set<nat>)
    requires Ownership(handlers, owner, nextID, subscribers) && h in handlers
    requires HasId(handlers[h].phase) <==> HasId(handler.phase)
    requires HasId(handler.phase) ==> handler.phase.id == handlers[h].phase.id
    requires forall id :: !(HasId(handler.phase) && id == handler.phase.id) ==>
      (id in subscribers' <==> id in subscribers)
    requires HasId(handler.phase) ==> (handler.phase.id in subscribers' <==> InMap(handler.phase))
    ensures Ownership(handlers[h := handler], owner, nextID, subscribers')
  {
  }

  lemma OwnershipInserts(handlers: map<nat, Handler>, owner: map<nat, nat>, nextID: nat, subscribers: set<nat>,
                         h: nat, handler: Handler)
    requires Ownership(handlers, owner, nextID, subscribers) && h in handlers
    requires !HasId(handlers[h].phase) && handler.phase == Inserted(nextID)
    ensures Ownership(handlers[h := handler], owner[nextID := h], nextID + 1, subscribers + {nextID})
  {
  }

  lemma OwnershipConnects(handlers: map<nat, Handler>, owner: map<nat, nat>, nextID: nat, subscribers: set<nat>,
                          h: nat, handler: Handler)
    requires Ownership(handlers, owner, nextID, subscribers) && h !in handlers
    requires handler.phase == Entering
    ensures Ownership(handlers[h := handler], owner, nextID, subscribers)
  {
  }

  /** What a handler's step does to its own phase, the lock and the map. */
  lemma HandlerMove(s: State, h: nat, hs: HandlerStep)
    requires HandleEnabled(s, h, hs) && !hs.Connect?
    requires WriterFits(s.handlers[h].phase, s.broker.writer)
    requires HasId(s.handlers[h].phase) ==>
      (s.handlers[h].phase.id in s.broker.subscribers <==> InMap(s.handlers[h].phase))
    ensures var p, p', t := s.handlers[h].phase, NextPhase(s.broker, s.handlers[h].phase, hs), NextHandle(s, h, hs);
      && LockMove(p, s.broker.writer, p', t.broker.writer)
      && (hs.InsertSub? ==>
            && !HasId(p) && t.broker.subscribers == s.broker.subscribers + {s.broker.nextID}
            && t.broker.nextID == s.broker.nextID + 1 && t.owner == s.owner[s.broker.nextID := h])
      && (!hs.InsertSub? ==>
            && t.owner == s.owner && t.broker.nextID == s.broker.nextID
            && (HasId(p) <==> HasId(p'))
            && (HasId(p') ==> p'.id == p.id && (p.id in t.broker.subscribers <==> InMap(p')))
            && (hs.DeleteSub? ==> HasId(p') && t.broker.subscribers == s.broker.subscribers - {p.id})
            && (!hs.DeleteSub? ==> t.broker.subscribers == s.broker.subscribers))
  {
  }

  ghost predicate HandlersInOrder(s: State) {
    && OneWriter(s.handlers, s.broker.writer)
    && Ownership(s.handlers, s.owner, s.broker.nextID, s.broker.subscribers)
  }

  lemma HandleKeepsOrder(s: State, h: nat, hs: HandlerStep)
    requires HandlersInOrder(s) && HandleEnabled(s, h, hs)
    ensures HandlersInOrder(NextHandle(s, h, hs))
  {
    var t := NextHandle(s, h, hs);
    if hs.Connect? {
      OneWriterConnects(s.handlers, s.broker.writer, h, t.handlers[h]);
      OwnershipConnects(s.handlers, s.owner, s.broker.nextID, s.broker.subscribers, h, t.handlers[h]);
    } else {
      HandlerMove(s, h, hs);
      OneWriterMoves(s.handlers, s.broker.writer, h, t.handlers[h], t.broker.writer);
      if hs.InsertSub? {
        OwnershipInserts(s.handlers, s.owner, s.broker.nextID, s.broker.subscribers, h, t.handlers[h]);
      } else {
        OwnershipMoves(s.handlers, s.owner, s.broker.nextID, s.broker.subscribers, h, t.handlers[h],
                       t.broker.subscribers);
      }
    }
  }

  lemma ForwardKeepsOrder(s: State, fs: ForwardStep)
    requires HandlersInOrder(s) && ForwardEnabled(s, fs)
    ensures HandlersInOrder(NextForward(s, fs))
  {
  }

  // ---------------------------------------------------------------- the forwarder

  function Held(f: Forwarder): seq<Event> {
    if f.Holding? then [f.ev] else []
  }

  /** The forwarder is the only reader, and what it took is what it published or holds. */
  ghost predicate ForwardsInOrder(readers: map<nat, B.Publication>, f: Forwarder, published: seq<Event>,
                                  taken: seq<Event>) {
    && (forall p :: p in readers ==> p == FORWARDER)
    && (f == Publishing <==> FORWARDER in readers)
    && (f == Publishing ==> published != [] && readers[FORWARDER].ev == published[|published| - 1])
    && taken == published + Held(f)
  }

  ghost predicate Forwarding(s: State) {
    ForwardsInOrder(s.broker.readers, s.forwarder, s.published, s.events.received)
  }

  ghost predicate EventsSound(s: State) {
    B.Sound(s.events, EVENTS_CAPACITY)
  }

  lemma ForwardKeepsForwarding(s: State, fs: ForwardStep)
    requires Forwarding(s) && ForwardEnabled(s, fs)
    ensures Forwarding(NextForward(s, fs))
  {
  }

  predicate Publishes(b: B.Step) {
    b.LockPublish? || b.SendOne? || b.UnlockPublish?
  }

  lemma OthersLeaveReaders(b: B.State, step: B.Step)
    requires B.Enabled(b, step) && !Publishes(step)
    ensures B.Next(b, step).readers == b.readers && B.Next(b, step).bufSize == b.bufSize
  {
  }

  /** A handler's step acts on the broker as the broker step it stands for, if any. */
  lemma HandlerBrokerStep(s: State, h: nat, hs: HandlerStep)
    requires HandleEnabled(s, h, hs) && !hs.Connect?
    ensures var b := HandlerBroker(s.handlers[h].phase, hs);
      && NextHandle(s, h, hs).broker == BrokerAfter(s, b)
      && (b.Some? ==> !Publishes(b.value) && (b.value.InsertSubscriber? <==> hs.InsertSub?))
      && (b.None? ==> !hs.InsertSub?)
  {
  }

  lemma HandleLeavesForwarder(s: State, h: nat, hs: HandlerStep)
    requires HandleEnabled(s, h, hs)
    ensures var t := NextHandle(s, h, hs);
      && t.broker.readers == s.broker.readers && t.broker.bufSize == s.broker.bufSize
      && t.events == s.events && t.forwarder == s.forwarder && t.published == s.published
  {
    if !hs.Connect? {
      var b := HandlerBroker(s.handlers[h].phase, hs);
      HandlerBrokerStep(s, h, hs);
      if b.Some? {
        OthersLeaveReaders(s.broker, b.value);
      }
    }
  }

  lemma EmitKeepsForwarding(s: State, es: EmitStep)
    requires Forwarding(s) && EventsSound(s) && EmitEnabled(s, es)
    ensures Forwarding(NextEmit(s, es)) && EventsSound(NextEmit(s, es))
  {
    if es.Send? {
      B.OpKeepsSound(s.events, Offer(s.emitters[es.e]), EVENTS_CAPACITY);
    }
  }

  lemma ForwardKeepsEventsSound(s: State, fs: ForwardStep)
    requires EventsSound(s) && ForwardEnabled(s, fs)
    ensures EventsSound(NextForward(s, fs))
  {
    if fs.TakeEvent? {
      B.OpKeepsSound(s.events, Take, EVENTS_CAPACITY);
    }
  }

  // ---------------------------------------------------------------- what each id was offered

  /** How far into the published events id has been served. */
  function End(s: State, id: nat): int {
    if id in s.until then s.until[id]
    else if FORWARDER in s.broker.readers && id in s.broker.readers[FORWARDER].remaining then |s.published| - 1
    else |s.published|
  }

  function LogOf(s: State, id: nat): seq<Attempt<Event>> {
    B.ChanAt(s.broker, id).q.log
  }

  /** id was offered exactly the events published from its insertion to End, in order. */
  ghost predicate Tracked(s: State, id: nat) {
    && id in s.since
    && (id in s.until <==> id !in s.broker.subscribers)
    && s.since[id] <= End(s, id) <= |s.published|
    && Offered(LogOf(s, id)) == s.published[s.since[id]..End(s, id)]
  }

  ghost predicate Streams(s: State) {
    && (forall id: nat :: id < s.broker.nextID ==> Tracked(s, id))
    && (forall id :: id in s.until ==> id < s.broker.nextID)
  }

  lemma StillTracked(s: State, t: State, id: nat)
    requires Tracked(s, id)
    requires id in t.since && t.since[id] == s.since[id]
    requires id in t.until <==> id !in t.broker.subscribers
    requires LogOf(t, id) == LogOf(s, id) && End(t, id) == End(s, id)
    requires s.published <= t.published
    ensures Tracked(t, id)
  {
  }

  lemma SendExtends(s: State, id: nat)
    requires Forwarding(s) && B.ChannelsMatch(s.broker) && B.LockDiscipline(s.broker)
    requires ForwardEnabled(s, SendNext(id)) && Tracked(s, id)
    ensures var t := NextForward(s, SendNext(id));
      && Offered(LogOf(t, id)) == Offered(LogOf(s, id)) + [s.published[|s.published| - 1]]
      && End(s, id) == |s.published| - 1 && End(t, id) == |s.published|
      && t.published == s.published && t.since == s.since && t.until == s.until
      && t.broker.subscribers == s.broker.subscribers
  {
    assert id in s.broker.subscribers;
    OfferHistories(B.ChanAt(s.broker, id).q, s.published[|s.published| - 1]);
  }

  lemma ForwardKeepsTracked(s: State, fs: ForwardStep, id: nat)
    requires Forwarding(s) && B.ChannelsMatch(s.broker) && B.LockDiscipline(s.broker)
    requires ForwardEnabled(s, fs) && id < s.broker.nextID && Tracked(s, id)
    ensures Tracked(NextForward(s, fs), id)
  {
    if fs == SendNext(id) {
      SendExtends(s, id);
      var last := |s.published| - 1;
      assert s.published[s.since[id]..] == s.published[s.since[id]..last] + [s.published[last]];
    } else {
      ForwardLeavesOthers(s, fs, id);
      StillTracked(s, NextForward(s, fs), id);
    }
  }

  lemma ForwardLeavesOthers(s: State, fs: ForwardStep, id: nat)
    requires Forwarding(s) && B.LockDiscipline(s.broker)
    requires ForwardEnabled(s, fs) && fs != SendNext(id)
    requires id in s.until <==> id !in s.broker.subscribers
    ensures var t := NextForward(s, fs);
      && LogOf(t, id) == LogOf(s, id) && End(t, id) == End(s, id)
      && s.published <= t.published && t.broker.subscribers == s.broker.subscribers
      && t.broker.nextID == s.broker.nextID
  {
  }

  lemma HandleKeepsTracked(s: State, h: nat, hs: HandlerStep, id: nat)
    requires HandlersInOrder(s) && B.LockDiscipline(s.broker)
    requires HandleEnabled(s, h, hs) && id < s.broker.nextID && Tracked(s, id)
    ensures Tracked(NextHandle(s, h, hs), id)
  {
    HandleLeavesForwarder(s, h, hs);
    HandleLeavesLogs(s, h, hs, id);
    HandleLeavesWindows(s, h, hs, id);
    StillTracked(s, NextHandle(s, h, hs), id);
  }

  lemma OthersLeaveLogs(b: B.State, step: B.Step, id: nat)
    requires B.Enabled(b, step) && !Publishes(step) && id != b.nextID
    ensures B.ChanAt(B.Next(b, step), id).q.log == B.ChanAt(b, id).q.log
  {
  }

  lemma HandleLeavesLogs(s: State, h: nat, hs: HandlerStep, id: nat)
    requires HandleEnabled(s, h, hs) && id != s.broker.nextID
    ensures LogOf(NextHandle(s, h, hs), id) == LogOf(s, id)
  {
    if !hs.Connect? {
      var b := HandlerBroker(s.handlers[h].phase, hs);
      HandlerBrokerStep(s, h, hs);
      if b.Some? {
        OthersLeaveLogs(s.broker, b.value, id);
      }
    }
  }

  lemma HandleLeavesWindows(s: State, h: nat, hs: HandlerStep, id: nat)
    requires HandlersInOrder(s) && B.LockDiscipline(s.broker)
    requires HandleEnabled(s, h, hs) && id < s.broker.nextID
    requires id in s.until <==> id !in s.broker.subscribers
    ensures var t := NextHandle(s, h, hs);
      && End(t, id) == End(s, id)
      && (id in t.until <==> id !in t.broker.subscribers)
      && (id in s.since ==> id in t.since && t.since[id] == s.since[id])
  {
    HandleLeavesForwarder(s, h, hs);
    if !hs.Connect? {
      HandlerMove(s, h, hs);
    }
  }

  lemma InsertedIsTracked(s: State, h: nat)
    requires B.ChannelsMatch(s.broker) && B.LockDiscipline(s.broker)
    requires HandleEnabled(s, h, InsertSub) && s.broker.nextID !in s.until
    ensures Tracked(NextHandle(s, h, InsertSub), s.broker.nextID)
  {
  }

  // ---------------------------------------------------------------- all of it

  ghost predicate Inv(s: State) {
    && B.Inv(s.broker)
    && s.broker.bufSize == BUF_SIZE
    && HandlersInOrder(s)
    && Forwarding(s)
    && EventsSound(s)
    && Streams(s)
  }

  lemma InitInv()
    ensures Inv(Init())
  {
  }

  lemma EmitKeepsInv(s: State, es: EmitStep)
    requires Inv(s) && EmitEnabled(s, es)
    ensures Inv(NextEmit(s, es))
  {
    var t := NextEmit(s, es);
    EmitKeepsForwarding(s, es);
    forall id: nat | id < t.broker.nextID ensures Tracked(t, id) {
      StillTracked(s, t, id);
    }
  }

  lemma ForwardKeepsInv(s: State, fs: ForwardStep)
    requires Inv(s) && ForwardEnabled(s, fs)
    ensures Inv(NextForward(s, fs))
  {
    var t := NextForward(s, fs);
    if ForwardBroker(s, fs).Some? {
      B.StepKeepsInv(s.broker, ForwardBroker(s, fs).value);
    }
    ForwardKeepsOrder(s, fs);
    ForwardKeepsForwarding(s, fs);
    ForwardKeepsEventsSound(s, fs);
    forall id: nat | id < t.broker.nextID ensures Tracked(t, id) {
      ForwardKeepsTracked(s, fs, id);
    }
  }

  lemma HandleKeepsStreams(s: State, h: nat, hs: HandlerStep)
    requires Streams(s) && HandlersInOrder(s) && B.ChannelsMatch(s.broker) && B.LockDiscipline(s.broker)
    requires HandleEnabled(s, h, hs)
    ensures Streams(NextHandle(s, h, hs))
  {
    var t := NextHandle(s, h, hs);
    HandleIssuesIds(s, h, hs);
    forall id | id in t.until ensures id < t.broker.nextID {
      if id !in s.until {
        HandleEndsIssuedIds(s, h, hs, id);
      }
    }
    forall id: nat | id < t.broker.nextID ensures Tracked(t, id) {
      if id < s.broker.nextID {
        HandleKeepsTracked(s, h, hs, id);
      } else {
        InsertedIsTracked(s, h);
      }
    }
  }

  lemma StepIssuesIds(b: B.State, step: B.Step)
    requires B.Enabled(b, step)
    ensures B.Next(b, step).nextID == b.nextID + (if step.InsertSubscriber? then 1 else 0)
  {
  }

  lemma HandleIssuesIds(s: State, h: nat, hs: HandlerStep)
    requires HandleEnabled(s, h, hs)
    ensures NextHandle(s, h, hs).broker.nextID == s.broker.nextID + (if hs.InsertSub? then 1 else 0)
  {
    if !hs.Connect? {
      HandlerBrokerStep(s, h, hs);
      if HandlerBroker(s.handlers[h].phase, hs).Some? {
        StepIssuesIds(s.broker, HandlerBroker(s.handlers[h].phase, hs).value);
      }
    }
  }

  lemma HandleEndsIssuedIds(s: State, h: nat, hs: HandlerStep, id: nat)
    requires Ownership(s.handlers, s.owner, s.broker.nextID, s.broker.subscribers)
    requires HandleEnabled(s, h, hs) && id in NextHandle(s, h, hs).until && id !in s.until
    ensures id < s.broker.nextID
  {
  }

  lemma HandleKeepsBroker(s: State, h: nat, hs: HandlerStep)
    requires B.Inv(s.broker) && HandleEnabled(s, h, hs)
    ensures B.Inv(NextHandle(s, h, hs).broker)
  {
    if !hs.Connect? {
      HandlerBrokerStep(s, h, hs);
      if HandlerBroker(s.handlers[h].phase, hs).Some? {
        B.StepKeepsInv(s.broker, HandlerBroker(s.handlers[h].phase, hs).value);
      }
    }
  }

  lemma HandleKeepsInv(s: State, h: nat, hs: HandlerStep)
    requires Inv(s) && HandleEnabled(s, h, hs)
    ensures Inv(NextHandle(s, h, hs))
  {
    HandleKeepsBroker(s, h, hs);
    HandleKeepsOrder(s, h, hs);
    HandleLeavesForwarder(s, h, hs);
    HandleKeepsStreams(s, h, hs);
  }

  lemma StepKeepsInv(s: State, step: Step)
    requires Inv(s) && Enabled(s, step)
    ensures Inv(Next(s, step))
  {
    match step
    case Emit(es) => EmitKeepsInv(s, es);
    case Forward(fs) => ForwardKeepsInv(s, fs);
    case Handle(h, hs) => HandleKeepsInv(s, h, hs);
  }

  lemma {:induction false} RunKeepsInv(s: State, steps: seq<Step>)
    requires Inv(s) && Admissible(s, steps)
    ensures Inv(Exec(s, steps))
    decreases |steps|
  {
    if steps != [] {
      StepKeepsInv(s, steps[0]);
      RunKeepsInv(Next(s, steps[0]), steps[1..]);
    }
  }
}
