/**
 * The daemon's event pipeline as one step system: emitters sending into the proxy's event
 * channel, the single forwarder draining it into Broker.Publish, and the Watch and SSE
 * handlers that subscribe, receive and unsubscribe. Any step of any goroutine may come next.
 */
module Pipeline {
  import opened Events
  import opened BoundedQueue
  import B = BrokerSteps

  /** The forwarder is the only goroutine that publishes. */
  const FORWARDER: nat := 0

  datatype Forwarder = Ranging | Holding(ev: Event) | Publishing | Finished

  datatype Kind = Watch | SSE

  /** Where a Watch or SSE handler is. Inserting, Inserted, Deleting, Closing and Deleted lie
      inside the broker's write lock. */
  datatype Phase =
    | Entering
    | Inserting
    | Inserted(id: nat)
    | Watching(id: nat)
    | Delivering(id: nat, ev: Event)
    | Leaving(id: nat)
    | Deleting(id: nat)
    | Closing(id: nat)
    | Deleted(id: nat)
    | Gone(id: nat)

  /** sent is a history: the events its viewer was sent, in order. */
  datatype Handler = Handler(kind: Kind, phase: Phase, sent: seq<Event>)

  /** published, since, until and owner are histories: the events whose Publish has begun, how
      many there were when an id entered and left the map, and the handler an id was issued to. */
  datatype State = State(
    broker: B.State,
    events: Queue<Event>,
    eventsClosed: bool,
    emitters: map<nat, Event>,
    forwarder: Forwarder,
    handlers: map<nat, Handler>,
    panicked: bool,
    published: seq<Event>,
    since: map<nat, nat>,
    until: map<nat, nat>,
    owner: map<nat, nat>)

  /** An emitter is a ServeHTTP or Replay call about to do its one non-blocking send. */
  datatype EmitStep = Begin(e: nat, ev: Event) | Send(e: nat) | CloseEvents

  datatype ForwardStep = TakeEvent | StopRange | LockPublish | SendNext(id: nat) | UnlockPublish

  datatype HandlerStep =
    | Connect(kind: Kind)
    | LockSub
    | InsertSub
    | UnlockSub
    | Receive
    | ReceiveClosed
    | Cancel
    | Delivered
    | SendFailed
    | LockUnsub
    | DeleteSub
    | CloseSub
    | UnlockUnsub

  datatype Step = Emit(es: EmitStep) | Forward(fs: ForwardStep) | Handle(h: nat, hs: HandlerStep)

  function Init(): State {
    State(B.Init(BUF_SIZE), Empty(EVENTS_CAPACITY), false, map[], Ranging, map[], false,
          [], map[], map[], map[])
  }

  // ---------------------------------------------------------------- emitters

  predicate EmitEnabled(s: State, es: EmitStep) {
    match es
    case Begin(e, _) => e !in s.emitters
    case Send(e) => e in s.emitters
    case CloseEvents => !s.eventsClosed
  }

  /** A send on the closed events channel panics. */
  function NextEmit(s: State, es: EmitStep): State
    requires EmitEnabled(s, es)
  {
    match es
    case Begin(e, ev) => s.(emitters := s.emitters[e := ev])
    case Send(e) =>
      if s.eventsClosed then
        s.(emitters := s.emitters - {e}, panicked := true)
      else
        s.(emitters := s.emitters - {e}, events := OfferTo(s.events, s.emitters[e]))
    case CloseEvents => s.(eventsClosed := true)
  }

  // ---------------------------------------------------------------- the forwarder

  /** The broker step the forwarder performs, if any. */
  function ForwardBroker(s: State, fs: ForwardStep): Option<B.Step> {
    match fs
    case LockPublish => if s.forwarder.Holding? then Some(B.LockPublish(FORWARDER, s.forwarder.ev)) else None
    case SendNext(id) => Some(B.SendOne(FORWARDER, id))
    case UnlockPublish => Some(B.UnlockPublish(FORWARDER))
    case _ => None
  }

  predicate BrokerAllows(s: State, b: Option<B.Step>) {
    b.Some? ==> B.Enabled(s.broker, b.value)
  }

  predicate ForwardEnabled(s: State, fs: ForwardStep) {
    && BrokerAllows(s, ForwardBroker(s, fs))
    && match fs
       case TakeEvent => s.forwarder == Ranging && s.events.buf != []
       case StopRange => s.forwarder == Ranging && s.events.buf == [] && s.eventsClosed
       case LockPublish => s.forwarder.Holding?
       case SendNext(_) => s.forwarder == Publishing
       case UnlockPublish => s.forwarder == Publishing
  }

  function BrokerAfter(s: State, b: Option<B.Step>): B.State
    requires BrokerAllows(s, b)
  {
    if b.Some? then B.Next(s.broker, b.value) else s.broker
  }

  function NextForward(s: State, fs: ForwardStep): State
    requires ForwardEnabled(s, fs)
  {
    var broker := BrokerAfter(s, ForwardBroker(s, fs));
    match fs
    case TakeEvent => s.(events := TakeFrom(s.events), forwarder := Holding(s.events.buf[0]))
    case StopRange => s.(forwarder := Finished)
    case LockPublish =>
      s.(broker := broker, forwarder := Publishing, published := s.published + [s.forwarder.ev])
    case SendNext(_) => s.(broker := broker)
    case UnlockPublish => s.(broker := broker, forwarder := Ranging)
  }

  // ---------------------------------------------------------------- Watch and SSE handlers

  function HandlerBroker(p: Phase, hs: HandlerStep): Option<B.Step> {
    match hs
    case LockSub => Some(B.LockSubscribe)
    case InsertSub => Some(B.InsertSubscriber)
    case UnlockSub => Some(B.UnlockWriter)
    case Receive => if p.Watching? then Some(B.Receive(p.id)) else None
    case ReceiveClosed => if p.Watching? then Some(B.ReceiveClosed(p.id)) else None
    case LockUnsub => if p.Leaving? then Some(B.LockUnsubscribe(p.id)) else None
    case DeleteSub => Some(B.DeleteSubscriber)
    case CloseSub => Some(B.CloseChannel)
    case UnlockUnsub => Some(B.UnlockWriter)
    case _ => None
  }

  /** A failed send ends a Watch stream; an SSE handler ignores write errors and goes on. */
  predicate PhaseAllows(handler: Handler, hs: HandlerStep) {
    var p := handler.phase;
    match hs
    case Connect(_) => false
    case LockSub => p == Entering
    case InsertSub => p == Inserting
    case UnlockSub => p.Inserted?
    case Receive => p.Watching?
    case ReceiveClosed => p.Watching?
    case Cancel => p.Watching?
    case Delivered => p.Delivering?
    case SendFailed => p.Delivering? && handler.kind == Watch
    case LockUnsub => p.Leaving?
    case DeleteSub => p.Deleting?
    case CloseSub => p.Closing?
    case UnlockUnsub => p.Deleted?
  }

  predicate HandleEnabled(s: State, h: nat, hs: HandlerStep) {
    if hs.Connect? then h !in s.handlers
    else
      && h in s.handlers
      && PhaseAllows(s.handlers[h], hs)
      && BrokerAllows(s, HandlerBroker(s.handlers[h].phase, hs))
  }

  function NextPhase(b: B.State, p: Phase, hs: HandlerStep): Phase
    requires HasIdFor(p, hs) && (hs.Receive? ==> p.id in b.chans && b.chans[p.id].q.buf != [])
  {
    match hs
    case Connect(_) => Entering
    case LockSub => Inserting
    case InsertSub => Inserted(b.nextID)
    case UnlockSub => Watching(p.id)
    case Receive => Delivering(p.id, b.chans[p.id].q.buf[0])
    case ReceiveClosed => Leaving(p.id)
    case Cancel => Leaving(p.id)
    case Delivered => Watching(p.id)
    case SendFailed => Leaving(p.id)
    case LockUnsub => Deleting(p.id)
    case DeleteSub => if p.id in b.subscribers then Closing(p.id) else Deleted(p.id)
    case CloseSub => Deleted(p.id)
    case UnlockUnsub => Gone(p.id)
  }

  predicate HasId(p: Phase) {
    !p.Entering? && !p.Inserting?
  }

  predicate HasIdFor(p: Phase, hs: HandlerStep) {
    hs.Connect? || hs.LockSub? || hs.InsertSub? || HasId(p)
  }

  /** A send that fails is not one the viewer gets. */
  function NextSent(handler: Handler, hs: HandlerStep): seq<Event> {
    if hs.Delivered? && handler.phase.Delivering? then handler.sent + [handler.phase.ev] else handler.sent
  }

  function NextHandle(s: State, h: nat, hs: HandlerStep): State
    requires HandleEnabled(s, h, hs)
  {
    if hs.Connect? then
      s.(handlers := s.handlers[h := Handler(hs.kind, Entering, [])])
    else
      var p := s.handlers[h].phase;
      var moved := s.(
        broker := BrokerAfter(s, HandlerBroker(p, hs)),
        handlers := s.handlers[h :=
          Handler(s.handlers[h].kind, NextPhase(s.broker, p, hs), NextSent(s.handlers[h], hs))]);
      match hs
      case InsertSub =>
        moved.(since := s.since[s.broker.nextID := |s.published|], owner := s.owner[s.broker.nextID := h])
      case DeleteSub =>
        if p.id in s.broker.subscribers then moved.(until := s.until[p.id := |s.published|]) else moved
      case _ => moved
  }

  // ---------------------------------------------------------------- runs

  predicate Enabled(s: State, step: Step) {
    match step
    case Emit(es) => EmitEnabled(s, es)
    case Forward(fs) => ForwardEnabled(s, fs)
    case Handle(h, hs) => HandleEnabled(s, h, hs)
  }

  function Next(s: State, step: Step): State
    requires Enabled(s, step)
  {
    match step
    case Emit(es) => NextEmit(s, es)
    case Forward(fs) => NextForward(s, fs)
    case Handle(h, hs) => NextHandle(s, h, hs)
  }

  predicate Admissible(s: State, steps: seq<Step>)
    decreases |steps|
  {
    steps == [] || (Enabled(s, steps[0]) && Admissible(Next(s, steps[0]), steps[1..]))
  }

  function Exec(s: State, steps: seq<Step>): State
    requires Admissible(s, steps)
    decreases |steps|
  {
    if steps == [] then s else Exec(Next(s, steps[0]), steps[1..])
  }
}
