/**
 * The broker as a concurrent step system. Every method is cut at the points where another
 * goroutine may run: taking the lock, each single send, deleting, closing, releasing.
 * A send on a closed channel and a second close set panicked, as the Go runtime would panic.
 */
module BrokerSteps {
  import opened Events
  import opened BoundedQueue
  import opened Enumerations

  datatype Chan = Chan(q: Queue<Event>, closed: bool)

  /** Who holds the write lock, and how far its critical section has come. */
  datatype Writer =
    | NoWriter
    | Subscribing
    | Unsubscribing(id: nat)
    | Closing(id: nat)
    | Finishing

  /** A Publish call between RLock and RUnlock, with the subscribers it has not yet served. */
  datatype Publication = Publication(ev: Event, remaining: set<nat>)

  datatype State = State(
    bufSize: nat,
    nextID: nat,
    subscribers: set<nat>,
    chans: map<nat, Chan>,
    readers: map<nat, Publication>,
    writer: Writer,
    panicked: bool)

  datatype Step =
    | LockSubscribe
    | InsertSubscriber
    | LockUnsubscribe(id: nat)
    | DeleteSubscriber
    | CloseChannel
    | UnlockWriter
    | LockPublish(p: nat, ev: Event)
    | SendOne(p: nat, id: nat)
    | UnlockPublish(p: nat)
    | Receive(id: nat)
    | ReceiveClosed(id: nat)

  function Init(bufSize: nat): State {
    State(bufSize, 0, {}, map[], map[], NoWriter, false)
  }

  /** The channel made for id; before it is made, an empty open one. */
  function ChanAt(s: State, id: nat): Chan {
    if id in s.chans then s.chans[id] else Chan(Empty(s.bufSize), false)
  }

  predicate LockFree(s: State) {
    s.writer == NoWriter && s.readers == map[]
  }

  predicate Enabled(s: State, step: Step) {
    match step
    case LockSubscribe => LockFree(s)
    case InsertSubscriber => s.writer == Subscribing
    case LockUnsubscribe(id) => LockFree(s) && id < s.nextID
    case DeleteSubscriber => s.writer.Unsubscribing?
    case CloseChannel => s.writer.Closing?
    case UnlockWriter => s.writer == Finishing
    case LockPublish(p, _) => s.writer == NoWriter && p !in s.readers
    case SendOne(p, id) => p in s.readers && id in s.readers[p].remaining
    case UnlockPublish(p) => p in s.readers && s.readers[p].remaining == {}
    case Receive(id) => id in s.chans && s.chans[id].q.buf != []
    case ReceiveClosed(id) => id in s.chans && s.chans[id].q.buf == [] && s.chans[id].closed
  }

  function Next(s: State, step: Step): State
    requires Enabled(s, step)
  {
    match step
    case LockSubscribe => s.(writer := Subscribing)
    case InsertSubscriber =>
      s.(nextID := s.nextID + 1,
         subscribers := s.subscribers + {s.nextID},
         chans := s.chans[s.nextID := Chan(Empty(s.bufSize), false)],
         writer := Finishing)
    case LockUnsubscribe(id) => s.(writer := Unsubscribing(id))
    case DeleteSubscriber =>
      var id := s.writer.id;
      if id in s.subscribers then
        s.(subscribers := s.subscribers - {id}, writer := Closing(id))
      else
        s.(writer := Finishing)
    case CloseChannel =>
      var id := s.writer.id;
      if ChanAt(s, id).closed then
        s.(panicked := true, writer := Finishing)
      else
        s.(chans := s.chans[id := ChanAt(s, id).(closed := true)], writer := Finishing)
    case UnlockWriter => s.(writer := NoWriter)
    case LockPublish(p, ev) => s.(readers := s.readers[p := Publication(ev, s.subscribers)])
    case SendOne(p, id) =>
      var pub := s.readers[p];
      var served := s.(readers := s.readers[p := pub.(remaining := pub.remaining - {id})]);
      if ChanAt(s, id).closed then
        served.(panicked := true)
      else
        served.(chans := s.chans[id := ChanAt(s, id).(q := OfferTo(ChanAt(s, id).q, pub.ev))])
    case UnlockPublish(p) => s.(readers := s.readers - {p})
    case Receive(id) => s.(chans := s.chans[id := s.chans[id].(q := TakeFrom(s.chans[id].q))])
    case ReceiveClosed(_) => s
  }

  predicate Admissible(s: State, steps: seq<Step>)
    decreases |steps|
  {
    steps == [] || (Enabled(s, steps[0]) && Admissible(Next(s, steps[0]), steps[1..]))
  }

  function Exec(s: State, steps: seq<Step>): State
    requires Admissible(s, steps)
    decreases |steps|
  {
    if steps == [] then s else Exec(Next(s, steps[0]), steps[1..])
  }

  // ---------------------------------------------------------------- safety of every run

  /** Channels exist exactly for issued ids, and a channel is closed exactly when its id has
      left the map and its closer is done. */
  ghost predicate ChannelsMatch(s: State) {
    && (forall id: nat :: id in s.chans <==> id < s.nextID)
    && (forall id :: id in s.subscribers ==> id in s.chans)
    && (forall id :: id in s.chans ==>
          (s.chans[id].closed <==> id !in s.subscribers && s.writer != Closing(id)))
  }

  /** The write lock excludes readers, and what a reader still has to serve is subscribed. */
  ghost predicate LockDiscipline(s: State) {
    && (s.writer != NoWriter ==> s.readers == map[])
    && (forall p :: p in s.readers ==> s.readers[p].remaining <= s.subscribers)
    && (s.writer.Unsubscribing? ==> s.writer.id < s.nextID)
    && (s.writer.Closing? ==> s.writer.id in s.chans && s.writer.id !in s.subscribers)
  }

  ghost predicate Sound(q: Queue<Event>, bufSize: nat) {
    Valid(q) && q.cap == bufSize
  }

  ghost predicate QueuesSound(s: State) {
    forall id :: id in s.chans ==> Sound(s.chans[id].q, s.bufSize)
  }

  ghost predicate Inv(s: State) {
    ChannelsMatch(s) && LockDiscipline(s) && QueuesSound(s) && !s.panicked
  }

  lemma EmptyIsSound(bufSize: nat)
    ensures Sound(Empty(bufSize), bufSize)
  {
  }

  lemma OpKeepsSound(q: Queue<Event>, op: Op<Event>, bufSize: nat)
    requires Sound(q, bufSize)
    ensures Sound(BoundedQueue.Step(q, op), bufSize)
  {
    StepKeepsValid(q, op);
  }

  lemma StepKeepsQueuesSound(s: State, step: Step)
    requires QueuesSound(s) && Enabled(s, step)
    ensures QueuesSound(Next(s, step)) && Next(s, step).bufSize == s.bufSize
  {
    forall id | id in Next(s, step).chans ensures Sound(Next(s, step).chans[id].q, s.bufSize) {
      StepKeepsQueueSound(s, step, id);
    }
  }

  lemma StepKeepsQueueSound(s: State, step: Step, id: nat)
    requires QueuesSound(s) && Enabled(s, step) && id in Next(s, step).chans
    ensures Sound(Next(s, step).chans[id].q, s.bufSize)
  {
    EmptyIsSound(s.bufSize);
    match step
    case SendOne(p, to) =>
      OpKeepsSound(ChanAt(s, to).q, Offer(s.readers[p].ev), s.bufSize);
    case Receive(from) =>
      OpKeepsSound(s.chans[from].q, Take, s.bufSize);
    case _ =>
  }

  lemma StepKeepsChannels(s: State, step: Step)
    requires ChannelsMatch(s) && LockDiscipline(s) && !s.panicked && Enabled(s, step)
    ensures ChannelsMatch(Next(s, step)) && !Next(s, step).panicked
  {
  }

  lemma StepKeepsLocks(s: State, step: Step)
    requires ChannelsMatch(s) && LockDiscipline(s) && Enabled(s, step)
    ensures LockDiscipline(Next(s, step))
  {
  }

  lemma StepKeepsInv(s: State, step: Step)
    requires Inv(s) && Enabled(s, step)
    ensures Inv(Next(s, step)) && Next(s, step).bufSize == s.bufSize
  {
    StepKeepsQueuesSound(s, step);
    StepKeepsChannels(s, step);
    StepKeepsLocks(s, step);
  }

  /** In every interleaving no step sends on a closed channel or closes one twice. */
  lemma {:induction false} NoRunPanics(s: State, steps: seq<Step>)
    requires Inv(s) && Admissible(s, steps)
    ensures Inv(Exec(s, steps)) && Exec(s, steps).bufSize == s.bufSize
    ensures !Exec(s, steps).panicked
    decreases |steps|
  {
    if steps != [] {
      StepKeepsInv(s, steps[0]);
      NoRunPanics(Next(s, steps[0]), steps[1..]);
    }
  }

  /** What a run never undoes: ids only grow, a channel keeps its history, a closed channel stays
      closed, and an id that has left the map stays out. */
  ghost predicate Extends(s: State, t: State) {
    && s.nextID <= t.nextID
    && (forall id :: id in s.chans ==> ChannelExtends(s, t, id))
    && (forall id :: id in s.chans && id !in s.subscribers ==> id !in t.subscribers)
  }

  predicate ChannelExtends(s: State, t: State, id: nat)
    requires id in s.chans
  {
    && id in t.chans
    && s.chans[id].q.log <= t.chans[id].q.log
    && s.chans[id].q.received <= t.chans[id].q.received
    && (s.chans[id].closed ==> t.chans[id].closed)
  }

  lemma StepKeepsIds(s: State, step: Step)
    requires ChannelsMatch(s) && Enabled(s, step)
    ensures var t := Next(s, step);
      && s.nextID <= t.nextID
      && forall id :: id in s.chans && id !in s.subscribers ==> id !in t.subscribers
  {
  }

  lemma StepExtendsChannel(s: State, step: Step, id: nat)
    requires ChannelsMatch(s) && Enabled(s, step) && id in s.chans
    ensures ChannelExtends(s, Next(s, step), id)
  {
  }

  lemma StepExtends(s: State, step: Step)
    requires ChannelsMatch(s) && Enabled(s, step)
    ensures Extends(s, Next(s, step))
  {
    StepKeepsIds(s, step);
    forall id | id in s.chans ensures ChannelExtends(s, Next(s, step), id) {
      StepExtendsChannel(s, step, id);
    }
  }

  lemma ExtendsTransitive(s: State, t: State, u: State)
    requires Extends(s, t) && Extends(t, u)
    ensures Extends(s, u)
  {
    forall id | id in s.chans ensures ChannelExtends(s, u, id) {
      assert ChannelExtends(s, t, id) && ChannelExtends(t, u, id);
    }
  }

  /** The ids a run's Subscribe calls are given. */
  function IssuedIds(s: State, steps: seq<Step>): seq<nat>
    requires Admissible(s, steps)
    decreases |steps|
  {
    if steps == [] then []
    else
      var rest := IssuedIds(Next(s, steps[0]), steps[1..]);
      if steps[0].InsertSubscriber? then [s.nextID] + rest else rest
  }

  lemma {:induction false} IdsAreNeverReused(s: State, steps: seq<Step>)
    requires Inv(s) && Admissible(s, steps)
    ensures Extends(s, Exec(s, steps))
    decreases |steps|
  {
    if steps != [] {
      StepKeepsInv(s, steps[0]);
      StepExtends(s, steps[0]);
      IdsAreNeverReused(Next(s, steps[0]), steps[1..]);
      ExtendsTransitive(s, Next(s, steps[0]), Exec(s, steps));
    }
  }

  lemma StepIssues(s: State, step: Step)
    requires Enabled(s, step)
    ensures Next(s, step).nextID == if step.InsertSubscriber? then s.nextID + 1 else s.nextID
  {
  }

  /** The ids increase, from first on. */
  predicate Rising(ids: seq<nat>, first: nat) {
    && (forall i :: 0 <= i < |ids| ==> first <= ids[i])
    && (forall i, j :: 0 <= i < j < |ids| ==> ids[i] < ids[j])
  }

  lemma RisingCons(ids: seq<nat>, first: nat)
    requires Rising(ids, first + 1)
    ensures Rising(ids, first) && Rising([first] + ids, first)
  {
  }

  /** No two Subscribe calls of a run are given the same id, nor one that was in use before. */
  lemma {:induction false} IssuedIdsAreFresh(s: State, steps: seq<Step>)
    requires Admissible(s, steps)
    ensures Rising(IssuedIds(s, steps), s.nextID)
    decreases |steps|
  {
    if steps != [] {
      StepIssues(s, steps[0]);
      IssuedIdsAreFresh(Next(s, steps[0]), steps[1..]);
      if steps[0].InsertSubscriber? {
        RisingCons(IssuedIds(Next(s, steps[0]), steps[1..]), s.nextID);
      }
    }
  }

  // ---------------------------------------------------------------- one queue per subscriber

  /** What a step does to the queue of subscriber id: nothing, or one queue operation. */
  function LocalOps(s: State, step: Step, id: nat): seq<Op<Event>>
    requires Enabled(s, step)
  {
    match step
    case SendOne(p, to) => if to == id then [Offer(s.readers[p].ev)] else []
    case Receive(from) => if from == id then [Take] else []
    case _ => []
  }

  function Projection(s: State, steps: seq<Step>, id: nat): seq<Op<Event>>
    requires Admissible(s, steps)
    decreases |steps|
  {
    if steps == [] then []
    else LocalOps(s, steps[0], id) + Projection(Next(s, steps[0]), steps[1..], id)
  }

  lemma {:induction false} RunAppend(q: Queue<Event>, a: seq<Op<Event>>, b: seq<Op<Event>>)
    ensures Run(q, a + b) == Run(Run(q, a), b)
    decreases |a|
  {
    if a == [] {
      assert a + b == b;
    } else {
      assert (a + b)[1..] == a[1..] + b;
      RunAppend(BoundedQueue.Step(q, a[0]), a[1..], b);
    }
  }

  lemma RunOne(q: Queue<Event>, op: Op<Event>)
    ensures Run(q, [op]) == BoundedQueue.Step(q, op)
  {
    assert [op][1..] == [];
    assert Run(BoundedQueue.Step(q, op), []) == BoundedQueue.Step(q, op);
  }

  lemma StepIsLocal(s: State, step: Step, id: nat)
    requires Inv(s) && Enabled(s, step)
    ensures ChanAt(Next(s, step), id).q == Run(ChanAt(s, id).q, LocalOps(s, step, id))
  {
    match step
    case SendOne(p, to) =>
      assert to in s.subscribers;
      RunOne(ChanAt(s, id).q, Offer(s.readers[p].ev));
    case Receive(from) =>
      RunOne(ChanAt(s, id).q, Take);
    case _ =>
  }

  /** The broker refines one bounded queue per subscriber: what happened to subscriber id is
      the outcome of the operations on id alone, whatever the other subscribers did between. */
  lemma {:induction false} RunIsLocal(s: State, steps: seq<Step>, id: nat)
    requires Inv(s) && Admissible(s, steps)
    ensures ChanAt(Exec(s, steps), id).q == Run(ChanAt(s, id).q, Projection(s, steps, id))
    decreases |steps|
  {
    if steps != [] {
      var next := Next(s, steps[0]);
      StepKeepsInv(s, steps[0]);
      StepIsLocal(s, steps[0], id);
      RunIsLocal(next, steps[1..], id);
      RunAppend(ChanAt(s, id).q, LocalOps(s, steps[0], id), Projection(next, steps[1..], id));
    }
  }

  /** Per-subscriber guarantees in every reachable state. */
  lemma SubscriberGuarantees(bufSize: nat, steps: seq<Step>, id: nat)
    requires Admissible(Init(bufSize), steps)
    ensures var q := ChanAt(Exec(Init(bufSize), steps), id).q;
      && |Offered(q.log)| == |q.received| + |q.buf| + |Dropped(q.log)|
      && |q.buf| <= bufSize
      && (forall i :: 0 <= i < |q.log| ==> (q.log[i].taken <==> q.log[i].backlog != bufSize))
      && ((forall i :: 0 <= i < |q.log| ==> q.log[i].backlog < bufSize) <==> Dropped(q.log) == [])
      && (Dropped(q.log) == [] ==> q.received + q.buf == Offered(q.log))
      && FirstOffers(q) <= |Offered(q.log)|
      && Offered(q.log)[..FirstOffers(q)] <= q.received + q.buf
  {
    EmptyIsSound(bufSize);
    NoRunPanics(Init(bufSize), steps);
    var q := ChanAt(Exec(Init(bufSize), steps), id).q;
    OffersAreConserved(q);
    LosslessIffNeverFull(q);
    FirstOffersSurvive(q);
  }

  // ---------------------------------------------------------------- uninterrupted calls

  /** The broker as one goroutine sees it between calls. */
  datatype View = View(nextID: nat, subscribers: set<nat>, buffers: map<nat, seq<Event>>)

  function ViewOf(s: State): View {
    View(s.nextID, s.subscribers, map id | id in s.chans :: s.chans[id].q.buf)
  }

  function Subscribed(v: View): View {
    View(v.nextID + 1, v.subscribers + {v.nextID}, v.buffers[v.nextID := []])
  }

  function Unsubscribed(v: View, id: nat): View {
    v.(subscribers := v.subscribers - {id})
  }

  function Published(v: View, bufSize: nat, ev: Event): View {
    v.(buffers := map id | id in v.buffers ::
         if id in v.subscribers then Pushed(bufSize, v.buffers[id], ev) else v.buffers[id])
  }

  function SubscribeCall(): seq<Step> {
    [LockSubscribe, InsertSubscriber, UnlockWriter]
  }

  function UnsubscribeCall(s: State, id: nat): seq<Step> {
    [LockUnsubscribe(id), DeleteSubscriber]
    + (if id in s.subscribers then [CloseChannel] else [])
    + [UnlockWriter]
  }

  function Sends(p: nat, order: seq<nat>): seq<Step> {
    seq(|order|, i requires 0 <= i < |order| => SendOne(p, order[i]))
  }

  /** Publish ranges over the map in whatever order the runtime picks. */
  function PublishCall(p: nat, ev: Event, order: seq<nat>): seq<Step> {
    [LockPublish(p, ev)] + Sends(p, order) + [UnlockPublish(p)]
  }

  lemma {:induction false} ExecAppend(s: State, a: seq<Step>, b: seq<Step>)
    requires Admissible(s, a) && Admissible(Exec(s, a), b)
    ensures Admissible(s, a + b) && Exec(s, a + b) == Exec(Exec(s, a), b)
    decreases |a|
  {
    if a == [] {
      assert a + b == b;
    } else {
      assert (a + b)[1..] == a[1..] + b;
      ExecAppend(Next(s, a[0]), a[1..], b);
    }
  }

  lemma ExecCons(s: State, step: Step, rest: seq<Step>)
    requires Enabled(s, step) && Admissible(Next(s, step), rest)
    ensures var all := [step] + rest; Admissible(s, all) && Exec(s, all) == Exec(Next(s, step), rest)
  {
    assert ([step] + rest)[1..] == rest;
  }

  lemma ExecOne(s: State, step: Step)
    requires Enabled(s, step)
    ensures Admissible(s, [step]) && Exec(s, [step]) == Next(s, step)
  {
    assert [step][1..] == [];
    assert Exec(Next(s, step), []) == Next(s, step);
  }

  lemma SubscribeIsAtomic(s: State)
    requires Inv(s) && LockFree(s)
    ensures Admissible(s, SubscribeCall())
    ensures ViewOf(Exec(s, SubscribeCall())) == Subscribed(ViewOf(s))
    ensures LockFree(Exec(s, SubscribeCall()))
  {
    var s1 := Next(s, LockSubscribe);
    var s2 := Next(s1, InsertSubscriber);
    ExecOne(s2, UnlockWriter);
    ExecOne(s1, InsertSubscriber);
    ExecAppend(s1, [InsertSubscriber], [UnlockWriter]);
    ExecOne(s, LockSubscribe);
    ExecAppend(s, [LockSubscribe], [InsertSubscriber] + [UnlockWriter]);
    assert SubscribeCall() == [LockSubscribe] + ([InsertSubscriber] + [UnlockWriter]);
  }

  lemma FirstUnsubscribe(s: State, id: nat)
    requires Inv(s) && LockFree(s) && id in s.subscribers
    ensures Admissible(s, UnsubscribeCall(s, id))
    ensures Exec(s, UnsubscribeCall(s, id))
         == s.(subscribers := s.subscribers - {id}, chans := s.chans[id := s.chans[id].(closed := true)])
  {
    var locked := Next(s, LockUnsubscribe(id));
    var deleted := Next(locked, DeleteSubscriber);
    var closed := Next(deleted, CloseChannel);
    ExecOne(closed, UnlockWriter);
    ExecCons(deleted, CloseChannel, [UnlockWriter]);
    assert [CloseChannel] + [UnlockWriter] == [CloseChannel, UnlockWriter];
    ExecCons(locked, DeleteSubscriber, [CloseChannel, UnlockWriter]);
    assert [DeleteSubscriber] + [CloseChannel, UnlockWriter] == [DeleteSubscriber, CloseChannel, UnlockWriter];
    ExecCons(s, LockUnsubscribe(id), [DeleteSubscriber, CloseChannel, UnlockWriter]);
    assert UnsubscribeCall(s, id) == [LockUnsubscribe(id), DeleteSubscriber, CloseChannel, UnlockWriter];
  }

  lemma LaterUnsubscribe(s: State, id: nat)
    requires LockFree(s) && id < s.nextID && id !in s.subscribers
    ensures Admissible(s, UnsubscribeCall(s, id))
    ensures Exec(s, UnsubscribeCall(s, id)) == s
  {
    var locked := Next(s, LockUnsubscribe(id));
    var deleted := Next(locked, DeleteSubscriber);
    ExecOne(deleted, UnlockWriter);
    ExecCons(locked, DeleteSubscriber, [UnlockWriter]);
    ExecCons(s, LockUnsubscribe(id), [DeleteSubscriber, UnlockWriter]);
    assert UnsubscribeCall(s, id) == [LockUnsubscribe(id), DeleteSubscriber, UnlockWriter];
  }

  /** Unsubscribing removes the id and closes its channel; a second call, or any later one,
      leaves the whole state as it was. */
  lemma UnsubscribeIsAtomicAndIdempotent(s: State, id: nat)
    requires Inv(s) && LockFree(s) && id < s.nextID
    ensures Admissible(s, UnsubscribeCall(s, id))
    ensures var after := Exec(s, UnsubscribeCall(s, id));
      && ViewOf(after) == Unsubscribed(ViewOf(s), id)
      && LockFree(after) && ChanAt(after, id).closed
      && Admissible(after, UnsubscribeCall(after, id))
      && Exec(after, UnsubscribeCall(after, id)) == after
  {
    if id in s.subscribers {
      FirstUnsubscribe(s, id);
      LaterUnsubscribe(Exec(s, UnsubscribeCall(s, id)), id);
    } else {
      LaterUnsubscribe(s, id);
      assert s.subscribers - {id} == s.subscribers;
    }
  }

  /** The buffers once the subscribers in served have been offered ev. */
  function Served(buffers: map<nat, seq<Event>>, served: set<nat>, bufSize: nat, ev: Event): map<nat, seq<Event>> {
    map id | id in buffers ::
      if id in served then Pushed(bufSize, buffers[id], ev) else buffers[id]
  }

  lemma SendServesOne(s: State, p: nat, id: nat)
    requires Inv(s) && p in s.readers && id in s.readers[p].remaining
    ensures ViewOf(Next(s, SendOne(p, id))).buffers
         == Served(ViewOf(s).buffers, {id}, s.bufSize, s.readers[p].ev)
  {
    assert Sound(s.chans[id].q, s.bufSize);
  }

  lemma ServedInTurn(buffers: map<nat, seq<Event>>, id: nat, rest: set<nat>, bufSize: nat, ev: Event)
    requires id !in rest
    ensures Served(Served(buffers, {id}, bufSize, ev), rest, bufSize, ev)
         == Served(buffers, {id} + rest, bufSize, ev)
  {
  }

  /** after is s once publisher p has served everyone it had left. */
  ghost predicate AllServed(s: State, after: State, p: nat)
    requires p in s.readers
  {
    && after.readers == s.readers[p := s.readers[p].(remaining := {})]
    && after.writer == s.writer && after.nextID == s.nextID && after.subscribers == s.subscribers
    && ViewOf(after).buffers
       == Served(ViewOf(s).buffers, s.readers[p].remaining, s.bufSize, s.readers[p].ev)
  }

  lemma NoneLeft(s: State, p: nat)
    requires p in s.readers && s.readers[p].remaining == {}
    ensures AllServed(s, s, p)
  {
    assert s.readers == s.readers[p := s.readers[p].(remaining := {})];
  }

  lemma OneMoreServed(s: State, p: nat, id: nat, after: State)
    requires Inv(s) && p in s.readers && id in s.readers[p].remaining
    requires var next := Next(s, SendOne(p, id)); p in next.readers && AllServed(next, after, p)
    ensures AllServed(s, after, p)
  {
    var next, pub := Next(s, SendOne(p, id)), s.readers[p];
    SendServesOne(s, p, id);
    ServedInTurn(ViewOf(s).buffers, id, pub.remaining - {id}, s.bufSize, pub.ev);
    assert {id} + (pub.remaining - {id}) == pub.remaining;
    assert next.readers[p] == pub.(remaining := pub.remaining - {id});
    assert after.readers == s.readers[p := pub.(remaining := {})];
  }

  ghost predicate Serving(s: State, p: nat, order: seq<nat>) {
    Inv(s) && p in s.readers && Enumerates(order, s.readers[p].remaining)
  }

  lemma SendContinues(s: State, p: nat, order: seq<nat>)
    requires Serving(s, p, order) && order != []
    ensures Enabled(s, SendOne(p, order[0])) && Serving(Next(s, SendOne(p, order[0])), p, order[1..])
  {
    EnumeratesRest(order, s.readers[p].remaining);
    StepKeepsInv(s, SendOne(p, order[0]));
  }

  lemma SendsCons(p: nat, order: seq<nat>)
    requires order != []
    ensures Sends(p, order) == [SendOne(p, order[0])] + Sends(p, order[1..])
  {
  }

  lemma {:induction false} SendsServeAll(s: State, p: nat, order: seq<nat>)
    requires Serving(s, p, order)
    ensures Admissible(s, Sends(p, order)) && AllServed(s, Exec(s, Sends(p, order)), p)
    decreases |order|
  {
    if order == [] {
      assert s.readers[p].remaining == {};
      NoneLeft(s, p);
      assert Sends(p, order) == [];
    } else {
      SendContinues(s, p, order);
      var next := Next(s, SendOne(p, order[0]));
      SendsServeAll(next, p, order[1..]);
      ServedThenRest(s, p, order, Exec(next, Sends(p, order[1..])));
    }
  }

  lemma ServedThenRest(s: State, p: nat, order: seq<nat>, after: State)
    requires Serving(s, p, order) && order != []
    requires Enabled(s, SendOne(p, order[0]))
    requires var next := Next(s, SendOne(p, order[0]));
      && p in next.readers && Admissible(next, Sends(p, order[1..]))
      && after == Exec(next, Sends(p, order[1..])) && AllServed(next, after, p)
    ensures Admissible(s, Sends(p, order)) && after == Exec(s, Sends(p, order)) && AllServed(s, after, p)
  {
    OneMoreServed(s, p, order[0], after);
    SendsCons(p, order);
    ExecCons(s, SendOne(p, order[0]), Sends(p, order[1..]));
  }

  /** An uninterrupted Publish offers the event to every subscriber once, in whatever order the
      map is ranged over, and completes however slow any of them is. */
  lemma PublishIsAtomic(s: State, p: nat, ev: Event, order: seq<nat>)
    requires Inv(s) && LockFree(s) && Enumerates(order, s.subscribers)
    ensures Admissible(s, PublishCall(p, ev, order))
    ensures ViewOf(Exec(s, PublishCall(p, ev, order))) == Published(ViewOf(s), s.bufSize, ev)
    ensures LockFree(Exec(s, PublishCall(p, ev, order)))
  {
    var locked := Next(s, LockPublish(p, ev));
    StepKeepsInv(s, LockPublish(p, ev));
    ExecOne(s, LockPublish(p, ev));
    SendsServeAll(locked, p, order);
    ExecAppend(s, [LockPublish(p, ev)], Sends(p, order));
    var served := Exec(locked, Sends(p, order));
    assert served.readers - {p} == map[];
    ExecOne(served, UnlockPublish(p));
    ExecAppend(s, [LockPublish(p, ev)] + Sends(p, order), [UnlockPublish(p)]);
  }
}
