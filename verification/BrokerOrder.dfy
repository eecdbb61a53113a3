/** Whether subscribers agree on the order of events: with one publisher at a time they do. */
module BrokerOrder {
  import opened Events
  import opened BoundedQueue
  import opened BrokerSteps

  // ---------------------------------------------------------------- one publisher at a time

  /** No Publish takes the read lock while another holds it. */
  predicate OneAtATime(s: State, steps: seq<Step>)
    requires Admissible(s, steps)
    decreases |steps|
  {
    steps == []
    || ((steps[0].LockPublish? ==> s.readers == map[]) && OneAtATime(Next(s, steps[0]), steps[1..]))
  }

  /** The events of the run's Publish calls, in the order in which they took the lock. */
  function Publications(steps: seq<Step>): seq<Event> {
    if steps == [] then []
    else if steps[0].LockPublish? then [steps[0].ev] + Publications(steps[1..])
    else Publications(steps[1..])
  }

  /** At most one Publish is under way, and its event is the last one published. */
  ghost predicate Solo(s: State, published: seq<Event>) {
    && (forall p, q :: p in s.readers && q in s.readers ==> p == q)
    && (forall p :: p in s.readers ==> published != [] && s.readers[p].ev == published[|published| - 1])
  }

  ghost predicate Unserved(s: State, id: nat) {
    exists p :: p in s.readers && id in s.readers[p].remaining
  }

  function OffersTo(s: State, id: nat): seq<Event> {
    Offered(ChanAt(s, id).q.log)
  }

  ghost predicate IsSlice(offers: seq<Event>, published: seq<Event>, lo: nat, hi: nat) {
    lo <= hi <= |published| && offers == published[lo..hi]
  }

  /** id was offered published[lo..hi]; a subscriber everything since lo but what is under way. */
  ghost predicate ServedBetween(s: State, published: seq<Event>, id: nat, lo: nat, hi: nat) {
    && IsSlice(OffersTo(s, id), published, lo, hi)
    && (id in s.subscribers ==> hi == |published| - if Unserved(s, id) then 1 else 0)
  }

  ghost predicate InTurn(s: State, published: seq<Event>, id: nat) {
    exists lo, hi :: ServedBetween(s, published, id, lo, hi)
  }

  function After(published: seq<Event>, step: Step): seq<Event> {
    if step.LockPublish? then published + [step.ev] else published
  }

  lemma StepKeepsSolo(s: State, published: seq<Event>, step: Step)
    requires Solo(s, published) && Enabled(s, step) && (step.LockPublish? ==> s.readers == map[])
    ensures Solo(Next(s, step), After(published, step))
  {
  }

  lemma SendOffers(s: State, p: nat, id: nat)
    requires Inv(s) && Enabled(s, SendOne(p, id))
    ensures var t := Next(s, SendOne(p, id));
      && OffersTo(t, id) == OffersTo(s, id) + [s.readers[p].ev]
      && t.subscribers == s.subscribers && id in s.subscribers
  {
    assert id in s.subscribers;
    assert !ChanAt(s, id).closed;
    OfferHistories(ChanAt(s, id).q, s.readers[p].ev);
  }

  lemma SendSettles(s: State, published: seq<Event>, p: nat, id: nat)
    requires Solo(s, published) && Enabled(s, SendOne(p, id))
    ensures Unserved(s, id) && !Unserved(Next(s, SendOne(p, id)), id)
    ensures published != [] && s.readers[p].ev == published[|published| - 1]
  {
  }

  lemma SendServesInTurn(s: State, published: seq<Event>, p: nat, id: nat)
    requires Inv(s) && Solo(s, published) && InTurn(s, published, id) && Enabled(s, SendOne(p, id))
    ensures InTurn(Next(s, SendOne(p, id)), published, id)
  {
    var lo: nat, hi: nat :| ServedBetween(s, published, id, lo, hi);
    SendOffers(s, p, id);
    SendSettles(s, published, p, id);
    assert published[lo..hi] + [published[hi]] == published[lo..hi + 1];
    assert ServedBetween(Next(s, SendOne(p, id)), published, id, lo, hi + 1);
  }

  lemma LockKeepsInTurn(s: State, published: seq<Event>, p: nat, ev: Event, id: nat)
    requires s.readers == map[] && InTurn(s, published, id) && Enabled(s, LockPublish(p, ev))
    ensures InTurn(Next(s, LockPublish(p, ev)), published + [ev], id)
  {
    var lo: nat, hi: nat :| ServedBetween(s, published, id, lo, hi);
    var t := Next(s, LockPublish(p, ev));
    assert !Unserved(s, id);
    assert p in t.readers && (id in s.subscribers ==> Unserved(t, id));
    assert (published + [ev])[lo..hi] == published[lo..hi];
    assert ServedBetween(t, published + [ev], id, lo, hi);
  }

  lemma InsertKeepsInTurn(s: State, published: seq<Event>, id: nat)
    requires Inv(s) && InTurn(s, published, id) && Enabled(s, InsertSubscriber)
    ensures InTurn(Next(s, InsertSubscriber), published, id)
  {
    var lo: nat, hi: nat :| ServedBetween(s, published, id, lo, hi);
    var t := Next(s, InsertSubscriber);
    assert !Unserved(s, id) && !Unserved(t, id);
    if id == s.nextID {
      assert published[|published|..|published|] == [];
      assert ServedBetween(t, published, id, |published|, |published|);
    } else {
      assert ServedBetween(t, published, id, lo, hi);
    }
  }

  /** The steps that leave the offers to id alone, and what it is still owed. */
  predicate LeavesOffers(step: Step, id: nat) {
    !step.LockPublish? && !step.InsertSubscriber? && !(step.SendOne? && step.id == id)
  }

  lemma OthersKeepOffers(s: State, step: Step, id: nat)
    requires Enabled(s, step) && LeavesOffers(step, id)
    ensures OffersTo(Next(s, step), id) == OffersTo(s, id)
    ensures id in Next(s, step).subscribers ==> id in s.subscribers
  {
  }

  lemma OthersKeepDebt(s: State, step: Step, id: nat)
    requires Enabled(s, step) && LeavesOffers(step, id)
    ensures Unserved(Next(s, step), id) <==> Unserved(s, id)
  {
    var t := Next(s, step);
    if Unserved(s, id) {
      var p :| p in s.readers && id in s.readers[p].remaining;
      assert p in t.readers && id in t.readers[p].remaining;
    }
    if Unserved(t, id) {
      var p :| p in t.readers && id in t.readers[p].remaining;
      assert p in s.readers && id in s.readers[p].remaining;
    }
  }

  lemma OthersKeepInTurn(s: State, published: seq<Event>, step: Step, id: nat)
    requires InTurn(s, published, id) && Enabled(s, step) && LeavesOffers(step, id)
    ensures InTurn(Next(s, step), published, id)
  {
    OthersKeepOffers(s, step, id);
    OthersKeepDebt(s, step, id);
    var lo: nat, hi: nat :| ServedBetween(s, published, id, lo, hi);
    assert ServedBetween(Next(s, step), published, id, lo, hi);
  }

  lemma StepKeepsInTurn(s: State, published: seq<Event>, step: Step, id: nat)
    requires Inv(s) && Solo(s, published) && InTurn(s, published, id)
    requires Enabled(s, step) && (step.LockPublish? ==> s.readers == map[])
    ensures InTurn(Next(s, step), After(published, step), id)
  {
    if LeavesOffers(step, id) {
      OthersKeepInTurn(s, published, step, id);
    } else {
      match step
      case LockPublish(p, ev) => LockKeepsInTurn(s, published, p, ev, id);
      case SendOne(p, _) => SendServesInTurn(s, published, p, id);
      case InsertSubscriber => InsertKeepsInTurn(s, published, id);
    }
  }

  lemma {:induction false} RunKeepsInTurn(s: State, published: seq<Event>, steps: seq<Step>, id: nat)
    requires Inv(s) && Solo(s, published) && InTurn(s, published, id)
    requires Admissible(s, steps) && OneAtATime(s, steps)
    ensures InTurn(Exec(s, steps), published + Publications(steps), id)
    decreases |steps|
  {
    if steps == [] {
      assert published + Publications(steps) == published;
    } else {
      StepKeepsInv(s, steps[0]);
      StepKeepsSolo(s, published, steps[0]);
      StepKeepsInTurn(s, published, steps[0], id);
      RunKeepsInTurn(Next(s, steps[0]), After(published, steps[0]), steps[1..], id);
      assert After(published, steps[0]) + Publications(steps[1..]) == published + Publications(steps);
    }
  }

  /** If at most one Publish is under way at any time, every subscriber is offered a contiguous
      piece of one sequence of events, common to all of them. */
  lemma OnePublisherKeepsOrder(bufSize: nat, steps: seq<Step>, id: nat)
    requires Admissible(Init(bufSize), steps) && OneAtATime(Init(bufSize), steps)
    ensures exists lo, hi :: IsSlice(OffersTo(Exec(Init(bufSize), steps), id), Publications(steps), lo, hi)
  {
    var s, none: seq<Event> := Init(bufSize), [];
    assert ServedBetween(s, none, id, 0, 0);
    RunKeepsInTurn(s, none, steps, id);
    assert none + Publications(steps) == Publications(steps);
    var lo: nat, hi: nat :| ServedBetween(Exec(s, steps), Publications(steps), id, lo, hi);
    assert IsSlice(OffersTo(Exec(s, steps), id), Publications(steps), lo, hi);
  }

  // ---------------------------------------------------------------- two publishers at once

  /** Publisher p holds ev and still has id to serve. */
  ghost predicate Owes(s: State, p: nat, ev: Event, id: nat) {
    p in s.readers && s.readers[p].ev == ev && id in s.readers[p].remaining
  }

  /** The open channel of id holds exactly these events. */
  ghost predicate Holds(s: State, id: nat, events: seq<Event>) {
    id in s.chans && !s.chans[id].closed && s.chans[id].q.buf == events && s.chans[id].q.cap == s.bufSize
  }

  lemma ServeOne(s: State, p: nat, ev: Event, id: nat, events: seq<Event>)
    requires Owes(s, p, ev, id) && Holds(s, id, events) && |events| < s.bufSize
    ensures Enabled(s, SendOne(p, id)) && Next(s, SendOne(p, id)).bufSize == s.bufSize
    ensures Holds(Next(s, SendOne(p, id)), id, events + [ev])
  {
  }

  lemma ServingLeavesOthers(s: State, p: nat, id: nat, q: nat, ev: Event, other: nat, events: seq<Event>)
    requires Enabled(s, SendOne(p, id)) && (p != q || id != other)
    ensures Owes(s, q, ev, other) ==> Owes(Next(s, SendOne(p, id)), q, ev, other)
    ensures Holds(s, other, events) && id != other ==> Holds(Next(s, SendOne(p, id)), other, events)
  {
  }

  lemma ExecTwo(s: State, first: Step, second: Step)
    requires Enabled(s, first) && Enabled(Next(s, first), second)
    ensures var steps := [first, second]; Admissible(s, steps) && Exec(s, steps) == Next(Next(s, first), second)
  {
    ExecOne(Next(s, first), second);
    ExecCons(s, first, [second]);
    assert [first, second] == [first] + [second];
  }

  /** Two publishers in either order serve one idle subscriber. */
  lemma ServeInOrder(s: State, p: nat, a: Event, q: nat, b: Event, id: nat)
    requires s.bufSize >= 2 && p != q
    requires Owes(s, p, a, id) && Owes(s, q, b, id) && Holds(s, id, [])
    ensures Enabled(s, SendOne(p, id)) && Enabled(Next(s, SendOne(p, id)), SendOne(q, id))
    ensures var t := Next(Next(s, SendOne(p, id)), SendOne(q, id));
      t.bufSize == s.bufSize && Holds(t, id, [a, b])
  {
    ServeOne(s, p, a, id, []);
    ServingLeavesOthers(s, p, id, q, b, id, []);
    assert [] + [a] == [a] && [a] + [b] == [a, b];
    ServeOne(Next(s, SendOne(p, id)), q, b, id, [a]);
  }

  lemma ServeAndLeave(s: State, p: nat, a: Event, q: nat, b: Event, id: nat, other: nat, events: seq<Event>)
    requires s.bufSize >= 2 && p != q && id != other
    requires Owes(s, p, a, id) && Owes(s, q, b, id) && Holds(s, id, []) && Holds(s, other, events)
    ensures var steps := [SendOne(p, id), SendOne(q, id)];
      && Admissible(s, steps)
      && var t := Exec(s, steps);
      && t.bufSize == s.bufSize && Holds(t, id, [a, b]) && Holds(t, other, events)
      && (Owes(s, p, a, other) && Owes(s, q, b, other) ==> Owes(t, p, a, other) && Owes(t, q, b, other))
  {
    ServeInOrder(s, p, a, q, b, id);
    ExecTwo(s, SendOne(p, id), SendOne(q, id));
    ServingLeavesOthers(s, p, id, p, a, other, events);
    ServingLeavesOthers(s, p, id, q, b, other, events);
    var s1 := Next(s, SendOne(p, id));
    ServingLeavesOthers(s1, q, id, p, a, other, events);
    ServingLeavesOthers(s1, q, id, q, b, other, events);
  }

  lemma LockTwice(s: State, a: Event, b: Event)
    requires LockFree(s)
    ensures var steps := [LockPublish(0, a), LockPublish(1, b)];
      && Admissible(s, steps)
      && Exec(s, steps) == s.(readers := map[0 := Publication(a, s.subscribers), 1 := Publication(b, s.subscribers)])
  {
    var s1 := Next(s, LockPublish(0, a));
    assert Enabled(s1, LockPublish(1, b));
    ExecTwo(s, LockPublish(0, a), LockPublish(1, b));
  }

  /** With two publishers at once, two subscribers may see two events in opposite orders. */
  lemma ConcurrentPublishersMayReorder(s: State, a: Event, b: Event, one: nat, two: nat)
    requires LockFree(s) && s.bufSize >= 2 && one != two
    requires one in s.subscribers && two in s.subscribers && Holds(s, one, []) && Holds(s, two, [])
    ensures exists steps ::
      Admissible(s, steps) && Holds(Exec(s, steps), one, [a, b]) && Holds(Exec(s, steps), two, [b, a])
  {
    var locks, ones, twos := [LockPublish(0, a), LockPublish(1, b)],
        [SendOne(0, one), SendOne(1, one)], [SendOne(1, two), SendOne(0, two)];
    LockTwice(s, a, b);
    var locked := Exec(s, locks);
    ServeAndLeave(locked, 0, a, 1, b, one, two, []);
    var served := Exec(locked, ones);
    ServeAndLeave(served, 1, b, 0, a, two, one, [a, b]);
    ExecAppend(locked, ones, twos);
    ExecAppend(s, locks, ones + twos);
  }
}
