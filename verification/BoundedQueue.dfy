/**
 * A buffered Go channel used with a non-blocking send: a queue that refuses the newest
 * item when it already holds cap items. Every attempt to send is remembered together
 * with the backlog it met, so the histories the runs are judged by are part of the value.
 */
module BoundedQueue {
  import opened Subsequences

  datatype Attempt<T> = Attempt(item: T, backlog: nat, taken: bool)

  datatype Queue<T> = Queue(cap: nat, buf: seq<T>, log: seq<Attempt<T>>, received: seq<T>)

  datatype Op<T> = Offer(item: T) | Take

  function Empty<T>(cap: nat): Queue<T> {
    Queue(cap, [], [], [])
  }

  /** The buffer after select { case ch <- x: default: }. */
  function Pushed<T>(cap: nat, buf: seq<T>, x: T): seq<T> {
    if |buf| < cap then buf + [x] else buf
  }

  function OfferTo<T>(q: Queue<T>, x: T): Queue<T> {
    q.(buf := Pushed(q.cap, q.buf, x), log := q.log + [Attempt(x, |q.buf|, |q.buf| < q.cap)])
  }

  /** A receive that finds an item; on an empty buffer nothing happens. */
  function TakeFrom<T>(q: Queue<T>): Queue<T> {
    if q.buf == [] then q else q.(buf := q.buf[1..], received := q.received + [q.buf[0]])
  }

  function Step<T>(q: Queue<T>, op: Op<T>): Queue<T> {
    match op
    case Offer(x) => OfferTo(q, x)
    case Take => TakeFrom(q)
  }

  function Run<T>(q: Queue<T>, ops: seq<Op<T>>): Queue<T>
    decreases |ops|
  {
    if ops == [] then q else Run(Step(q, ops[0]), ops[1..])
  }

  function Offered<T>(log: seq<Attempt<T>>): seq<T> {
    if log == [] then [] else Offered(log[..|log| - 1]) + [log[|log| - 1].item]
  }

  function Accepted<T>(log: seq<Attempt<T>>): seq<T> {
    if log == [] then []
    else
      var last := log[|log| - 1];
      Accepted(log[..|log| - 1]) + if last.taken then [last.item] else []
  }

  function Dropped<T>(log: seq<Attempt<T>>): seq<T> {
    if log == [] then []
    else
      var last := log[|log| - 1];
      Dropped(log[..|log| - 1]) + if last.taken then [] else [last.item]
  }

  /** What every reachable queue satisfies: the accepted items are exactly those received
      followed by those still buffered, and an attempt failed exactly on a full buffer. */
  ghost predicate Valid<T>(q: Queue<T>) {
    && |q.buf| <= q.cap
    && Accepted(q.log) == q.received + q.buf
    && (forall i :: 0 <= i < |q.log| ==> q.log[i].backlog <= q.cap && q.log[i].backlog <= i)
    && (forall i :: 0 <= i < |q.log| ==> (q.log[i].taken <==> q.log[i].backlog < q.cap))
  }

  lemma OfferHistories<T>(q: Queue<T>, x: T)
    ensures Offered(OfferTo(q, x).log) == Offered(q.log) + [x]
    ensures Accepted(OfferTo(q, x).log) == Accepted(q.log) + if |q.buf| < q.cap then [x] else []
    ensures Dropped(OfferTo(q, x).log) == Dropped(q.log) + if |q.buf| < q.cap then [] else [x]
  {
    var log := OfferTo(q, x).log;
    assert log[..|log| - 1] == q.log;
  }

  lemma {:induction false} LogLengths<T>(log: seq<Attempt<T>>)
    ensures |Offered(log)| == |log|
    ensures |Accepted(log)| + |Dropped(log)| == |log|
    ensures multiset(Accepted(log)) + multiset(Dropped(log)) == multiset(Offered(log))
  {
    if log != [] {
      LogLengths(log[..|log| - 1]);
    }
  }

  lemma StepKeepsValid<T>(q: Queue<T>, op: Op<T>)
    requires Valid(q)
    ensures Valid(Step(q, op)) && Step(q, op).cap == q.cap
  {
    LogLengths(q.log);
    match op
    case Offer(x) =>
      OfferHistories(q, x);
      assert (q.received + q.buf) + [x] == q.received + (q.buf + [x]);
    case Take =>
      if q.buf != [] {
        assert (q.received + [q.buf[0]]) + q.buf[1..] == q.received + q.buf;
      }
  }

  lemma {:induction false} RunKeepsValid<T>(q: Queue<T>, ops: seq<Op<T>>)
    requires Valid(q)
    ensures Valid(Run(q, ops)) && Run(q, ops).cap == q.cap
    decreases |ops|
  {
    if ops != [] {
      StepKeepsValid(q, ops[0]);
      RunKeepsValid(Step(q, ops[0]), ops[1..]);
    }
  }

  /** Nothing is invented or lost unaccounted: offered = received + buffered + dropped. */
  lemma OffersAreConserved<T>(q: Queue<T>)
    requires Valid(q)
    ensures |Offered(q.log)| == |q.received| + |q.buf| + |Dropped(q.log)|
    ensures multiset(Offered(q.log)) == multiset(q.received) + multiset(q.buf) + multiset(Dropped(q.log))
    ensures |q.buf| <= q.cap
  {
    LogLengths(q.log);
  }

  lemma {:induction false} AcceptedIsSubsequence<T>(log: seq<Attempt<T>>)
    ensures Subsequence(Accepted(log), Offered(log))
  {
    if log == [] {
      EmptyIsSubsequence<T>([]);
    } else {
      var init, last := log[..|log| - 1], log[|log| - 1];
      AcceptedIsSubsequence(init);
      if last.taken {
        KeepLast(Accepted(init), Offered(init), last.item);
      } else {
        SkipLast(Accepted(init), Offered(init), last.item);
        assert Accepted(log) == Accepted(init);
      }
    }
  }

  /** What came out, followed by what waits, is what was offered with some items skipped. */
  lemma DeliveryKeepsOrder<T>(q: Queue<T>)
    requires Valid(q)
    ensures Subsequence(q.received + q.buf, Offered(q.log))
  {
    AcceptedIsSubsequence(q.log);
  }

  lemma {:induction false} AllTakenMeansAllAccepted<T>(log: seq<Attempt<T>>)
    ensures (forall i :: 0 <= i < |log| ==> log[i].taken) <==> Dropped(log) == []
    ensures Dropped(log) == [] ==> Accepted(log) == Offered(log)
  {
    if log != [] {
      var init := log[..|log| - 1];
      AllTakenMeansAllAccepted(init);
      assert forall i :: 0 <= i < |init| ==> init[i] == log[i];
      if forall i :: 0 <= i < |log| ==> log[i].taken {
        assert forall i :: 0 <= i < |init| ==> init[i].taken;
      } else {
        var i :| 0 <= i < |log| && !log[i].taken;
        if i < |init| {
          assert !init[i].taken;
        }
      }
    }
  }

  /** A queue loses nothing exactly when every send met fewer than cap waiting items. */
  lemma LosslessIffNeverFull<T>(q: Queue<T>)
    requires Valid(q)
    ensures (forall i :: 0 <= i < |q.log| ==> q.log[i].backlog < q.cap) <==> Dropped(q.log) == []
    ensures Dropped(q.log) == [] ==> q.received + q.buf == Offered(q.log)
  {
    AllTakenMeansAllAccepted(q.log);
  }

  lemma {:induction false} HistoriesOfPrefix<T>(log: seq<Attempt<T>>, n: nat)
    requires n <= |log|
    ensures Offered(log[..n]) <= Offered(log) && Accepted(log[..n]) <= Accepted(log)
  {
    if n < |log| {
      var init := log[..|log| - 1];
      HistoriesOfPrefix(init, n);
      assert init[..n] == log[..n];
    } else {
      assert log[..n] == log;
    }
  }

  function FirstOffers<T>(q: Queue<T>): nat {
    if |q.log| < q.cap then |q.log| else q.cap
  }

  lemma FirstOffersTaken<T>(q: Queue<T>, first: seq<Attempt<T>>)
    requires Valid(q)
    requires |first| <= q.cap && first <= q.log
    ensures Accepted(first) == Offered(first)
  {
    forall i | 0 <= i < |first| ensures first[i].taken {
      assert first[i] == q.log[i];
    }
    AllTakenMeansAllAccepted(first);
  }

  /** The first cap items offered are never lost, whatever the receiver does. */
  lemma FirstOffersSurvive<T>(q: Queue<T>)
    requires Valid(q)
    ensures FirstOffers(q) <= |Offered(q.log)|
    ensures Offered(q.log)[..FirstOffers(q)] <= q.received + q.buf
  {
    var n := FirstOffers(q);
    var first := q.log[..n];
    HistoriesOfPrefix(q.log, n);
    FirstOffersTaken(q, first);
    var offered, kept, early := Offered(q.log), q.received + q.buf, Offered(first);
    assert |offered| == |q.log| by { LogLengths(q.log); }
    assert |early| == n by { LogLengths(first); }
    assert early <= kept && early <= offered;
    assert offered[..n] == early;
  }
}
