/**
 * The broker's methods as code that updates its map and channels in place. Each method is
 * proved against the same View functions that BrokerSteps proves uninterrupted calls to
 * compute, so the two models describe one broker.
 */
module Broker {
  import opened BoundedQueue
  import opened Events
  import BrokerSteps

  /** A buffered channel of events. */
  class Channel {
    const capacity: nat
    var buf: seq<Event>
    var closed: bool

    constructor (capacity: nat)
      ensures this.capacity == capacity && buf == [] && !closed
    {
      this.capacity := capacity;
      buf, closed := [], false;
    }

    /** The send case of a select with a default; Go panics on a closed channel. */
    method TrySend(ev: Event)
      requires !closed
      modifies this`buf
      ensures buf == Pushed(capacity, old(buf), ev)
    {
      if |buf| < capacity {
        buf := buf + [ev];
      }
    }

    /** Go panics when a channel is closed twice. */
    method Close()
      requires !closed
      modifies this`closed
      ensures closed
    {
      closed := true;
    }
  }

  ghost function Buffers(chans: seq<Channel>): map<nat, seq<Event>>
    reads chans
  {
    map id: nat | id < |chans| :: chans[id].buf
  }

  /** One channel was issued per id, and exactly those not in the map are closed. */
  ghost predicate Tracks(chans: seq<Channel>, bufSize: nat, subscribers: map<nat, Channel>)
    reads chans
  {
    && (forall i, j :: 0 <= i < j < |chans| ==> chans[i] != chans[j])
    && (forall i :: 0 <= i < |chans| ==>
          chans[i].capacity == bufSize && (chans[i].closed <==> i !in subscribers))
    && (forall id :: id in subscribers ==> id < |chans| && subscribers[id] == chans[id])
  }

  lemma TracksGrow(chans: seq<Channel>, bufSize: nat, subscribers: map<nat, Channel>, ch: Channel)
    requires Tracks(chans, bufSize, subscribers)
    requires ch !in chans && ch.capacity == bufSize && !ch.closed
    ensures Tracks(chans + [ch], bufSize, subscribers[|chans| := ch])
  {
  }

  lemma BuffersGrow(chans: seq<Channel>, ch: Channel)
    ensures Buffers(chans + [ch]) == Buffers(chans)[|chans| := ch.buf]
  {
  }

  class Broker {
    const bufSize: nat
    var subscribers: map<nat, Channel>
    var nextID: nat
    ghost var issued: seq<Channel>

    ghost predicate Valid()
      reads this, issued
    {
      |issued| == nextID && Tracks(issued, bufSize, subscribers)
    }

    ghost function Contents(): BrokerSteps.View
      reads this, issued
      requires Valid()
    {
      BrokerSteps.View(nextID, subscribers.Keys, Buffers(issued))
    }

    constructor (bufSize: nat)
      ensures Valid() && this.bufSize == bufSize && issued == []
      ensures Contents() == BrokerSteps.View(0, {}, map[])
    {
      this.bufSize := bufSize;
      subscribers, nextID, issued := map[], 0, [];
    }

    method Subscribe() returns (id: nat, ch: Channel)
      requires Valid()
      modifies this
      ensures Valid() && fresh(ch) && id == old(nextID)
      ensures issued == old(issued) + [ch]
      ensures Contents() == BrokerSteps.Subscribed(old(Contents()))
    {
      id := nextID;
      nextID := nextID + 1;
      ch := new Channel(bufSize);
      TracksGrow(issued, bufSize, subscribers, ch);
      BuffersGrow(issued, ch);
      subscribers := subscribers[id := ch];
      issued := issued + [ch];
    }

    /** The closure Subscribe returns. Calling it again changes nothing. */
    method Unsubscribe(id: nat, ch: Channel)
      requires Valid()
      requires id < nextID && issued[id] == ch
      modifies this`subscribers, ch`closed
      ensures Valid() && ch.closed
      ensures Contents() == BrokerSteps.Unsubscribed(old(Contents()), id)
      ensures id !in old(subscribers) ==> unchanged(this) && unchanged(ch)
    {
      if id in subscribers {
        subscribers := subscribers - {id};
        ch.Close();
      }
    }

    method Publish(ev: Event)
      requires Valid()
      modifies subscribers.Values
      ensures Valid() && unchanged(this)
      ensures Contents() == BrokerSteps.Published(old(Contents()), bufSize, ev)
    {
      ghost var before := Contents();
      var pending := subscribers.Keys;
      assert Contents().buffers == BrokerSteps.Served(before.buffers, subscribers.Keys - pending, bufSize, ev);
      while pending != {}
        invariant pending <= subscribers.Keys
        invariant Valid() && unchanged(this)
        invariant Contents().buffers
               == BrokerSteps.Served(before.buffers, subscribers.Keys - pending, bufSize, ev)
        decreases pending
      {
        var id :| id in pending;
        ghost var served := subscribers.Keys - pending;
        Offer(id, ev, before.buffers, served);
        pending := pending - {id};
        assert subscribers.Keys - pending == served + {id};
      }
      assert subscribers.Keys - pending == before.subscribers;
    }

    method Offer(id: nat, ev: Event, ghost before: map<nat, seq<Event>>, ghost served: set<nat>)
      requires Valid() && id in subscribers && id !in served
      requires Contents().buffers == BrokerSteps.Served(before, served, bufSize, ev)
      modifies subscribers[id]
      ensures Valid()
      ensures Contents().buffers == BrokerSteps.Served(before, served + {id}, bufSize, ev)
    {
      assert forall i :: 0 <= i < |issued| && i != id ==> issued[i] != issued[id];
      subscribers[id].TrySend(ev);
    }

    method SubscriberCount() returns (count: nat)
      requires Valid()
      ensures count == |Contents().subscribers|
    {
      count := |subscribers|;
    }
  }
}
