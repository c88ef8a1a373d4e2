/**
  The methods of chatRun (internal/vos/httpapi/chat.go) on a heap of channels. Between two of
  them every subscribed channel is open and belongs to one subscriber only, which is what lets
  publish send and close close without a panic. ChatBroadcast has them interleaved.
 */
module ChatRuns {
  import opened Prelude
  import opened ChatBroadcast

  class EventChannel {
    var buffer: seq<Event>
    var closed: bool

    constructor ()
      ensures buffer == [] && !closed
    {
      buffer, closed := [], false;
    }

    /** A send that is dropped when the buffer is full; sending on a closed channel would panic. */
    method TrySend(e: Event)
      requires !closed
      modifies this
      ensures buffer == Queued(old(buffer), e) && !closed
    {
      if |buffer| < CAPACITY {
        buffer := buffer + [e];
      }
    }

    /** Closing a closed channel would panic. What is buffered stays readable. */
    method CloseOnce()
      requires !closed
      modifies this
      ensures closed && buffer == old(buffer)
    {
      closed := true;
    }
  }

  class ChatRun {
    var subscribers: map<int, EventChannel>
    var nextId: int
    var closed: bool
    var cancelled: bool

    ghost predicate Valid()
      reads this, subscribers.Values
    {
      && (closed ==> subscribers == map[] && cancelled)
      && (forall id | id in subscribers :: id <= nextId && !subscribers[id].closed)
      && (forall a, b | a in subscribers && b in subscribers && a != b :: subscribers[a] != subscribers[b])
    }

    constructor ()
      ensures Valid() && subscribers == map[] && !closed
    {
      subscribers, nextId, closed, cancelled := map[], 0, false, false;
    }

    method Subscribe() returns (id: int, channel: EventChannel?)
      requires Valid()
      modifies this
      ensures Valid() && closed == old(closed) && cancelled == old(cancelled)
      ensures (channel == null) == old(closed)
      ensures channel == null ==> subscribers == old(subscribers)
      ensures channel != null ==> fresh(channel) && channel.buffer == [] && !channel.closed
      ensures channel != null ==> id !in old(subscribers) && subscribers == old(subscribers)[id := channel]
    {
      if closed {
        return 0, null;
      }
      nextId := nextId + 1;
      var made := new EventChannel();
      subscribers := subscribers[nextId := made];
      return nextId, made;
    }

    method Unsubscribe(id: int)
      requires Valid()
      modifies this, subscribers.Values
      ensures Valid() && closed == old(closed) && subscribers == old(subscribers) - {id}
      ensures id in old(subscribers) ==> old(subscribers)[id].closed && old(subscribers)[id].buffer == old(subscribers[id].buffer)
      ensures forall other | other in subscribers :: subscribers[other].buffer == old(subscribers[other].buffer)
    {
      if id in subscribers {
        var channel := subscribers[id];
        subscribers := subscribers - {id};
        channel.CloseOnce();
      }
    }

    method Publish(e: Event)
      requires Valid()
      modifies subscribers.Values
      ensures Valid() && subscribers == old(subscribers)
      ensures forall id | id in subscribers :: subscribers[id].buffer == Queued(old(subscribers[id].buffer), e)
    {
      if closed {
        return;
      }
      var left := subscribers.Keys;
      while left != {}
        invariant left <= subscribers.Keys && Valid() && subscribers == old(subscribers)
        invariant forall id | id in left :: subscribers[id].buffer == old(subscribers[id].buffer)
        invariant forall id | id in subscribers && id !in left :: subscribers[id].buffer == Queued(old(subscribers[id].buffer), e)
        decreases left
      {
        var id := PickOne(left);
        subscribers[id].TrySend(e);
        left := left - {id};
      }
    }

    /** Takes every channel out of the map, then closes each of them once. */
    method Close()
      requires Valid()
      modifies this, subscribers.Values
      ensures Valid() && closed && subscribers == map[]
      ensures !old(closed) ==> forall id | id in old(subscribers) ::
        old(subscribers)[id].closed && old(subscribers)[id].buffer == old(subscribers[id].buffer)
    {
      if closed {
        return;
      }
      closed := true;
      ghost var before := subscribers;
      var taken, ids := TakeAll();
      assert forall id | id in before :: !before[id].closed;
      cancelled := true;
      CloseAll(taken);
    }

    method TakeAll() returns (taken: seq<EventChannel>, ghost ids: seq<int>)
      requires forall a, b | a in subscribers && b in subscribers && a != b :: subscribers[a] != subscribers[b]
      modifies this`subscribers
      ensures subscribers == map[]
      ensures forall i, j | 0 <= i < j < |taken| :: taken[i] != taken[j]
      ensures |ids| == |taken| && forall i | 0 <= i < |taken| :: ids[i] in old(subscribers) && taken[i] == old(subscribers)[ids[i]]
      ensures forall id | id in old(subscribers) :: old(subscribers)[id] in taken
    {
      taken, ids := [], [];
      var all := subscribers;
      while subscribers.Keys != {}
        invariant forall id | id in subscribers :: id in all && subscribers[id] == all[id]
        invariant |ids| == |taken| && forall i | 0 <= i < |taken| :: ids[i] in all && taken[i] == all[ids[i]]
        invariant forall i, id | 0 <= i < |taken| && id in subscribers :: subscribers[id] != taken[i]
        invariant forall id | id in all && id !in subscribers :: all[id] in taken
        invariant forall i, j | 0 <= i < j < |taken| :: taken[i] != taken[j]
        decreases subscribers.Keys
      {
        var id := PickOne(subscribers.Keys);
        taken, ids := taken + [subscribers[id]], ids + [id];
        subscribers := subscribers - {id};
      }
    }

    method CloseAll(taken: seq<EventChannel>)
      requires forall i | 0 <= i < |taken| :: !taken[i].closed
      requires forall i, j | 0 <= i < j < |taken| :: taken[i] != taken[j]
      modifies taken
      ensures forall i | 0 <= i < |taken| :: taken[i].closed && taken[i].buffer == old(taken[i].buffer)
    {
      for i := 0 to |taken|
        invariant forall k | 0 <= k < |taken| :: taken[k].closed == (k < i) && taken[k].buffer == old(taken[k].buffer)
      {
        taken[i].CloseOnce();
      }
    }
  }
}
