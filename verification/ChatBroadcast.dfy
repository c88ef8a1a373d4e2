/**
  chatRun of internal/vos/httpapi/chat.go as a state machine. A mutex protects the subscriber
  map; publish holds it while it sends to one subscriber after the other, but unsubscribe and
  close release it before they close the channels they took out. Sends, closes and receives are
  therefore steps of their own, and any number of closers may be on their way.
 */
module ChatBroadcast {

  datatype Event = Event(kind: string, payload: string)

  const CAPACITY := 256

  /** Who is going to close a channel. */
  datatype Owner = Subscriber(id: int) | Closer(index: nat, id: int) | Nobody

  /**
    A channel handed out by subscribe. Only buffer and closed are the channel itself. The rest
    is its history: how many events were published before it was made, which published events
    it accepted and at which positions, how many it dropped, and what its reader took out.
   */
  datatype Channel = Channel(
    buffer: seq<Event>, closed: bool, owner: Owner,
    from: nat, accepted: seq<Event>, positions: seq<nat>, dropped: nat, received: seq<Event>)

  datatype Lock = Free | Publishing(event: Event, left: set<int>)

  /** closers holds, for each unsubscribe or close that released the lock, what it has yet to close. */
  datatype State = State(
    subscribers: map<int, nat>, nextId: int, closed: bool, lock: Lock,
    channels: seq<Channel>, closers: seq<map<int, nat>>, published: seq<Event>, panicked: bool)

  const INITIAL := State(map[], 0, false, Free, [], [], [], false)

  datatype Step =
    | Subscribe
    | StartPublish(event: Event)
    | Send(id: int)
    | EndPublish
    | Unsubscribe(id: int)
    | Close
    | CloseOne(index: nat, id: int)
    | Receive(channel: nat)

  /** A step that needs the mutex waits until it is free. */
  ghost predicate Enabled(s: State, step: Step) {
    match step
    case Subscribe => s.lock.Free?
    case StartPublish(_) => s.lock.Free?
    case Send(id) => s.lock.Publishing? && id in s.lock.left
    case EndPublish => s.lock.Publishing? && s.lock.left == {}
    case Unsubscribe(_) => s.lock.Free?
    case Close => s.lock.Free?
    case CloseOne(index, id) => index < |s.closers| && id in s.closers[index]
    case Receive(channel) => channel < |s.channels| && s.channels[channel].buffer != []
  }

  function NewChannel(id: int, from: nat): Channel {
    Channel([], false, Subscriber(id), from, [], [], 0, [])
  }

  function Queued(buffer: seq<Event>, e: Event): seq<Event> {
    if |buffer| < CAPACITY then buffer + [e] else buffer
  }

  /** select { case subscriber <- event: default: } on an open channel */
  function Offer(c: Channel, e: Event, position: nat): Channel {
    if |c.buffer| < CAPACITY
    then c.(buffer := Queued(c.buffer, e), accepted := c.accepted + [e], positions := c.positions + [position])
    else c.(dropped := c.dropped + 1)
  }

  function Owned(channels: seq<Channel>, c: nat, owner: Owner): seq<Channel> {
    if c < |channels| then channels[c := channels[c].(owner := owner)] else channels
  }

  /** close() hands every channel of the map to one new closer. */
  function HandedOver(channels: seq<Channel>, taken: map<int, nat>, index: nat): seq<Channel> {
    seq(|channels|, c requires 0 <= c < |channels| =>
      var ch := channels[c];
      if ch.owner.Subscriber? && ch.owner.id in taken && taken[ch.owner.id] == c then ch.(owner := Closer(index, ch.owner.id)) else ch)
  }

  /** Sending on or closing a closed channel panics. */
  ghost function Apply(s: State, step: Step): State
    requires Enabled(s, step)
  {
    match step
    case Subscribe =>
      if s.closed then s
      else s.(nextId := s.nextId + 1, subscribers := s.subscribers[s.nextId + 1 := |s.channels|],
              channels := s.channels + [NewChannel(s.nextId + 1, |s.published|)])
    case StartPublish(e) =>
      if s.closed then s else s.(lock := Publishing(e, s.subscribers.Keys), published := s.published + [e])
    case Send(id) => ApplySend(s, id)
    case EndPublish => s.(lock := Free)
    case Unsubscribe(id) =>
      if id !in s.subscribers then s
      else s.(subscribers := s.subscribers - {id}, closers := s.closers + [map[id := s.subscribers[id]]],
              channels := Owned(s.channels, s.subscribers[id], Closer(|s.closers|, id)))
    case Close =>
      if s.closed then s
      else s.(closed := true, subscribers := map[], closers := s.closers + [s.subscribers],
              channels := HandedOver(s.channels, s.subscribers, |s.closers|))
    case CloseOne(index, id) => ApplyCloseOne(s, index, id)
    case Receive(c) =>
      var ch := s.channels[c];
      s.(channels := s.channels[c := ch.(buffer := ch.buffer[1..], received := ch.received + [ch.buffer[0]])])
  }

  ghost function ApplySend(s: State, id: int): State
    requires s.lock.Publishing?
  {
    var rest := s.(lock := Publishing(s.lock.event, s.lock.left - {id}));
    if id !in s.subscribers || s.subscribers[id] >= |s.channels| || |s.published| == 0 then rest
    else
      var c := s.subscribers[id];
      if s.channels[c].closed then rest.(panicked := true)
      else rest.(channels := s.channels[c := Offer(s.channels[c], s.lock.event, |s.published| - 1)])
  }

  ghost function ApplyCloseOne(s: State, index: nat, id: int): State
    requires index < |s.closers| && id in s.closers[index]
  {
    var c := s.closers[index][id];
    var rest := s.(closers := s.closers[index := s.closers[index] - {id}]);
    if c >= |s.channels| then rest
    else if s.channels[c].closed then rest.(panicked := true)
    else rest.(channels := s.channels[c := s.channels[c].(closed := true, owner := Nobody)])
  }

  // Invariants ---------------------------------------------------------------------------

  /** The owner field says where the channel is: in the map, with a closer, or closed. */
  ghost predicate Placed(s: State, c: nat)
    requires c < |s.channels|
  {
    match s.channels[c].owner
    case Subscriber(id) => !s.channels[c].closed && id in s.subscribers && s.subscribers[id] == c
    case Closer(index, id) => !s.channels[c].closed && index < |s.closers| && id in s.closers[index] && s.closers[index][id] == c
    case Nobody => s.channels[c].closed
  }

  ghost predicate MapPlaced(s: State, id: int)
    requires id in s.subscribers
  {
    id <= s.nextId && s.subscribers[id] < |s.channels| && s.channels[s.subscribers[id]].owner == Subscriber(id)
  }

  ghost predicate CloserPlaced(s: State, index: nat, id: int)
    requires index < |s.closers| && id in s.closers[index]
  {
    s.closers[index][id] < |s.channels| && s.channels[s.closers[index][id]].owner == Closer(index, id)
  }

  ghost predicate Ownership(s: State) {
    && (forall c | 0 <= c < |s.channels| :: Placed(s, c))
    && (forall id | id in s.subscribers :: MapPlaced(s, id))
    && (forall index, id | 0 <= index < |s.closers| && id in s.closers[index] :: CloserPlaced(s, index, id))
    && (s.closed ==> s.subscribers == map[])
    && (s.lock.Publishing? ==> s.lock.left <= s.subscribers.Keys && s.published != [] && s.published[|s.published| - 1] == s.lock.event)
  }

  /** Events that have been offered to c: all since it subscribed, except one it is still to get. */
  ghost function Offered(s: State, c: Channel): int {
    |s.published| - c.from - if s.lock.Publishing? && c.owner.Subscriber? && c.owner.id in s.lock.left then 1 else 0
  }

  ghost predicate Increasing(positions: seq<nat>) {
    forall i, j | 0 <= i < j < |positions| :: positions[i] < positions[j]
  }

  ghost predicate StreamOk(s: State, c: Channel) {
    && c.received + c.buffer == c.accepted && |c.buffer| <= CAPACITY
    && |c.positions| == |c.accepted| && Increasing(c.positions)
    && (forall i | 0 <= i < |c.positions| :: c.from <= c.positions[i] < c.from + Offered(s, c) && c.accepted[i] == s.published[c.positions[i]])
    && 0 <= Offered(s, c) <= |s.published| - c.from
    && |c.accepted| + c.dropped <= Offered(s, c)
    && (c.owner.Subscriber? ==> |c.accepted| + c.dropped == Offered(s, c))
  }

  ghost predicate Streams(s: State) {
    forall c | 0 <= c < |s.channels| :: StreamOk(s, s.channels[c])
  }

  ghost predicate Inv(s: State) {
    !s.panicked && Ownership(s) && Streams(s)
  }
}
