/**
  What every interleaving of chatRun keeps: no channel is closed twice or sent to after it was
  closed, every reader sees an in-order part of what was published after it subscribed, and
  once the run is closed and the closers are through, every channel is closed.
 */
module ChatTheorems {
  import opened ChatBroadcast

  lemma SubscribeKeeps(s: State)
    requires Inv(s) && s.lock.Free?
    ensures Inv(Apply(s, Subscribe))
  {
    var s' := Apply(s, Subscribe);
    if !s.closed {
      forall c | 0 <= c < |s'.channels| ensures Placed(s', c) && StreamOk(s', s'.channels[c]) {
        if c < |s.channels| { assert Placed(s, c) && StreamOk(s, s.channels[c]); }
      }
      forall id | id in s'.subscribers ensures MapPlaced(s', id) {
        if id in s.subscribers { assert MapPlaced(s, id); }
      }
      forall index, id | 0 <= index < |s'.closers| && id in s'.closers[index] ensures CloserPlaced(s', index, id) {
        assert CloserPlaced(s, index, id);
      }
    }
  }

  lemma StartKeeps(s: State, e: Event)
    requires Inv(s) && s.lock.Free?
    ensures Inv(Apply(s, StartPublish(e)))
  {
    var s' := Apply(s, StartPublish(e));
    if !s.closed {
      forall c | 0 <= c < |s'.channels| ensures Placed(s', c) && StreamOk(s', s'.channels[c]) {
        assert Placed(s, c) && StreamOk(s, s.channels[c]);
      }
      forall id | id in s'.subscribers ensures MapPlaced(s', id) {
        assert MapPlaced(s, id);
      }
      forall index, id | 0 <= index < |s'.closers| && id in s'.closers[index] ensures CloserPlaced(s', index, id) {
        assert CloserPlaced(s, index, id);
      }
    }
  }

  /** Changing one channel but not its owner or closed flag leaves ownership alone. */
  lemma OwnershipByChannel(s: State, s': State, c: nat)
    requires Ownership(s) && c < |s.channels|
    requires s'.subscribers == s.subscribers && s'.nextId == s.nextId && s'.closed == s.closed && s'.closers == s.closers && s'.published == s.published
    requires |s'.channels| == |s.channels| && forall d | 0 <= d < |s.channels| ::
      s'.channels[d].owner == s.channels[d].owner && s'.channels[d].closed == s.channels[d].closed
    requires s'.lock.Publishing? ==> s.lock.Publishing? && s'.lock.event == s.lock.event && s'.lock.left <= s.lock.left
    ensures Ownership(s')
  {
    forall d | 0 <= d < |s'.channels| ensures Placed(s', d) { assert Placed(s, d); }
    forall id | id in s'.subscribers ensures MapPlaced(s', id) { assert MapPlaced(s, id); }
    forall index, id | 0 <= index < |s'.closers| && id in s'.closers[index] ensures CloserPlaced(s', index, id) {
      assert CloserPlaced(s, index, id);
    }
  }

  /** The channel c as it is offered the event the publisher is sending. */
  ghost predicate BeingOffered(s: State, s': State, c: Channel, id: int) {
    && StreamOk(s, c) && c.owner == Subscriber(id)
    && s.lock.Publishing? && id in s.lock.left && s.published != [] && s.published[|s.published| - 1] == s.lock.event
    && s'.lock == Publishing(s.lock.event, s.lock.left - {id}) && s'.published == s.published
  }

  lemma AcceptKeepsStream(s: State, s': State, c: Channel, id: int)
    requires BeingOffered(s, s', c, id) && |c.buffer| < CAPACITY
    ensures StreamOk(s', Offer(c, s.lock.event, |s.published| - 1))
  {
    var c' := Offer(c, s.lock.event, |s.published| - 1);
    assert c'.received + c'.buffer == (c.received + c.buffer) + [s.lock.event];
    assert Offered(s', c') == Offered(s, c) + 1;
  }

  lemma DropKeepsStream(s: State, s': State, c: Channel, id: int)
    requires BeingOffered(s, s', c, id) && |c.buffer| >= CAPACITY
    ensures StreamOk(s', Offer(c, s.lock.event, |s.published| - 1))
  {
    assert Offered(s', c) == Offered(s, c) + 1;
  }

  lemma OtherStream(s: State, s': State, c: Channel, id: int)
    requires StreamOk(s, c) && c.owner != Subscriber(id) && s.lock.Publishing?
    requires s'.lock == Publishing(s.lock.event, s.lock.left - {id}) && s'.published == s.published
    ensures StreamOk(s', c)
  {
    assert Offered(s', c) == Offered(s, c);
  }

  lemma SendKeeps(s: State, id: int)
    requires Inv(s) && s.lock.Publishing? && id in s.lock.left
    ensures Inv(Apply(s, Send(id)))
  {
    var s' := Apply(s, Send(id));
    assert MapPlaced(s, id);
    var c := s.subscribers[id];
    assert Placed(s, c);
    OwnershipByChannel(s, s', c);
    forall d | 0 <= d < |s'.channels| ensures StreamOk(s', s'.channels[d]) {
      assert StreamOk(s, s.channels[d]) && Placed(s, d);
      if d == c {
        if |s.channels[d].buffer| < CAPACITY {
          AcceptKeepsStream(s, s', s.channels[d], id);
        } else {
          DropKeepsStream(s, s', s.channels[d], id);
        }
      } else {
        OtherStream(s, s', s.channels[d], id);
      }
    }
  }

  lemma EndKeeps(s: State)
    requires Inv(s) && s.lock.Publishing? && s.lock.left == {}
    ensures Inv(Apply(s, EndPublish))
  {
    var s' := Apply(s, EndPublish);
    forall d | 0 <= d < |s'.channels| ensures StreamOk(s', s'.channels[d]) && Placed(s', d) {
      assert StreamOk(s, s.channels[d]) && Placed(s, d);
    }
    forall id | id in s'.subscribers ensures MapPlaced(s', id) { assert MapPlaced(s, id); }
    forall index, id | 0 <= index < |s'.closers| && id in s'.closers[index] ensures CloserPlaced(s', index, id) {
      assert CloserPlaced(s, index, id);
    }
  }

  lemma StreamsByOwner(s: State, s': State)
    requires Streams(s) && s.lock.Free? && s'.lock.Free? && s'.published == s.published
    requires |s'.channels| == |s.channels| && forall d | 0 <= d < |s.channels| ::
      s'.channels[d] == s.channels[d].(owner := s'.channels[d].owner) && (s'.channels[d].owner.Subscriber? ==> s.channels[d].owner.Subscriber?)
    ensures Streams(s')
  {
    forall d | 0 <= d < |s'.channels| ensures StreamOk(s', s'.channels[d]) {
      assert StreamOk(s, s.channels[d]);
    }
  }

  lemma UnsubscribeKeeps(s: State, id: int)
    requires Inv(s) && s.lock.Free?
    ensures Inv(Apply(s, Unsubscribe(id)))
  {
    var s' := Apply(s, Unsubscribe(id));
    if id in s.subscribers {
      assert MapPlaced(s, id);
      forall c | 0 <= c < |s'.channels| ensures Placed(s', c) { assert Placed(s, c); }
      forall x | x in s'.subscribers ensures MapPlaced(s', x) { assert MapPlaced(s, x); }
      forall index, x | 0 <= index < |s'.closers| && x in s'.closers[index] ensures CloserPlaced(s', index, x) {
        if index < |s.closers| { assert CloserPlaced(s, index, x); }
      }
      StreamsByOwner(s, s');
    }
  }

  lemma CloseKeeps(s: State)
    requires Inv(s) && s.lock.Free?
    ensures Inv(Apply(s, Close))
  {
    var s' := Apply(s, Close);
    if !s.closed {
      forall c | 0 <= c < |s'.channels| ensures Placed(s', c) { assert Placed(s, c); }
      forall index, x | 0 <= index < |s'.closers| && x in s'.closers[index] ensures CloserPlaced(s', index, x) {
        if index < |s.closers| { assert CloserPlaced(s, index, x); } else { assert MapPlaced(s, x); }
      }
      StreamsByOwner(s, s');
    }
  }

  lemma CloseOneKeeps(s: State, index: nat, id: int)
    requires Inv(s) && index < |s.closers| && id in s.closers[index]
    ensures Inv(Apply(s, CloseOne(index, id)))
  {
    var s' := Apply(s, CloseOne(index, id));
    assert CloserPlaced(s, index, id);
    var c := s.closers[index][id];
    assert Placed(s, c);
    forall d | 0 <= d < |s'.channels| ensures Placed(s', d) { assert Placed(s, d); }
    forall x | x in s'.subscribers ensures MapPlaced(s', x) { assert MapPlaced(s, x); }
    forall i, x | 0 <= i < |s'.closers| && x in s'.closers[i] ensures CloserPlaced(s', i, x) {
      assert CloserPlaced(s, i, x);
    }
    ClosedStreams(s, s', c);
  }

  lemma ClosedStreams(s: State, s': State, c: nat)
    requires Streams(s) && c < |s.channels| && s.channels[c].owner.Closer? && s'.lock == s.lock && s'.published == s.published
    requires s'.channels == s.channels[c := s.channels[c].(closed := true, owner := Nobody)]
    ensures Streams(s')
  {
    forall d | 0 <= d < |s'.channels| ensures StreamOk(s', s'.channels[d]) {
      SameStream(s, s', s.channels[d], s'.channels[d]);
    }
  }

  /** A stream is not affected by losing its subscriber. */
  lemma SameStream(s: State, s': State, c: Channel, c': Channel)
    requires StreamOk(s, c) && s'.lock == s.lock && s'.published == s.published
    requires c' == c || (c.owner.Closer? && c' == c.(closed := true, owner := Nobody))
    ensures StreamOk(s', c')
  {
    assert Offered(s', c') == Offered(s, c);
  }

  lemma ReceivedStreams(s: State, s': State, c: nat)
    requires Streams(s) && c < |s.channels| && s.channels[c].buffer != [] && s'.lock == s.lock && s'.published == s.published
    requires var ch := s.channels[c];
      s'.channels == s.channels[c := ch.(buffer := ch.buffer[1..], received := ch.received + [ch.buffer[0]])]
    ensures Streams(s')
  {
    var ch := s.channels[c];
    assert ch.received + [ch.buffer[0]] + ch.buffer[1..] == ch.received + ch.buffer;
    forall d | 0 <= d < |s'.channels| ensures StreamOk(s', s'.channels[d]) {
      assert StreamOk(s, s.channels[d]);
    }
  }

  lemma ReceiveKeeps(s: State, c: nat)
    requires Inv(s) && c < |s.channels| && s.channels[c].buffer != []
    ensures Inv(Apply(s, Receive(c)))
  {
    var s' := Apply(s, Receive(c));
    OwnershipByChannel(s, s', c);
    ReceivedStreams(s, s', c);
  }

  lemma StepKeeps(s: State, step: Step)
    requires Inv(s) && Enabled(s, step)
    ensures Inv(Apply(s, step))
  {
    match step
    case Subscribe => SubscribeKeeps(s);
    case StartPublish(e) => StartKeeps(s, e);
    case Send(id) => SendKeeps(s, id);
    case EndPublish => EndKeeps(s);
    case Unsubscribe(id) => UnsubscribeKeeps(s, id);
    case Close => CloseKeeps(s);
    case CloseOne(index, id) => CloseOneKeeps(s, index, id);
    case Receive(c) => ReceiveKeeps(s, c);
  }

  // Runs ---------------------------------------------------------------------------------

  ghost predicate Follows(states: seq<State>, steps: seq<Step>, i: nat)
    requires i < |steps| < |states|
  {
    Enabled(states[i], steps[i]) && states[i + 1] == Apply(states[i], steps[i])
  }

  ghost predicate IsRun(states: seq<State>, steps: seq<Step>) {
    && |states| == |steps| + 1 && states[0] == INITIAL
    && forall i | 0 <= i < |steps| :: Follows(states, steps, i)
  }

  lemma {:induction false} EveryStateKeeps(states: seq<State>, steps: seq<Step>, i: nat)
    requires IsRun(states, steps) && i < |states|
    ensures Inv(states[i])
  {
    if i > 0 {
      EveryStateKeeps(states, steps, i - 1);
      assert Follows(states, steps, i - 1);
      StepKeeps(states[i - 1], steps[i - 1]);
    }
  }

  /** A send or a close finds its channel open. */
  ghost predicate FindsOpen(s: State, step: Step) {
    match step
    case Send(id) => id in s.subscribers && s.subscribers[id] < |s.channels| && !s.channels[s.subscribers[id]].closed
    case CloseOne(index, id) =>
      index < |s.closers| && id in s.closers[index] && s.closers[index][id] < |s.channels| && !s.channels[s.closers[index][id]].closed
    case _ => true
  }

  /** No channel is ever closed twice, and none is sent to after it was closed. */
  lemma NeverPanics(states: seq<State>, steps: seq<Step>, i: nat)
    requires IsRun(states, steps) && i < |steps|
    ensures FindsOpen(states[i], steps[i]) && !states[i + 1].panicked
  {
    EveryStateKeeps(states, steps, i);
    EveryStateKeeps(states, steps, i + 1);
    assert Follows(states, steps, i);
    var s := states[i];
    match steps[i] {
      case Send(id) =>
        assert MapPlaced(s, id);
        assert Placed(s, s.subscribers[id]);
      case CloseOne(index, id) =>
        assert CloserPlaced(s, index, id);
        assert Placed(s, s.closers[index][id]);
      case _ =>
    }
  }

  /** part is whole with some elements left out. */
  ghost predicate Subsequence(part: seq<Event>, whole: seq<Event>) {
    exists positions: seq<nat> ::
      && |positions| == |part| && Increasing(positions)
      && forall i | 0 <= i < |part| :: positions[i] < |whole| && part[i] == whole[positions[i]]
  }

  lemma Shifted(c: Channel, published: seq<Event>)
    requires |c.positions| == |c.accepted| && Increasing(c.positions) && c.from <= |published| && c.received <= c.accepted
    requires forall i | 0 <= i < |c.positions| :: c.from <= c.positions[i] < |published| && c.accepted[i] == published[c.positions[i]]
    ensures Subsequence(c.received, published[c.from..])
  {
    var positions: seq<nat> := seq(|c.received|, i requires 0 <= i < |c.received| => c.positions[i] - c.from);
    forall i | 0 <= i < |c.received| ensures positions[i] < |published[c.from..]| && c.received[i] == published[c.from..][positions[i]] {
      assert c.accepted[i] == published[c.positions[i]];
    }
    assert Increasing(positions);
  }

  /** What a reader took out is an in-order part of what was published since it subscribed. */
  lemma ReadersSeeSubsequence(states: seq<State>, steps: seq<Step>, i: nat, c: nat)
    requires IsRun(states, steps) && i < |states| && c < |states[i].channels|
    ensures var ch := states[i].channels[c];
      ch.from <= |states[i].published| && Subsequence(ch.received, states[i].published[ch.from..])
  {
    EveryStateKeeps(states, steps, i);
    assert StreamOk(states[i], states[i].channels[c]);
    Shifted(states[i].channels[c], states[i].published);
  }

  /** An increasing sequence of n positions below n is 0, 1, ..., n - 1. */
  lemma {:induction false} FullPositions(positions: seq<nat>, from: nat, k: nat)
    requires Increasing(positions) && k < |positions|
    requires forall i | 0 <= i < |positions| :: from <= positions[i] < from + |positions|
    ensures positions[k] == from + k
  {
    AtLeast(positions, from, k);
    AtMost(positions, from + |positions|, k);
  }

  lemma {:induction false} AtLeast(positions: seq<nat>, from: nat, k: nat)
    requires Increasing(positions) && k < |positions| && from <= positions[0]
    ensures positions[k] >= from + k
  {
    if k > 0 { AtLeast(positions, from, k - 1); }
  }

  lemma {:induction false} AtMost(positions: seq<nat>, limit: nat, k: nat)
    requires Increasing(positions) && k < |positions| && positions[|positions| - 1] < limit
    ensures positions[k] <= limit - (|positions| - k)
    decreases |positions| - k
  {
    if k + 1 < |positions| { AtMost(positions, limit, k + 1); }
  }

  /** A subscriber that was never 256 events behind got every event since it subscribed, in order. */
  lemma NothingLostUnlessFull(states: seq<State>, steps: seq<Step>, i: nat, c: nat)
    requires IsRun(states, steps) && i < |states| && c < |states[i].channels| && states[i].lock.Free?
    requires states[i].channels[c].owner.Subscriber?
    ensures var ch := states[i].channels[c];
      && |ch.accepted| + ch.dropped == |states[i].published| - ch.from
      && (ch.dropped == 0 ==> ch.received + ch.buffer == states[i].published[ch.from..])
  {
    EveryStateKeeps(states, steps, i);
    var s, ch := states[i], states[i].channels[c];
    assert StreamOk(s, ch);
    if ch.dropped == 0 {
      forall k | 0 <= k < |ch.accepted| ensures ch.accepted[k] == s.published[ch.from..][k] {
        FullPositions(ch.positions, ch.from, k);
      }
      assert ch.accepted == s.published[ch.from..];
    }
  }

  /** Only a full channel drops. */
  lemma DropsOnlyWhenFull(s: State, step: Step, c: nat)
    requires Inv(s) && Enabled(s, step) && c < |s.channels|
    ensures c < |Apply(s, step).channels|
    ensures Apply(s, step).channels[c].dropped != s.channels[c].dropped ==> step.Send? && |s.channels[c].buffer| == 256
  {
    assert StreamOk(s, s.channels[c]);
  }

  /** Once the run is closed and no closer has anything left, every channel handed out is closed. */
  lemma AllClosedInTheEnd(states: seq<State>, steps: seq<Step>, i: nat, c: nat)
    requires IsRun(states, steps) && i < |states| && c < |states[i].channels|
    requires states[i].closed && forall k | 0 <= k < |states[i].closers| :: states[i].closers[k] == map[]
    ensures states[i].channels[c].closed
  {
    EveryStateKeeps(states, steps, i);
    assert Placed(states[i], c);
  }

  /** Every CloseOne step takes one entry away, so the closers come to an end. */
  ghost function Pending(closers: seq<map<int, nat>>): nat {
    if closers == [] then 0 else |closers[0]| + Pending(closers[1..])
  }

  lemma {:induction false} PendingFalls(closers: seq<map<int, nat>>, index: nat, id: int)
    requires index < |closers| && id in closers[index]
    ensures Pending(closers[index := closers[index] - {id}]) == Pending(closers) - 1
  {
    var after := closers[index := closers[index] - {id}];
    if index == 0 {
      assert after[1..] == closers[1..];
      MapShrinks(closers[0], id);
    } else {
      assert after[1..] == closers[1..][index - 1 := closers[1..][index - 1] - {id}];
      PendingFalls(closers[1..], index - 1, id);
    }
  }

  lemma MapShrinks(m: map<int, nat>, id: int)
    requires id in m
    ensures |m - {id}| == |m| - 1
  {
    assert (m - {id}).Keys == m.Keys - {id};
    assert |m - {id}| == |(m - {id}).Keys| && |m| == |m.Keys|;
  }

  lemma {:induction false} NothingPending(closers: seq<map<int, nat>>, k: nat)
    requires Pending(closers) == 0 && k < |closers|
    ensures closers[k] == map[]
  {
    if k > 0 {
      NothingPending(closers[1..], k - 1);
    }
  }

  /** From any reachable closed state the remaining closes can be done, and then all is closed. */
  lemma {:induction false} ClosersCanFinish(s: State) returns (steps: seq<Step>, states: seq<State>)
    requires Inv(s) && s.closed
    ensures |states| == |steps| + 1 && states[0] == s && |steps| == Pending(s.closers)
    ensures forall i | 0 <= i < |steps| :: steps[i].CloseOne? && Follows(states, steps, i)
    ensures Inv(states[|steps|]) && forall c | 0 <= c < |states[|steps|].channels| :: states[|steps|].channels[c].closed
    decreases Pending(s.closers)
  {
    if Pending(s.closers) == 0 {
      steps, states := [], [s];
      forall c | 0 <= c < |s.channels| ensures s.channels[c].closed {
        forall k | 0 <= k < |s.closers| ensures s.closers[k] == map[] { NothingPending(s.closers, k); }
        assert Placed(s, c);
      }
    } else {
      var index, id := SomePending(s.closers);
      var step := CloseOne(index, id);
      var next := Apply(s, step);
      StepKeeps(s, step);
      PendingFalls(s.closers, index, id);
      var rest, later := ClosersCanFinish(next);
      steps, states := [step] + rest, [s] + later;
      forall i | 0 <= i < |steps| ensures steps[i].CloseOne? && Follows(states, steps, i) {
        if i > 0 {
          assert Follows(later, rest, i - 1);
        }
      }
    }
  }

  lemma SomeMember<T>(s: set<T>) returns (x: T)
    requires |s| > 0
    ensures x in s
  {
    x :| x in s;
  }

  lemma {:induction false} SomePending(closers: seq<map<int, nat>>) returns (index: nat, id: int)
    requires Pending(closers) > 0
    ensures index < |closers| && id in closers[index]
  {
    if |closers[0]| > 0 {
      index := 0;
      id := SomeMember(closers[0].Keys);
    } else {
      index, id := SomePending(closers[1..]);
      index := index + 1;
    }
  }
}
