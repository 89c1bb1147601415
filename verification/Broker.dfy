/**
 The event broker of one daemon: per execution a topic with a bounded replay
 ring and bounded subscriber queues.

 First the topic as a value and its operations as functions; then the history
 of a topic under any sequence of operations, with the invariant that ties
 every subscriber to one contiguous segment of what was published; last the
 classes that update a topic in place, proved against the functions.
 */
module Broker {
  import opened Common
  import opened Messages

  const RING_SIZE := 500
  const SUBSCRIBER_BUFFER := 256

  /** A subscriber's channel. A closed channel is still drained by its reader. */
  datatype Channel = Channel(queue: seq<Message>, open: bool)

  /** chans holds every channel ever handed out, by subscription id. */
  datatype TopicState = TopicState(ring: seq<Message>, chans: seq<Channel>, closed: bool, dropped: nat)

  const EMPTY_TOPIC := TopicState([], [], false, 0)

  /** A subscription: its id unless the topic was closed, and the replayed messages. */
  datatype Subscription = Subscription(id: Option<nat>, backlog: seq<Message>)

  // ---- the operations on a topic -------------------------------------------------

  function LastOf(s: seq<Message>, n: nat): seq<Message> {
    if |s| > n then s[|s| - n..] else s
  }

  predicate Full(c: Channel) {
    c.open && |c.queue| >= SUBSCRIBER_BUFFER
  }

  function Deliver(c: Channel, msg: Message): Channel {
    if !c.open then c
    else if Full(c) then c.(open := false)
    else c.(queue := c.queue + [msg])
  }

  function FullOnes(chans: seq<Channel>): set<nat> {
    set i: nat | i < |chans| && Full(chans[i])
  }

  function Published(t: TopicState, msg: Message): TopicState {
    if t.closed then t
    else TopicState(LastOf(t.ring + [msg], RING_SIZE),
                    seq(|t.chans|, i requires 0 <= i < |t.chans| => Deliver(t.chans[i], msg)),
                    false,
                    t.dropped + |FullOnes(t.chans)|)
  }

  function After(ring: seq<Message>, afterSeq: nat): seq<Message> {
    if ring == [] then []
    else (if ring[0].seqno > afterSeq then [ring[0]] else []) + After(ring[1..], afterSeq)
  }

  /** The replay after a position: exactly the messages of the ring with a greater number, in order. idx are their places. */
  lemma {:induction false} ReplayMeaning(ring: seq<Message>, afterSeq: nat) returns (idx: seq<nat>)
    ensures Picks(ring, After(ring, afterSeq), idx)
    ensures forall i: nat {:trigger i in idx} | i < |ring| :: i in idx <==> ring[i].seqno > afterSeq
  {
    idx := [];
    if ring != [] {
      var n := |ring| - 1;
      var before := ReplayMeaning(ring[..n], afterSeq);
      idx := Placed(before, n, ring[n].seqno > afterSeq);
      PicksMore(ring[..n], After(ring[..n], afterSeq), before, ring[n], ring[n].seqno > afterSeq);
      PlacedHas(before, n, ring[n].seqno > afterSeq);
      AfterLast(ring[..n], ring[n], afterSeq);
      BackTogether(ring);
    }
  }

  lemma {:induction false} AfterLast(ring: seq<Message>, msg: Message, afterSeq: nat)
    ensures After(ring + [msg], afterSeq) == After(ring, afterSeq) + if msg.seqno > afterSeq then [msg] else []
  {
    if ring == [] {
      assert ([] + [msg])[1..] == [];
    } else {
      assert (ring + [msg])[1..] == ring[1..] + [msg];
      AfterLast(ring[1..], msg, afterSeq);
    }
  }

  lemma AfterNext(ring: seq<Message>, k: nat, afterSeq: nat, before: seq<Message>)
    requires k < |ring|
    ensures before + After(ring[k..], afterSeq) == (if ring[k].seqno > afterSeq then before + [ring[k]] else before) + After(ring[k + 1..], afterSeq)
  {
    assert ring[k..][1..] == ring[k + 1..];
  }

  function Subscribed(t: TopicState): TopicState {
    if t.closed then t else t.(chans := t.chans + [Channel([], true)])
  }

  function Cancelled(t: TopicState, id: nat): TopicState {
    if id < |t.chans| then t.(chans := t.chans[id := t.chans[id].(open := false)]) else t
  }

  function Closed(t: TopicState): TopicState {
    t.(closed := true,
       chans := seq(|t.chans|, i requires 0 <= i < |t.chans| => t.chans[i].(open := false)))
  }

  predicate CanReceive(t: TopicState, id: nat) {
    id < |t.chans| && t.chans[id].queue != []
  }

  function Received(t: TopicState, id: nat): TopicState
    requires CanReceive(t, id)
  {
    t.(chans := t.chans[id := t.chans[id].(queue := t.chans[id].queue[1..])])
  }

  // ---- the history of a topic ----------------------------------------------------

  /** Why and when a subscription stopped being fed; at counts published messages. */
  datatype Stop = Fed | Dropped(at: nat, taken: nat) | Left(at: nat) | TopicClosed(at: nat)

  /** What one subscriber saw: where it joined, what it took, how it ended. */
  datatype Log = Log(start: nat, consumed: seq<Message>, stop: Stop)

  /** A topic together with everything published on it and every reader's log. */
  datatype Feed = Feed(topic: TopicState, published: seq<Message>, logs: seq<Log>)

  const NEW_FEED := Feed(EMPTY_TOPIC, [], [])

  datatype Op = Publish(msg: Message) | Subscribe | Receive(id: nat) | Cancel(id: nat) | Close

  function StoppedBy(l: Log, why: Stop): Log {
    if l.stop.Fed? then l.(stop := why) else l
  }

  /** Publishing closes exactly the logs whose queue was full. */
  function Overflown(t: TopicState, i: nat, l: Log, at: nat): Log
    requires i < |t.chans|
  {
    if Full(t.chans[i]) then StoppedBy(l, Dropped(at, |l.consumed|)) else l
  }

  predicate Allowed(f: Feed, op: Op) {
    match op
    case Receive(id) => CanReceive(f.topic, id) && id < |f.logs|
    case Cancel(id) => id < |f.logs|
    case _ => true
  }

  function Next(f: Feed, op: Op): Feed
    requires Allowed(f, op)
  {
    var t, now := f.topic, |f.published|;
    match op
    case Publish(msg) =>
      if t.closed then f
      else Feed(Published(t, msg), f.published + [msg],
                seq(|f.logs|, i requires 0 <= i < |f.logs| =>
                  if i < |t.chans| then Overflown(t, i, f.logs[i], now) else f.logs[i]))
    case Subscribe =>
      if t.closed then f else Feed(Subscribed(t), f.published, f.logs + [Log(now, [], Fed)])
    case Receive(id) =>
      Feed(Received(t, id), f.published,
           f.logs[id := f.logs[id].(consumed := f.logs[id].consumed + [t.chans[id].queue[0]])])
    case Cancel(id) =>
      Feed(Cancelled(t, id), f.published, f.logs[id := StoppedBy(f.logs[id], Left(now))])
    case Close =>
      if t.closed then f
      else Feed(Closed(t), f.published,
                seq(|f.logs|, i requires 0 <= i < |f.logs| => StoppedBy(f.logs[i], TopicClosed(now))))
  }

  /** How many published messages had been offered to a subscriber when its feed stopped. */
  function EndOf(l: Log, now: nat): nat {
    match l.stop
    case Fed => now
    case Dropped(at, _) => at
    case Left(at) => at
    case TopicClosed(at) => at
  }

  /** Consumed plus queued is exactly the published segment from joining to stopping. */
  ghost predicate Contiguous(f: Feed, i: nat)
    requires |f.logs| == |f.topic.chans| && i < |f.logs|
  {
    var l, c := f.logs[i], f.topic.chans[i];
    && l.start <= EndOf(l, |f.published|) <= |f.published|
    && l.consumed + c.queue == f.published[l.start..EndOf(l, |f.published|)]
    && (c.open <==> l.stop.Fed?)
    && |c.queue| <= SUBSCRIBER_BUFFER
    && (l.stop.Dropped? ==> l.start + l.stop.taken + SUBSCRIBER_BUFFER == l.stop.at
                            && l.stop.taken <= |l.consumed|)
  }

  function DroppedLogs(logs: seq<Log>): set<nat> {
    set i: nat | i < |logs| && logs[i].stop.Dropped?
  }

  ghost predicate Faithful(f: Feed) {
    && |f.logs| == |f.topic.chans|
    && (forall i: nat | i < |f.logs| :: Contiguous(f, i))
    && f.topic.ring == LastOf(f.published, RING_SIZE)
    && (f.topic.closed ==> forall i: nat | i < |f.logs| :: !f.logs[i].stop.Fed?)
    && f.topic.dropped == |DroppedLogs(f.logs)|
  }

  lemma PublishContiguous(f: Feed, msg: Message, i: nat)
    requires Faithful(f) && !f.topic.closed && i < |f.logs|
    ensures Contiguous(Next(f, Publish(msg)), i)
  {
    assert Contiguous(f, i);
    var g, l := Next(f, Publish(msg)), f.logs[i];
    assert l.stop.Fed? ==> g.published[l.start..|g.published|] == f.published[l.start..] + [msg];
    assert f.published[l.start..EndOf(l, |f.published|)] == g.published[l.start..EndOf(l, |f.published|)];
  }

  /** Publishing drops exactly the subscribers whose queue is full, each for the first time. */
  lemma PublishDrops(f: Feed, msg: Message)
    requires Faithful(f) && !f.topic.closed
    ensures DroppedLogs(Next(f, Publish(msg)).logs) == DroppedLogs(f.logs) + FullOnes(f.topic.chans)
    ensures DroppedLogs(f.logs) !! FullOnes(f.topic.chans)
  {
    forall i: nat | i < |f.logs| ensures Full(f.topic.chans[i]) ==> f.logs[i].stop.Fed? {
      assert Contiguous(f, i);
    }
  }

  lemma PublishFaithful(f: Feed, msg: Message)
    requires Faithful(f)
    ensures Faithful(Next(f, Publish(msg)))
  {
    var g := Next(f, Publish(msg));
    if !f.topic.closed {
      forall i: nat | i < |g.logs| ensures Contiguous(g, i) {
        PublishContiguous(f, msg, i);
      }
      PublishDrops(f, msg);
    }
  }

  lemma ReceiveFaithful(f: Feed, id: nat)
    requires Faithful(f) && Allowed(f, Receive(id))
    ensures Faithful(Next(f, Receive(id)))
  {
    var g := Next(f, Receive(id));
    forall i: nat | i < |g.logs| ensures Contiguous(g, i) {
      assert Contiguous(f, i);
      if i == id {
        var q := f.topic.chans[i].queue;
        assert f.logs[i].consumed + q == (f.logs[i].consumed + [q[0]]) + q[1..];
      }
    }
    assert DroppedLogs(g.logs) == DroppedLogs(f.logs);
  }

  lemma OtherOpFaithful(f: Feed, op: Op)
    requires Faithful(f) && Allowed(f, op) && (op.Subscribe? || op.Cancel? || op.Close?)
    ensures Faithful(Next(f, op))
  {
    var g := Next(f, op);
    forall i: nat | i < |g.logs| ensures Contiguous(g, i) {
      if i < |f.logs| {
        assert Contiguous(f, i);
      }
    }
    assert DroppedLogs(g.logs) == DroppedLogs(f.logs);
  }

  lemma NextFaithful(f: Feed, op: Op)
    requires Faithful(f) && Allowed(f, op)
    ensures Faithful(Next(f, op))
  {
    match op
    case Publish(msg) => PublishFaithful(f, msg);
    case Receive(id) => ReceiveFaithful(f, id);
    case _ => OtherOpFaithful(f, op);
  }

  /** A run skips operations that cannot happen, such as receiving from an empty queue. */
  function Run(f: Feed, ops: seq<Op>): Feed
    decreases |ops|
  {
    if ops == [] then f
    else Run(if Allowed(f, ops[0]) then Next(f, ops[0]) else f, ops[1..])
  }

  lemma {:induction false} RunKeepsFaithful(f: Feed, ops: seq<Op>)
    requires Faithful(f)
    ensures Faithful(Run(f, ops))
    decreases |ops|
  {
    if ops == [] {
    } else if Allowed(f, ops[0]) {
      NextFaithful(f, ops[0]);
      RunKeepsFaithful(Next(f, ops[0]), ops[1..]);
    } else {
      RunKeepsFaithful(f, ops[1..]);
    }
  }

  /**
   Over any sequence of operations on a topic: what a subscriber took plus what
   is queued for it is the contiguous segment of the published messages from its
   subscription to now, its drop, its leaving or the close; a drop happens only
   when exactly 256 messages were waiting; the ring is the last 500 messages.
   */
  lemma {:induction false} HistoryIsContiguous(ops: seq<Op>, i: nat)
    requires i < |Run(NEW_FEED, ops).logs|
    ensures var f := Run(NEW_FEED, ops); var l := f.logs[i];
            && i < |f.topic.chans|
            && l.start <= EndOf(l, |f.published|) <= |f.published|
            && l.consumed + f.topic.chans[i].queue == f.published[l.start..EndOf(l, |f.published|)]
            && |f.topic.chans[i].queue| <= 256
            && (l.stop.Dropped? ==> l.stop.at - (l.start + l.stop.taken) == 256)
            && f.topic.ring == f.published[if |f.published| > 500 then |f.published| - 500 else 0..]
            && f.topic.dropped == |DroppedLogs(f.logs)|
  {
    assert Faithful(NEW_FEED) by { assert DroppedLogs(NEW_FEED.logs) == {}; }
    RunKeepsFaithful(NEW_FEED, ops);
    assert Contiguous(Run(NEW_FEED, ops), i);
  }

  /** Nothing is published after a close, and closing leaves what was queued to be drained. */
  lemma {:induction false} ClosedIsFinal(f: Feed, ops: seq<Op>)
    requires f.topic.closed
    ensures Run(f, ops).published == f.published && Run(f, ops).topic.ring == f.topic.ring
    ensures |Run(f, ops).logs| == |f.logs| && Run(f, ops).topic.closed
    decreases |ops|
  {
    if ops == [] {
    } else {
      ClosedIsFinal(if Allowed(f, ops[0]) then Next(f, ops[0]) else f, ops[1..]);
    }
  }

  // ---- the topic and the broker, updated in place ----------------------------------

  /**
   One execution's topic. subs holds the channels still fed; a channel that was
   dropped, cancelled or closed moves to gone, where its reader drains it.
   */
  class Topic {
    var ring: seq<Message>
    var subs: map<nat, Channel>
    var gone: map<nat, Channel>
    var nextID: nat
    var closed: bool
    var dropped: nat

    ghost predicate Valid()
      reads this
    {
      && subs.Keys !! gone.Keys
      && (forall i: nat :: i < nextID <==> i in subs || i in gone)
      && (forall i | i in subs :: subs[i].open)
      && (forall i | i in gone :: !gone[i].open)
      && (closed ==> subs == map[])
    }

    ghost function ChannelOf(id: nat): Channel
      requires Valid() && id < nextID
      reads this
    {
      if id in subs then subs[id] else gone[id]
    }

    ghost function View(): TopicState
      requires Valid()
      reads this
    {
      TopicState(ring, seq(nextID, i requires 0 <= i < nextID && Valid() reads this => ChannelOf(i)), closed, dropped)
    }

    constructor ()
      ensures Valid() && View() == EMPTY_TOPIC
    {
      ring, subs, gone, nextID, closed, dropped := [], map[], map[], 0, false, 0;
    }

    /** Queues msg for one subscriber, or drops a subscriber that is not draining. */
    method Offer(id: nat, msg: Message)
      requires Valid() && id in subs
      modifies `subs, `gone, `dropped
      ensures Valid() && ChannelOf(id) == Deliver(old(ChannelOf(id)), msg)
      ensures forall i: nat | i < nextID && i != id :: ChannelOf(i) == old(ChannelOf(i)) && (i in subs <==> i in old(subs))
      ensures dropped == old(dropped) + if Full(old(ChannelOf(id))) then 1 else 0
    {
      var ch := subs[id];
      if |ch.queue| < SUBSCRIBER_BUFFER {
        subs := subs[id := ch.(queue := ch.queue + [msg])];
      } else {
        dropped := dropped + 1;
        gone := gone[id := ch.(open := false)];
        subs := subs - {id};
      }
    }

    /** Offers msg to every subscriber there is, in no particular order. */
    method FanOut(msg: Message)
      requires Valid() && !closed
      modifies `subs, `gone, `dropped
      ensures Valid()
      ensures forall i: nat | i < nextID :: ChannelOf(i) == Deliver(old(ChannelOf(i)), msg)
      ensures dropped == old(dropped) + |FullOnes(old(View()).chans)|
    {
      ghost var was := View();
      ghost var hit: set<nat> := {};
      var todo := subs.Keys;
      while todo != {}
        invariant Valid() && todo <= subs.Keys
        invariant forall i: nat | i < nextID :: ChannelOf(i) == if i in todo then was.chans[i] else Deliver(was.chans[i], msg)
        invariant forall i: nat :: i in hit <==> i < nextID && i !in todo && Full(was.chans[i])
        invariant dropped == was.dropped + |hit|
        decreases todo
      {
        var id :| id in todo;
        Offer(id, msg);
        todo := todo - {id};
        if Full(was.chans[id]) {
          hit := hit + {id};
        }
      }
      assert hit == FullOnes(was.chans);
    }

    method Publish(msg: Message)
      requires Valid()
      modifies this
      ensures Valid() && View() == Published(old(View()), msg)
    {
      if closed {
        return;
      }
      ring := ring + [msg];
      if |ring| > RING_SIZE {
        ring := ring[|ring| - RING_SIZE..];
      }
      assert View().chans == old(View()).chans;
      FanOut(msg);
      assert View().chans == Published(old(View()), msg).chans;
    }

    method Replay(afterSeq: nat) returns (backlog: seq<Message>)
      ensures backlog == After(ring, afterSeq)
    {
      backlog := [];
      for k := 0 to |ring|
        invariant backlog + After(ring[k..], afterSeq) == After(ring, afterSeq)
      {
        AfterNext(ring, k, afterSeq, backlog);
        if ring[k].seqno > afterSeq {
          backlog := backlog + [ring[k]];
        }
      }
    }

    method Subscribe(afterSeq: nat) returns (s: Subscription)
      requires Valid()
      modifies this
      ensures Valid() && View() == Subscribed(old(View()))
      ensures s.backlog == After(old(ring), afterSeq)
      ensures s.id == if old(closed) then None else Some(old(nextID))
    {
      var backlog := Replay(afterSeq);
      if closed {
        return Subscription(None, backlog);
      }
      s := Subscription(Some(nextID), backlog);
      subs := subs[nextID := Channel([], true)];
      nextID := nextID + 1;
      assert View().chans == Subscribed(old(View())).chans;
    }

    /** The cancel function a subscription carries; a second call does nothing. */
    method Cancel(id: nat)
      requires Valid() && id < nextID
      modifies this
      ensures Valid() && View() == Cancelled(old(View()), id)
    {
      if id in subs {
        gone := gone[id := subs[id].(open := false)];
        subs := subs - {id};
      }
    }

    method Close()
      requires Valid()
      modifies this
      ensures Valid() && (old(closed) ==> View() == old(View())) && (!old(closed) ==> View() == Closed(old(View())))
    {
      if closed {
        return;
      }
      closed := true;
      ghost var was := old(View());
      var todo := subs.Keys;
      while todo != {}
        invariant subs.Keys == todo && subs.Keys !! gone.Keys && nextID == old(nextID) && closed
        invariant forall i: nat :: i < nextID <==> i in subs || i in gone
        invariant forall i | i in subs :: i < nextID && subs[i] == was.chans[i] && subs[i].open
        invariant forall i | i in gone :: i < nextID && gone[i] == was.chans[i].(open := false)
        invariant ring == was.ring && dropped == was.dropped
        decreases todo
      {
        var id :| id in todo;
        gone := gone[id := subs[id].(open := false)];
        subs := subs - {id};
        todo := todo - {id};
      }
    }

    /** A reader takes the head of its queue; None once the channel is closed and drained. */
    method Receive(id: nat) returns (m: Option<Message>)
      requires Valid() && id < nextID
      requires CanReceive(View(), id) || !View().chans[id].open
      modifies this
      ensures Valid()
      ensures m == if CanReceive(old(View()), id) then Some(old(View()).chans[id].queue[0]) else None
      ensures View() == if m.Some? then Received(old(View()), id) else old(View())
    {
      var ch := if id in subs then subs[id] else gone[id];
      assert ch == View().chans[id];
      if ch.queue == [] {
        return None;
      }
      m := Some(ch.queue[0]);
      if id in subs {
        subs := subs[id := ch.(queue := ch.queue[1..])];
      } else {
        gone := gone[id := ch.(queue := ch.queue[1..])];
      }
    }
  }

  class Broker {
    var topics: map<int, Topic>

    ghost predicate Valid()
      reads this, topics.Values
    {
      && (forall k | k in topics :: topics[k].Valid())
      && (forall j, k | j in topics && k in topics && j != k :: topics[j] != topics[k])
    }

    /** What the broker says about an execution: an absent topic is an empty one. */
    ghost function View(executionID: int): TopicState
      requires Valid()
      reads this, topics.Values
    {
      if executionID in topics then topics[executionID].View() else EMPTY_TOPIC
    }

    constructor ()
      ensures Valid() && topics == map[]
    {
      topics := map[];
    }

    method TopicFor(executionID: int) returns (t: Topic)
      requires Valid()
      modifies this
      ensures Valid() && executionID in topics && topics[executionID] == t
      ensures forall k :: View(k) == old(View(k))
      ensures forall k | k != executionID :: k in topics <==> k in old(topics)
      ensures fresh(t) || (topics == old(topics) && t in old(topics.Values))
      ensures topics.Values <= old(topics.Values) + {t}
    {
      if executionID in topics {
        t := topics[executionID];
      } else {
        t := new Topic();
        topics := topics[executionID := t];
      }
    }

    method Publish(executionID: int, msg: Message)
      requires Valid()
      modifies this, topics.Values
      ensures Valid()
      ensures View(executionID) == Published(old(View(executionID)), msg)
      ensures forall k | k != executionID :: View(k) == old(View(k))
    {
      var t := TopicFor(executionID);
      t.Publish(msg);
    }

    method Subscribe(executionID: int, afterSeq: nat) returns (s: Subscription, finished: bool)
      requires Valid()
      modifies this, topics.Values
      ensures Valid() && finished == old(View(executionID)).closed
      ensures View(executionID) == Subscribed(old(View(executionID)))
      ensures s.backlog == After(old(View(executionID)).ring, afterSeq)
      ensures s.id == if finished then None else Some(|old(View(executionID)).chans|)
      ensures forall k | k != executionID :: View(k) == old(View(k))
    {
      var t := TopicFor(executionID);
      label joined:
      finished := t.closed;
      assert t.View() == old(View(executionID));
      s := t.Subscribe(afterSeq);
    }

    method Close(executionID: int)
      requires Valid()
      modifies this, topics.Values
      ensures Valid() && View(executionID).closed
      ensures !old(View(executionID)).closed ==> View(executionID) == Closed(old(View(executionID)))
      ensures old(View(executionID)).closed ==> View(executionID) == old(View(executionID))
      ensures forall k | k != executionID :: View(k) == old(View(k))
    {
      var t := TopicFor(executionID);
      t.Close();
    }

    /** Forgetting a topic closes it for its readers and makes the execution look new. */
    method Forget(executionID: int)
      requires Valid()
      modifies this, topics.Values
      ensures Valid() && executionID !in topics && View(executionID) == EMPTY_TOPIC
      ensures forall k | k != executionID :: View(k) == old(View(k))
    {
      Close(executionID);
      topics := topics - {executionID};
    }
  }
}
