/**
 Transcript streaming as one step machine: the run that persists and publishes
 events, the topic that fans them out and drops slow readers, any number of
 stream handlers that subscribe, backfill from the table and go live, and any
 number of followers that read, lose their connection and reconnect.
 */
module Streaming {
  import opened Common
  import opened Messages
  import Broker
  import EventTable
  import Follow

  const PAGE := 500

  /** What the execution row says. */
  datatype RowStatus = Unfinished(running: bool) | Finished(outcome: string)

  /** Where the run is between two of its own steps. */
  datatype Phase = Queued | Marked | Consuming | Decoded | Persisted | Recorded | Announced | Over

  datatype Stage = Opened | Backfilling | Live | Ended

  /** One stream response: the row as read at its start, its position and what it wrote; gone when its request was. */
  datatype Conn = Conn(after: nat, last: nat, read: RowStatus, finished: bool, stage: Stage,
                       sub: Option<nat>, wire: seq<Message>, gone: bool)

  /** One follower: what it shows, its connection and how many frames of it were read. */
  datatype Viewer = Viewer(show: Follow.Follower, conn: Option<nat>, taken: nat)

  datatype State = State(events: seq<Event>, rows: EventTable.Rows, status: RowStatus, phase: Phase,
                         feed: Broker.Feed, conns: map<nat, Conn>, viewers: map<nat, Viewer>)

  const INITIAL := State([], map[], Unfinished(false), Queued, Broker.NEW_FEED, map[], map[])

  // ---- the steps ---------------------------------------------------------------------------

  datatype Action =
    | MarkStarted(recorded: bool)          // the status write may fail once the run is cancelled
    | PublishRunning
    | Decode(e: Event)
    | Append
    | PublishEvent
    | Record(outcome: string)              // FinishExecution, after the last event
    | Abandon(outcome: string)             // FinishExecution of a run that never started
    | PublishTerminal
    | CloseTopic
    | Open(k: nat, after: nat)             // a request that names its own resume point
    | Connect(v: nat, k: nat)              // a follower's request, resuming after what it saw
    | Join(k: nat)
    | Page(k: nat, page: seq<EventTable.Stored>)
    | Deliver(k: nat)
    | Leave(k: nat)                        // the request is cancelled or a keep-alive fails
    | Arrive(v: nat)
    | Take(v: nat)
    | Lose(v: nat)

  function TopicOp(s: State, op: Broker.Op): State
    requires Broker.Allowed(s.feed, op)
  {
    s.(feed := Broker.Next(s.feed, op))
  }

  function Fresh(s: State, after: nat): Conn {
    Conn(after, after, s.status, false, Opened, None, [], false)
  }

  /** Ends a response; its deferred Close leaves the topic. */
  function End(s: State, k: nat, c: Conn): State {
    var t := s.(conns := s.conns[k := c.(stage := Ended)]);
    if c.sub.Some? && Broker.Allowed(t.feed, Broker.Cancel(c.sub.value))
    then TopicOp(t, Broker.Cancel(c.sub.value)) else t
  }

  function PageFrames(page: seq<EventTable.Stored>): seq<Message> {
    seq(|page|, i requires 0 <= i < |page| => EventFrame(page[i].seqno, page[i].event))
  }

  function StatusText(r: RowStatus): string {
    match r
    case Unfinished(running) => if running then "running" else "pending"
    case Finished(outcome) => outcome
  }

  /** The live loop passes over events that were already sent. */
  predicate Repeats(c: Conn, msg: Message) {
    msg.seqno != 0 && msg.seqno <= c.last
  }

  function Forward(c: Conn, msg: Message): Conn {
    if Repeats(c, msg) then c
    else c.(last := if msg.seqno > c.last then msg.seqno else c.last, wire := c.wire + [msg])
  }

  function Published(s: State, msg: Message, phase: Phase): State {
    TopicOp(s, Broker.Publish(msg)).(phase := phase)
  }

  function AppendRow(s: State): State {
    var n := |s.events|;
    s.(rows := if n == 0 then s.rows else EventTable.Appended(s.rows, n, s.events[n - 1]), phase := Persisted)
  }

  function LastFrame(s: State): Message {
    if s.events == [] then StatusFrame("", false) else EventFrame(|s.events|, s.events[|s.events| - 1])
  }

  function SetConn(s: State, k: nat, c: Conn): State {
    s.(conns := s.conns[k := c])
  }

  function JoinTopic(s: State, k: nat, c: Conn): State {
    var closed := s.feed.topic.closed;
    SetConn(TopicOp(s, Broker.Subscribe), k,
            c.(stage := Backfilling, finished := c.read.Finished? || closed,
               sub := if closed then None else Some(|s.feed.topic.chans|)))
  }

  function SendPage(s: State, k: nat, c: Conn, page: seq<EventTable.Stored>): State {
    if page != [] then
      SetConn(s, k, c.(last := page[|page| - 1].seqno, wire := c.wire + PageFrames(page)))
    else if c.finished then
      End(s, k, c.(wire := c.wire + [StatusFrame(StatusText(c.read), true)]))
    else SetConn(s, k, c.(stage := Live))
  }

  predicate CanDeliver(s: State, c: Conn) {
    c.stage.Live? && c.sub.Some? &&
    (Broker.Allowed(s.feed, Broker.Receive(c.sub.value)) ||
     (c.sub.value < |s.feed.topic.chans| && !s.feed.topic.chans[c.sub.value].open))
  }

  function DeliverOne(s: State, k: nat, c: Conn): State
    requires CanDeliver(s, c)
  {
    var id := c.sub.value;
    if Broker.Allowed(s.feed, Broker.Receive(id)) then
      var msg := s.feed.topic.chans[id].queue[0];
      var t := TopicOp(s, Broker.Receive(id));
      if msg.terminal && !Repeats(c, msg) then End(t, k, Forward(c, msg)) else SetConn(t, k, Forward(c, msg))
    else End(s, k, c)
  }

  function SetViewer(s: State, v: nat, w: Viewer): State {
    s.(viewers := s.viewers[v := w])
  }

  predicate CanTake(s: State, w: Viewer) {
    !w.show.done && w.conn.Some? && w.conn.value in s.conns && w.taken < |s.conns[w.conn.value].wire|
  }

  function TakeOne(s: State, w: Viewer): Viewer
    requires CanTake(s, w)
  {
    w.(show := Follow.Render(w.show, s.conns[w.conn.value].wire[w.taken]), taken := w.taken + 1)
  }

  ghost predicate Enabled(s: State, a: Action) {
    match a
    case MarkStarted(_) => s.phase.Queued?
    case PublishRunning => s.phase.Marked?
    case Decode(_) => s.phase.Consuming?
    case Append => s.phase.Decoded?
    case PublishEvent => s.phase.Persisted?
    case Record(_) => s.phase.Consuming?
    case Abandon(_) => s.phase.Queued?
    case PublishTerminal => s.phase.Recorded?
    case CloseTopic => s.phase.Announced?
    case Open(k, _) => k !in s.conns
    case Connect(v, k) => k !in s.conns && v in s.viewers && s.viewers[v].conn.None? && !s.viewers[v].show.done
    case Join(k) => k in s.conns && s.conns[k].stage.Opened?
    case Page(k, page) =>
      k in s.conns && s.conns[k].stage.Backfilling? && EventTable.IsPage(s.rows, s.conns[k].last, PAGE, page)
    case Deliver(k) => k in s.conns && CanDeliver(s, s.conns[k])
    case Leave(k) => k in s.conns && s.conns[k].stage.Live?
    case Arrive(v) => v !in s.viewers
    case Take(v) => v in s.viewers && CanTake(s, s.viewers[v])
    case Lose(v) => v in s.viewers && s.viewers[v].conn.Some?
  }

  ghost function Step(s: State, a: Action): State
    requires Enabled(s, a)
  {
    match a
    case MarkStarted(recorded) =>
      s.(phase := Marked, status := if recorded then Unfinished(true) else s.status)
    case PublishRunning => Published(s, StatusFrame("running", false), Consuming)
    case Decode(e) => s.(events := s.events + [e], phase := Decoded)
    case Append => AppendRow(s)
    case PublishEvent => Published(s, LastFrame(s), Consuming)
    case Record(outcome) => s.(status := Finished(outcome), phase := Recorded)
    case Abandon(outcome) => s.(status := Finished(outcome), phase := Recorded)
    case PublishTerminal => Published(s, StatusFrame(StatusText(s.status), true), Announced)
    case CloseTopic => TopicOp(s, Broker.Close).(phase := Over)
    case Open(k, after) => SetConn(s, k, Fresh(s, after))
    case Connect(v, k) =>
      SetViewer(SetConn(s, k, Fresh(s, s.viewers[v].show.lastSeq)), v, s.viewers[v].(conn := Some(k), taken := 0))
    case Join(k) => JoinTopic(s, k, s.conns[k])
    case Page(k, page) => SendPage(s, k, s.conns[k], page)
    case Deliver(k) => DeliverOne(s, k, s.conns[k])
    case Leave(k) => End(s, k, s.conns[k].(gone := true))
    case Arrive(v) => SetViewer(s, v, Viewer(Follow.NEW_FOLLOWER, None, 0))
    case Take(v) => SetViewer(s, v, TakeOne(s, s.viewers[v]))
    case Lose(v) => SetViewer(s, v, s.viewers[v].(conn := None, taken := 0))
  }

  /** A run: any actions in any order, each taking place only where it can. */
  ghost function Run(s: State, actions: seq<Action>): State
    decreases |actions|
  {
    if actions == [] then s
    else Run(if Enabled(s, actions[0]) then Step(s, actions[0]) else s, actions[1..])
  }

  // ---- sequenced messages --------------------------------------------------------------------

  /** The messages that carry a sequence number, in order. */
  function Sequenced(h: seq<Message>): seq<Message> {
    if h == [] then []
    else Sequenced(h[..|h| - 1]) + if h[|h| - 1].seqno != 0 then [h[|h| - 1]] else []
  }

  function Count(h: seq<Message>): nat {
    |Sequenced(h)|
  }

  lemma SequencedPush(h: seq<Message>, msg: Message)
    ensures Sequenced(h + [msg]) == Sequenced(h) + if msg.seqno != 0 then [msg] else []
  {
    assert (h + [msg])[..|h|] == h;
  }

  lemma {:induction false} SequencedAppend(h: seq<Message>, more: seq<Message>)
    ensures Sequenced(h + more) == Sequenced(h) + Sequenced(more)
    decreases |more|
  {
    if more == [] {
      assert h + more == h;
    } else {
      var n := |more| - 1;
      assert h + more == (h + more[..n]) + [more[n]];
      SequencedPush(h + more[..n], more[n]);
      SequencedAppend(h, more[..n]);
    }
  }

  lemma {:induction false} AllSequenced(h: seq<Message>)
    requires forall i | 0 <= i < |h| :: h[i].seqno != 0
    ensures Sequenced(h) == h
  {
    if h != [] {
      AllSequenced(h[..|h| - 1]);
    }
  }

  lemma SequencedPrefix(h: seq<Message>, i: nat)
    requires i <= |h|
    ensures Sequenced(h[..i]) <= Sequenced(h)
  {
    TakeDrop(h, i);
    SequencedAppend(h[..i], h[i..]);
  }

  lemma TakeDrop<T>(s: seq<T>, i: nat)
    requires i <= |s|
    ensures s[..i] + s[i..] == s
  {
  }

  /** The next message's place among the sequenced ones is the count before it. */
  lemma SequencedAt(h: seq<Message>, i: nat)
    requires i < |h|
    ensures Count(h[..i + 1]) == Count(h[..i]) + if h[i].seqno != 0 then 1 else 0
    ensures Count(h[..i + 1]) <= Count(h)
    ensures h[i].seqno != 0 ==> Sequenced(h)[Count(h[..i])] == h[i]
  {
    TakeNext(h, i);
    SequencedLast(h[..i], h[..i + 1], h[i]);
    SequencedPrefix(h, i + 1);
  }

  lemma TakeNext<T>(s: seq<T>, i: nat)
    requires i < |s|
    ensures s[..i + 1] == s[..i] + [s[i]]
  {
  }

  lemma SequencedLast(p: seq<Message>, q: seq<Message>, msg: Message)
    requires q == p + [msg]
    ensures Count(q) == Count(p) + if msg.seqno != 0 then 1 else 0
    ensures msg.seqno != 0 ==> Sequenced(q)[Count(p)] == msg
  {
    SequencedPush(p, msg);
  }

  /** The frames of events a+1 to b. */
  function Frames(events: seq<Event>, a: nat, b: nat): seq<Message> {
    if a <= b <= |events| then seq(b - a, i requires 0 <= i < b - a => EventFrame(a + i + 1, events[a + i])) else []
  }

  lemma FramesPush(events: seq<Event>, more: seq<Event>, a: nat, b: nat)
    requires events <= more
    ensures b <= |events| ==> Frames(events, a, b) == Frames(more, a, b)
    ensures a <= b < |more| ==> Frames(more, a, b + 1) == Frames(more, a, b) + [EventFrame(b + 1, more[b])]
  {
  }

  lemma FramesAt(events: seq<Event>, a: nat, b: nat, i: nat)
    requires i < |Frames(events, a, b)|
    ensures a + i < b <= |events| && Frames(events, a, b)[i] == EventFrame(a + i + 1, events[a + i])
  {
  }

  // ---- the invariant ---------------------------------------------------------------------------

  /** How many events are in the table, and how many were published. */
  function StoredCount(s: State): nat {
    if s.phase.Decoded? && |s.events| > 0 then |s.events| - 1 else |s.events|
  }

  function PublishedCount(s: State): nat {
    if (s.phase.Decoded? || s.phase.Persisted?) && |s.events| > 0 then |s.events| - 1 else |s.events|
  }

  predicate Announcing(s: State) {
    s.phase.Announced? || s.phase.Over?
  }

  /** What was published: the first n events in order, status frames, and at most a final terminal one. */
  ghost predicate History(h: seq<Message>, events: seq<Event>, n: nat, announced: bool) {
    && Sequenced(h) == Frames(events, 0, n)
    && (forall i | 0 <= i < |h| :: h[i].seqno == 0 ==> h[i].kind == STATUS)
    && (forall i | 0 <= i < |h| :: h[i].terminal <==> announced && i == |h| - 1)
    && (announced ==> |h| > 0)
  }

  ghost predicate Producer(s: State) {
    && Broker.Faithful(s.feed)
    && ((s.phase.Decoded? || s.phase.Persisted?) ==> |s.events| > 0)
    && EventTable.HoldsFirst(s.rows, s.events, StoredCount(s))
    && History(s.feed.published, s.events, PublishedCount(s), Announcing(s))
    && (s.status.Finished? <==> s.phase.Recorded? || Announcing(s))
    && (s.feed.topic.closed <==> s.phase.Over?)
  }

  lemma HistoryStatus(h: seq<Message>, events: seq<Event>, n: nat, msg: Message)
    requires History(h, events, n, false) && msg.seqno == 0 && msg.kind == STATUS
    ensures History(h + [msg], events, n, msg.terminal)
  {
    SequencedPush(h, msg);
  }

  lemma HistoryEvent(h: seq<Message>, events: seq<Event>, n: nat)
    requires History(h, events, n, false) && n < |events|
    ensures History(h + [EventFrame(n + 1, events[n])], events, n + 1, false)
  {
    SequencedPush(h, EventFrame(n + 1, events[n]));
    FramesPush(events, events, 0, n);
  }

  /** How far a subscription has read the published messages. */
  function Position(f: Broker.Feed, id: nat): nat
    requires id < |f.logs|
  {
    f.logs[id].start + |f.logs[id].consumed|
  }

  /** Events a subscription can no longer deliver because they were published before its position. */
  function Passed(f: Broker.Feed, id: nat): nat
    requires id < |f.logs|
  {
    if Position(f, id) <= |f.published| then Count(f.published[..Position(f, id)]) else 0
  }

  /** Only status frames go without a number. */
  ghost predicate Unnumbered(wire: seq<Message>) {
    forall i | 0 <= i < |wire| :: wire[i].seqno == 0 ==> wire[i].kind == STATUS
  }

  /** A terminal frame is the last, and there is none before the response may end. */
  ghost predicate EndsOnce(wire: seq<Message>, mayEnd: bool) {
    forall i | 0 <= i < |wire| :: wire[i].terminal ==> mayEnd && i == |wire| - 1
  }

  lemma AppendPlain(wire: seq<Message>, frames: seq<Message>)
    requires Unnumbered(wire) && EndsOnce(wire, false)
    requires forall i | 0 <= i < |frames| :: frames[i].seqno != 0 && !frames[i].terminal
    ensures Unnumbered(wire + frames) && EndsOnce(wire + frames, false)
  {
    var all := wire + frames;
    forall i | 0 <= i < |all| ensures (all[i].seqno == 0 ==> all[i].kind == STATUS) && !all[i].terminal {
      assert all[i] == if i < |wire| then wire[i] else frames[i - |wire|];
    }
  }

  lemma PushFrame(wire: seq<Message>, msg: Message, mayEnd: bool)
    requires Unnumbered(wire) && EndsOnce(wire, false)
    requires (msg.seqno == 0 ==> msg.kind == STATUS) && (msg.terminal ==> mayEnd)
    ensures Unnumbered(wire + [msg]) && EndsOnce(wire + [msg], mayEnd)
  {
  }

  /** What a response has written: events after+1 to last, status frames, a terminal frame at most last. */
  ghost predicate Sent(events: seq<Event>, stored: nat, over: bool, c: Conn) {
    && c.after <= c.last
    && (c.last > c.after ==> c.last <= stored <= |events|)
    && Sequenced(c.wire) == Frames(events, c.after, c.last)
    && Unnumbered(c.wire)
    && EndsOnce(c.wire, c.stage.Ended? && over && c.last >= |events|)
  }

  /** Where a response stands: nothing it still has to send can have passed it by. */
  ghost predicate Seated(s: State, c: Conn) {
    && (c.read.Finished? ==> s.status.Finished?)
    && (c.finished ==> s.status.Finished?)
    && (c.sub.Some? ==> c.sub.value < |s.feed.logs|)
    && (c.stage.Opened? ==> c.sub.None? && !c.finished)
    && (c.stage.Backfilling? ==> c.finished || c.sub.Some?)
    && (c.stage.Backfilling? && c.sub.Some? ==> Passed(s.feed, c.sub.value) <= StoredCount(s))
    && (c.stage.Live? ==> c.sub.Some? && Passed(s.feed, c.sub.value) <= c.last)
  }

  ghost predicate Handler(s: State, c: Conn) {
    Sent(s.events, StoredCount(s), s.status.Finished?, c) && Seated(s, c)
  }

  /** Events read on the current connection plus those before it. */
  function Covered(c: Conn, taken: nat): nat
    requires taken <= |c.wire|
  {
    c.after + Count(c.wire[..taken])
  }

  ghost predicate Watching(s: State, w: Viewer) {
    && (w.conn.None? ==> Follow.ShowsFirst(w.show, s.events, w.show.lastSeq))
    && (w.conn.Some? ==>
          && w.conn.value in s.conns
          && w.taken <= |s.conns[w.conn.value].wire|
          && Follow.ShowsFirst(w.show, s.events, Covered(s.conns[w.conn.value], w.taken)))
    && (w.show.done ==> s.status.Finished? && Follow.ShowsFirst(w.show, s.events, |s.events|))
  }

  ghost predicate Apart(s: State) {
    forall j, k | j in s.conns && k in s.conns && j != k ::
      s.conns[j].sub.Some? && s.conns[k].sub.Some? ==> s.conns[j].sub.value != s.conns[k].sub.value
  }

  ghost predicate Inv(s: State) {
    && Producer(s)
    && Apart(s)
    && (forall k | k in s.conns :: Handler(s, s.conns[k]))
    && (forall v | v in s.viewers :: Watching(s, s.viewers[v]))
  }

  // ---- every step keeps it -----------------------------------------------------------------------

  /** What a step may do to the parts a handler or a follower relies on. */
  ghost predicate Grows(s: State, t: State) {
    && s.events <= t.events
    && StoredCount(s) <= StoredCount(t)
    && (s.status.Finished? ==> t.status.Finished? && t.events == s.events)
    && s.feed.published <= t.feed.published
    && |s.feed.logs| <= |t.feed.logs|
  }

  ghost predicate SamePlace(s: State, t: State, c: Conn) {
    c.sub.Some? && c.sub.value < |s.feed.logs| && c.sub.value < |t.feed.logs| && !c.stage.Ended? ==>
      Position(s.feed, c.sub.value) == Position(t.feed, c.sub.value)
  }

  lemma PassedStable(f: Broker.Feed, g: Broker.Feed, id: nat)
    requires id < |f.logs| && id < |g.logs| && Position(f, id) == Position(g, id)
    requires f.published <= g.published && Broker.Faithful(f)
    ensures Passed(f, id) == Passed(g, id)
  {
    assert Broker.Contiguous(f, id);
    assert Position(f, id) <= |f.published|;
    assert f.published[..Position(f, id)] == g.published[..Position(f, id)];
  }

  lemma SentStable(s: State, t: State, c: Conn)
    requires Sent(s.events, StoredCount(s), s.status.Finished?, c) && Grows(s, t)
    ensures Sent(t.events, StoredCount(t), t.status.Finished?, c)
  {
    FramesPush(s.events, t.events, c.after, c.last);
    if c.last == c.after {
      assert Frames(s.events, c.after, c.last) == [] == Frames(t.events, c.after, c.last);
    }
  }

  lemma HandlerStable(s: State, t: State, c: Conn)
    requires Handler(s, c) && Grows(s, t) && SamePlace(s, t, c) && Broker.Faithful(s.feed)
    ensures Handler(t, c)
  {
    SentStable(s, t, c);
    if c.sub.Some? && !c.stage.Ended? {
      PassedStable(s.feed, t.feed, c.sub.value);
    }
  }

  lemma WatchingStable(s: State, t: State, w: Viewer)
    requires Watching(s, w) && Grows(s, t)
    requires w.conn.Some? ==> w.conn.value in t.conns && t.conns[w.conn.value].after == s.conns[w.conn.value].after
                              && s.conns[w.conn.value].wire <= t.conns[w.conn.value].wire
    ensures Watching(t, w)
  {
    forall n: nat | Follow.ShowsFirst(w.show, s.events, n) ensures Follow.ShowsFirst(w.show, t.events, n) {
      Follow.RenderedPrefix(s.events, t.events, n);
    }
    if w.conn.Some? {
      var c, d := s.conns[w.conn.value], t.conns[w.conn.value];
      assert c.wire[..w.taken] == d.wire[..w.taken];
    }
  }

  ghost predicate SamePlaces(f: Broker.Feed, g: Broker.Feed) {
    |f.logs| <= |g.logs| && forall id: nat | id < |f.logs| :: Position(f, id) == Position(g, id)
  }

  lemma OthersStable(s: State, t: State)
    requires Inv(s) && Producer(t) && Grows(s, t) && SamePlaces(s.feed, t.feed)
    requires t.conns == s.conns && t.viewers == s.viewers
    ensures Inv(t)
  {
    forall k | k in t.conns ensures Handler(t, t.conns[k]) {
      HandlerStable(s, t, s.conns[k]);
    }
    forall v | v in t.viewers ensures Watching(t, t.viewers[v]) {
      WatchingStable(s, t, s.viewers[v]);
    }
  }

  /** Publishing extends the history and moves no reader. */
  lemma PublishGrows(f: Broker.Feed, msg: Message)
    requires Broker.Faithful(f) && !f.topic.closed
    ensures var g := Broker.Next(f, Broker.Publish(msg));
            && Broker.Faithful(g) && !g.topic.closed && g.published == f.published + [msg]
            && SamePlaces(f, g) && |g.logs| == |f.logs|
  {
    Broker.NextFaithful(f, Broker.Publish(msg));
  }

  ghost predicate PublishesNext(s: State, msg: Message, phase: Phase) {
    || (s.phase.Marked? && phase.Consuming? && msg == StatusFrame("running", false))
    || (s.phase.Persisted? && phase.Consuming? && msg == LastFrame(s))
    || (s.phase.Recorded? && phase.Announced? && msg.seqno == 0 && msg.kind == STATUS && msg.terminal)
  }

  lemma PublishStatus(s: State, msg: Message, phase: Phase)
    requires Producer(s) && msg.seqno == 0 && msg.kind == STATUS
    requires if msg.terminal then s.phase.Recorded? && phase.Announced? else s.phase.Marked? && phase.Consuming?
    ensures Producer(Published(s, msg, phase))
  {
    PublishGrows(s.feed, msg);
    HistoryStatus(s.feed.published, s.events, PublishedCount(s), msg);
  }

  lemma PublishLast(s: State)
    requires Producer(s) && s.phase.Persisted?
    ensures Producer(Published(s, LastFrame(s), Consuming))
  {
    PublishGrows(s.feed, LastFrame(s));
    HistoryEvent(s.feed.published, s.events, |s.events| - 1);
  }

  lemma PublishKeeps(s: State, msg: Message, phase: Phase)
    requires Inv(s) && PublishesNext(s, msg, phase)
    ensures Inv(Published(s, msg, phase))
  {
    if msg.seqno == 0 {
      PublishStatus(s, msg, phase);
    } else {
      PublishLast(s);
    }
    PublishGrows(s.feed, msg);
    OthersStable(s, Published(s, msg, phase));
  }

  lemma DecodeKeeps(s: State, e: Event)
    requires Inv(s) && s.phase.Consuming?
    ensures Inv(s.(events := s.events + [e], phase := Decoded))
  {
    var t := s.(events := s.events + [e], phase := Decoded);
    FramesPush(s.events, t.events, 0, |s.events|);
    OthersStable(s, t);
  }

  lemma AppendKeeps(s: State)
    requires Inv(s) && s.phase.Decoded?
    ensures Inv(AppendRow(s))
  {
    AppendProducer(s);
    OthersStable(s, AppendRow(s));
  }

  lemma AppendProducer(s: State)
    requires Producer(s) && s.phase.Decoded?
    ensures Producer(AppendRow(s))
  {
    var n := |s.events|;
    EventTable.AppendExtends(s.rows, s.events, n - 1, n, s.events[n - 1]);
  }

  lemma CloseKeeps(s: State)
    requires Inv(s) && s.phase.Announced?
    ensures Inv(TopicOp(s, Broker.Close).(phase := Over))
  {
    Broker.NextFaithful(s.feed, Broker.Close);
    OthersStable(s, TopicOp(s, Broker.Close).(phase := Over));
  }

  lemma StatusKeeps(s: State, status: RowStatus, phase: Phase)
    requires Inv(s) && (s.phase.Queued? || (s.phase.Consuming? && status.Finished?))
    requires if status.Finished? then phase.Recorded? else phase.Marked?
    ensures Inv(s.(status := status, phase := phase))
  {
    OthersStable(s, s.(status := status, phase := phase));
  }

  // One handler moves: everyone else is untouched, its wire only grows.

  lemma OneMoves(s: State, t: State, k: nat)
    requires Inv(s) && Producer(t) && Grows(s, t) && Apart(t)
    requires k in t.conns && t.conns == s.conns[k := t.conns[k]] && t.viewers == s.viewers
    requires Handler(t, t.conns[k])
    requires k in s.conns ==> s.conns[k].after == t.conns[k].after && s.conns[k].wire <= t.conns[k].wire
    requires forall j | j in s.conns && j != k :: SamePlace(s, t, s.conns[j])
    ensures Inv(t)
  {
    forall j | j in t.conns && j != k ensures Handler(t, t.conns[j]) {
      HandlerStable(s, t, s.conns[j]);
    }
    forall v | v in t.viewers ensures Watching(t, t.viewers[v]) {
      WatchingStable(s, t, s.viewers[v]);
    }
  }

  /** A handler that moves without touching the topic or its subscription. */
  lemma HandlerMoves(s: State, k: nat, c: Conn)
    requires Inv(s) && Handler(s, c)
    requires k in s.conns ==> s.conns[k].after == c.after && s.conns[k].wire <= c.wire && s.conns[k].sub == c.sub
    requires k !in s.conns ==> c.sub.None?
    ensures Inv(SetConn(s, k, c))
  {
    OneMoves(s, SetConn(s, k, c), k);
  }

  lemma OpenKeeps(s: State, k: nat, after: nat)
    requires Inv(s) && k !in s.conns
    ensures Inv(SetConn(s, k, Fresh(s, after)))
  {
    HandlerMoves(s, k, Fresh(s, after));
  }

  /** A subscription starts after everything published so far. */
  lemma SubscribeGrows(f: Broker.Feed)
    requires Broker.Faithful(f)
    ensures var g := Broker.Next(f, Broker.Subscribe);
            && Broker.Faithful(g) && g.published == f.published && g.topic.closed == f.topic.closed
            && SamePlaces(f, g)
            && (!f.topic.closed ==> |g.logs| == |f.logs| + 1 && |f.logs| == |f.topic.chans|
                                    && Passed(g, |f.logs|) == Count(f.published))
  {
    Broker.NextFaithful(f, Broker.Subscribe);
    assert f.published[..|f.published|] == f.published;
  }

  lemma JoinHandler(s: State, k: nat)
    requires Producer(s) && k in s.conns && s.conns[k].stage.Opened? && Handler(s, s.conns[k])
    ensures var t := JoinTopic(s, k, s.conns[k]); Producer(t) && Handler(t, t.conns[k])
  {
    SubscribeGrows(s.feed);
  }

  lemma JoinApart(s: State, k: nat)
    requires Inv(s) && k in s.conns && s.conns[k].stage.Opened?
    ensures Apart(JoinTopic(s, k, s.conns[k]))
  {
    SubscribeGrows(s.feed);
    forall j | j in s.conns && j != k && s.conns[j].sub.Some? ensures s.conns[j].sub.value < |s.feed.logs| {
      assert Handler(s, s.conns[j]);
    }
  }

  lemma JoinKeeps(s: State, k: nat)
    requires Inv(s) && k in s.conns && s.conns[k].stage.Opened?
    ensures Inv(JoinTopic(s, k, s.conns[k]))
  {
    assert Handler(s, s.conns[k]);
    SubscribeGrows(s.feed);
    JoinHandler(s, k);
    JoinApart(s, k);
    OneMoves(s, JoinTopic(s, k, s.conns[k]), k);
  }

  /** Leaving a topic moves no reader. */
  lemma CancelGrows(f: Broker.Feed, id: nat)
    requires Broker.Faithful(f) && id < |f.logs|
    ensures var g := Broker.Next(f, Broker.Cancel(id));
            && Broker.Faithful(g) && g.published == f.published && g.topic.closed == f.topic.closed
            && SamePlaces(f, g) && |g.logs| == |f.logs|
  {
    Broker.NextFaithful(f, Broker.Cancel(id));
  }

  lemma CancelKeeps(s: State, id: nat)
    requires Inv(s) && id < |s.feed.logs|
    ensures Inv(TopicOp(s, Broker.Cancel(id)))
  {
    CancelGrows(s.feed, id);
    OthersStable(s, TopicOp(s, Broker.Cancel(id)));
  }

  /** Ending is moving to the last stage and then leaving the topic. */
  lemma EndKeeps(s: State, k: nat, c: Conn)
    requires Inv(SetConn(s, k, c.(stage := Ended)))
    ensures Inv(End(s, k, c))
  {
    var u := SetConn(s, k, c.(stage := Ended));
    if c.sub.Some? && c.sub.value < |u.feed.logs| {
      CancelKeeps(u, c.sub.value);
    }
  }

  lemma FullPageKeeps(s: State, k: nat, page: seq<EventTable.Stored>)
    requires Inv(s) && k in s.conns && s.conns[k].stage.Backfilling? && page != []
    requires EventTable.IsPage(s.rows, s.conns[k].last, PAGE, page)
    ensures Inv(SendPage(s, k, s.conns[k], page))
  {
    var c := s.conns[k];
    assert Handler(s, c);
    EventTable.PageOfNumbered(s.rows, s.events, StoredCount(s), c.last, PAGE, page);
    PageHandler(s, c, page);
    HandlerMoves(s, k, c.(last := page[|page| - 1].seqno, wire := c.wire + PageFrames(page)));
  }

  lemma LastPageKeeps(s: State, k: nat)
    requires Inv(s) && k in s.conns && s.conns[k].stage.Backfilling? && s.conns[k].last >= StoredCount(s)
    ensures Inv(SendPage(s, k, s.conns[k], []))
  {
    var c := s.conns[k];
    assert Handler(s, c);
    if c.finished {
      CompleteHandler(s, c);
      var d := c.(wire := c.wire + [StatusFrame(StatusText(c.read), true)]);
      HandlerMoves(s, k, d.(stage := Ended));
      EndKeeps(s, k, d);
    } else {
      LiveHandler(s, c);
      HandlerMoves(s, k, c.(stage := Live));
    }
  }

  lemma PageKeeps(s: State, k: nat, page: seq<EventTable.Stored>)
    requires Inv(s) && k in s.conns && s.conns[k].stage.Backfilling?
    requires EventTable.IsPage(s.rows, s.conns[k].last, PAGE, page)
    ensures Inv(SendPage(s, k, s.conns[k], page))
  {
    if page != [] {
      FullPageKeeps(s, k, page);
    } else {
      EventTable.PageOfNumbered(s.rows, s.events, StoredCount(s), s.conns[k].last, PAGE, page);
      LastPageKeeps(s, k);
    }
  }

  /** Once an empty page is read, a finished execution has nothing left to send. */
  lemma CompleteHandler(s: State, c: Conn)
    requires Producer(s) && Handler(s, c) && c.stage.Backfilling? && c.finished && c.last >= StoredCount(s)
    ensures Handler(s, c.(wire := c.wire + [StatusFrame(StatusText(c.read), true)], stage := Ended))
  {
    SentStatus(s.events, StoredCount(s), s.status.Finished?, c, StatusFrame(StatusText(c.read), true));
  }

  /** Once an empty page is read, whatever is newer will still arrive on the subscription. */
  lemma LiveHandler(s: State, c: Conn)
    requires Producer(s) && Handler(s, c) && c.stage.Backfilling? && !c.finished && c.last >= StoredCount(s)
    ensures Handler(s, c.(stage := Live))
  {
  }

  lemma PageHandler(s: State, c: Conn, page: seq<EventTable.Stored>)
    requires Producer(s) && Handler(s, c) && c.stage.Backfilling? && page != []
    requires c.last + |page| <= StoredCount(s)
    requires forall i | 0 <= i < |page| :: page[i] == EventTable.Stored(c.last + i + 1, s.events[c.last + i])
    ensures Handler(s, c.(last := page[|page| - 1].seqno, wire := c.wire + PageFrames(page)))
  {
    SentPage(s.events, StoredCount(s), s.status.Finished?, c, page);
  }

  lemma SentPage(events: seq<Event>, stored: nat, over: bool, c: Conn, page: seq<EventTable.Stored>)
    requires Sent(events, stored, over, c) && !c.stage.Ended? && page != [] && c.last + |page| <= stored <= |events|
    requires forall i | 0 <= i < |page| :: page[i] == EventTable.Stored(c.last + i + 1, events[c.last + i])
    ensures Sent(events, stored, over, c.(last := page[|page| - 1].seqno, wire := c.wire + PageFrames(page)))
  {
    FramesPage(events, c.after, c.last, page);
    SentFrames(events, stored, over, c, PageFrames(page));
  }

  lemma SentFrames(events: seq<Event>, stored: nat, over: bool, c: Conn, frames: seq<Message>)
    requires Sent(events, stored, over, c) && !c.stage.Ended? && c.last + |frames| <= stored <= |events|
    requires forall i | 0 <= i < |frames| :: frames[i].seqno != 0 && !frames[i].terminal
    requires Frames(events, c.after, c.last + |frames|) == Frames(events, c.after, c.last) + frames
    ensures Sent(events, stored, over, c.(last := c.last + |frames|, wire := c.wire + frames))
  {
    SequencedMore(c.wire, frames);
    AppendPlain(c.wire, frames);
  }

  lemma SequencedMore(wire: seq<Message>, frames: seq<Message>)
    requires forall i | 0 <= i < |frames| :: frames[i].seqno != 0
    ensures Sequenced(wire + frames) == Sequenced(wire) + frames
  {
    AllSequenced(frames);
    SequencedAppend(wire, frames);
  }

  lemma FramesPage(events: seq<Event>, a: nat, b: nat, page: seq<EventTable.Stored>)
    requires a <= b && b + |page| <= |events|
    requires forall i | 0 <= i < |page| :: page[i] == EventTable.Stored(b + i + 1, events[b + i])
    ensures Frames(events, a, b + |page|) == Frames(events, a, b) + PageFrames(page)
  {
  }

  lemma SentEvent(events: seq<Event>, stored: nat, over: bool, c: Conn)
    requires Sent(events, stored, over, c) && !c.stage.Ended? && c.last < stored <= |events|
    ensures var msg := EventFrame(c.last + 1, events[c.last]);
            Sent(events, stored, over, c.(last := c.last + 1, wire := c.wire + [msg]))
  {
    SequencedPush(c.wire, EventFrame(c.last + 1, events[c.last]));
    PushFrame(c.wire, EventFrame(c.last + 1, events[c.last]), false);
    FramesPush(events, events, c.after, c.last);
  }

  lemma SentStatus(events: seq<Event>, stored: nat, over: bool, c: Conn, msg: Message)
    requires Sent(events, stored, over, c) && !c.stage.Ended? && msg.seqno == 0 && msg.kind == STATUS
    requires msg.terminal ==> over && c.last >= |events|
    ensures Sent(events, stored, over, c.(wire := c.wire + [msg], stage := if msg.terminal then Ended else c.stage))
  {
    SequencedPush(c.wire, msg);
    PushFrame(c.wire, msg, msg.terminal);
  }

  /** The message at the head of a queue is the published one at the reader's position. */
  lemma HeadOfQueue(f: Broker.Feed, id: nat)
    requires Broker.Faithful(f) && Broker.Allowed(f, Broker.Receive(id))
    ensures var p := Position(f, id); var msg := f.topic.chans[id].queue[0];
            && p < |f.published| && msg == f.published[p]
            && Passed(f, id) == Count(f.published[..p])
            && (msg.seqno != 0 ==> Passed(f, id) < Count(f.published) && Sequenced(f.published)[Passed(f, id)] == msg)
            && (p == |f.published| - 1 ==> Passed(f, id) + (if msg.seqno != 0 then 1 else 0) == Count(f.published))
  {
    assert Broker.Contiguous(f, id);
    var l, q := f.logs[id], f.topic.chans[id].queue;
    var segment := f.published[l.start..Broker.EndOf(l, |f.published|)];
    assert (l.consumed + q)[|l.consumed|] == q[0];
    assert segment[|l.consumed|] == f.published[l.start + |l.consumed|];
    SequencedAt(f.published, Position(f, id));
    if Position(f, id) == |f.published| - 1 {
      assert f.published[..|f.published|] == f.published;
    }
  }

  lemma ReceiveGrows(f: Broker.Feed, id: nat)
    requires Broker.Faithful(f) && Broker.Allowed(f, Broker.Receive(id))
    ensures var g := Broker.Next(f, Broker.Receive(id)); var msg := f.topic.chans[id].queue[0];
            && Broker.Faithful(g) && g.published == f.published && g.topic.closed == f.topic.closed
            && |g.logs| == |f.logs| && id < |f.logs|
            && (forall j: nat | j < |f.logs| && j != id :: Position(f, j) == Position(g, j))
            && Passed(g, id) == Passed(f, id) + if msg.seqno != 0 then 1 else 0
  {
    Broker.NextFaithful(f, Broker.Receive(id));
    HeadOfQueue(f, id);
    SequencedAt(f.published, Position(f, id));
  }

  /** What arrives on a live subscription: a status frame, or the event after those passed. */
  lemma Arrives(s: State, id: nat)
    requires Producer(s) && Broker.Allowed(s.feed, Broker.Receive(id))
    ensures var msg := s.feed.topic.chans[id].queue[0]; var n := Passed(s.feed, id);
            && (msg.seqno == 0 ==> msg.kind == STATUS)
            && (msg.seqno != 0 ==> n < StoredCount(s) && msg == EventFrame(n + 1, s.events[n]))
            && (msg.terminal ==> msg.seqno == 0 && s.status.Finished? && n == |s.events|)
  {
    HeadOfQueue(s.feed, id);
    var msg, n := s.feed.topic.chans[id].queue[0], Passed(s.feed, id);
    if msg.seqno != 0 {
      FramesAt(s.events, 0, PublishedCount(s), n);
    }
  }

  lemma ReceiveProducer(s: State, id: nat)
    requires Producer(s) && Broker.Allowed(s.feed, Broker.Receive(id))
    ensures Producer(TopicOp(s, Broker.Receive(id)))
  {
    ReceiveGrows(s.feed, id);
  }

  /** A forwarded message moves the position; a terminal one ends the response. */
  function Forwarded(c: Conn, msg: Message): Conn {
    Forward(c, msg).(stage := if msg.terminal && !Repeats(c, msg) then Ended else Live)
  }

  lemma ForwardedIs(c: Conn, msg: Message)
    requires c.stage.Live?
    ensures msg.seqno == 0 ==>
              Forwarded(c, msg) == c.(wire := c.wire + [msg], stage := if msg.terminal then Ended else c.stage)
    ensures msg.seqno == c.last + 1 && !msg.terminal ==> Forwarded(c, msg) == c.(last := c.last + 1, wire := c.wire + [msg])
    ensures 0 < msg.seqno <= c.last ==> Forwarded(c, msg) == c
  {
  }

  lemma ForwardSent(events: seq<Event>, stored: nat, over: bool, c: Conn, msg: Message, n: nat)
    requires Sent(events, stored, over, c) && c.stage.Live? && n <= c.last && stored <= |events|
    requires msg.seqno == 0 ==> msg.kind == STATUS
    requires msg.seqno != 0 ==> n < stored && msg == EventFrame(n + 1, events[n])
    requires msg.terminal ==> msg.seqno == 0 && over && n == |events|
    ensures Sent(events, stored, over, Forwarded(c, msg))
  {
    ForwardedIs(c, msg);
    if msg.seqno == 0 {
      SentStatus(events, stored, over, c, msg);
    } else if msg.seqno > c.last {
      SentEvent(events, stored, over, c);
    }
  }

  lemma ForwardSeated(s: State, t: State, c: Conn, msg: Message, n: nat)
    requires Seated(s, c) && c.stage.Live? && n <= c.last
    requires t == s.(feed := t.feed) && c.sub.value < |t.feed.logs|
    requires Passed(t.feed, c.sub.value) == n + if msg.seqno != 0 then 1 else 0
    requires msg.seqno != 0 ==> msg.seqno == n + 1
    ensures Seated(t, Forwarded(c, msg))
  {
  }

  /** The sequence filter forwards exactly the events past the last one sent, in order. */
  lemma ForwardHandler(s: State, t: State, c: Conn, msg: Message, n: nat)
    requires Handler(s, c) && c.stage.Live? && n <= c.last && StoredCount(s) <= |s.events|
    requires t == s.(feed := t.feed) && c.sub.value < |t.feed.logs|
    requires Passed(t.feed, c.sub.value) == n + if msg.seqno != 0 then 1 else 0
    requires msg.seqno == 0 ==> msg.kind == STATUS
    requires msg.seqno != 0 ==> n < StoredCount(s) && msg == EventFrame(n + 1, s.events[n])
    requires msg.terminal ==> msg.seqno == 0 && s.status.Finished? && n == |s.events|
    ensures Handler(t, Forwarded(c, msg))
  {
    ForwardSent(s.events, StoredCount(s), s.status.Finished?, c, msg, n);
    ForwardSeated(s, t, c, msg, n);
  }

  lemma ReceivedMoves(s: State, t: State, k: nat, d: Conn)
    requires Inv(s) && k in s.conns && s.conns[k].sub.Some? && Handler(t, d) && Producer(t)
    requires t == s.(feed := t.feed) && t.feed.published == s.feed.published && |t.feed.logs| == |s.feed.logs|
    requires forall j: nat | j < |s.feed.logs| && j != s.conns[k].sub.value :: Position(s.feed, j) == Position(t.feed, j)
    requires d.after == s.conns[k].after && s.conns[k].wire <= d.wire && d.sub == s.conns[k].sub
    ensures Inv(SetConn(t, k, d))
  {
    OneMoves(s, SetConn(t, k, d), k);
  }

  lemma ReceivedHandler(s: State, c: Conn)
    requires Producer(s) && Handler(s, c) && c.stage.Live? && Broker.Allowed(s.feed, Broker.Receive(c.sub.value))
    ensures var t := TopicOp(s, Broker.Receive(c.sub.value));
            && Producer(t) && Handler(t, Forwarded(c, s.feed.topic.chans[c.sub.value].queue[0]))
  {
    var id := c.sub.value;
    Arrives(s, id);
    ReceiveGrows(s.feed, id);
    ReceiveProducer(s, id);
    ForwardHandler(s, TopicOp(s, Broker.Receive(id)), c, s.feed.topic.chans[id].queue[0], Passed(s.feed, id));
  }

  lemma ReceivedKeeps(s: State, k: nat)
    requires Inv(s) && k in s.conns && CanDeliver(s, s.conns[k])
    requires Broker.Allowed(s.feed, Broker.Receive(s.conns[k].sub.value))
    ensures var c := s.conns[k]; var msg := s.feed.topic.chans[c.sub.value].queue[0];
            Inv(SetConn(TopicOp(s, Broker.Receive(c.sub.value)), k, Forwarded(c, msg)))
  {
    var c := s.conns[k];
    assert Handler(s, c);
    ReceiveGrows(s.feed, c.sub.value);
    ReceivedHandler(s, c);
    ReceivedMoves(s, TopicOp(s, Broker.Receive(c.sub.value)), k, Forwarded(c, s.feed.topic.chans[c.sub.value].queue[0]));
  }

  lemma DeliverKeeps(s: State, k: nat)
    requires Inv(s) && k in s.conns && CanDeliver(s, s.conns[k])
    ensures Inv(DeliverOne(s, k, s.conns[k]))
  {
    var c := s.conns[k];
    var id := c.sub.value;
    if Broker.Allowed(s.feed, Broker.Receive(id)) {
      var msg := s.feed.topic.chans[id].queue[0];
      ReceivedKeeps(s, k);
      if msg.terminal && !Repeats(c, msg) {
        EndKeeps(TopicOp(s, Broker.Receive(id)), k, Forward(c, msg));
      } else {
        assert Forward(c, msg).(stage := Live) == Forward(c, msg);
      }
    } else {
      assert Handler(s, c);
      HandlerMoves(s, k, c.(stage := Ended));
      EndKeeps(s, k, c);
    }
  }

  // One follower moves.

  lemma ViewerMoves(s: State, v: nat, w: Viewer)
    requires Inv(s) && Watching(s, w)
    ensures Inv(SetViewer(s, v, w))
  {
    var t := SetViewer(s, v, w);
    forall k | k in t.conns ensures Handler(t, t.conns[k]) {
      HandlerStable(s, t, s.conns[k]);
    }
    forall u | u in t.viewers ensures Watching(t, t.viewers[u]) {
      if u != v {
        assert Watching(s, s.viewers[u]);
      }
    }
  }

  lemma ArriveKeeps(s: State, v: nat)
    requires Inv(s)
    ensures Inv(SetViewer(s, v, Viewer(Follow.NEW_FOLLOWER, None, 0)))
  {
    ViewerMoves(s, v, Viewer(Follow.NEW_FOLLOWER, None, 0));
  }

  lemma ConnectKeeps(s: State, v: nat, k: nat)
    requires Inv(s) && k !in s.conns && v in s.viewers && s.viewers[v].conn.None? && !s.viewers[v].show.done
    ensures Inv(SetViewer(SetConn(s, k, Fresh(s, s.viewers[v].show.lastSeq)), v, s.viewers[v].(conn := Some(k), taken := 0)))
  {
    var w := s.viewers[v];
    OpenKeeps(s, k, w.show.lastSeq);
    ConnectWatches(s, w, k);
    ViewerMoves(SetConn(s, k, Fresh(s, w.show.lastSeq)), v, w.(conn := Some(k), taken := 0));
  }

  lemma ConnectWatches(s: State, w: Viewer, k: nat)
    requires Watching(s, w) && w.conn.None? && !w.show.done
    ensures Watching(SetConn(s, k, Fresh(s, w.show.lastSeq)), w.(conn := Some(k), taken := 0))
  {
    assert SetConn(s, k, Fresh(s, w.show.lastSeq)).conns[k].wire[..0] == [];
  }

  lemma LoseKeeps(s: State, v: nat)
    requires Inv(s) && v in s.viewers
    ensures Inv(SetViewer(s, v, s.viewers[v].(conn := None, taken := 0)))
  {
    var w := s.viewers[v];
    assert Watching(s, w);
    if w.conn.Some? {
      Follow.RenderedStable(s.events, w.show.lastSeq, Covered(s.conns[w.conn.value], w.taken));
    }
    ViewerMoves(s, v, w.(conn := None, taken := 0));
  }

  /** The next frame on a connection never runs ahead, and a terminal one comes after everything. */
  lemma NextFrame(s: State, c: Conn, taken: nat)
    requires Producer(s) && Handler(s, c) && taken < |c.wire|
    ensures Follow.InStep(c.wire[taken], s.events, Covered(c, taken))
    ensures Covered(c, taken + 1) == Follow.Reached(c.wire[taken], Covered(c, taken))
    ensures c.wire[taken].terminal && Covered(c, taken) <= |s.events| ==> s.status.Finished? && Covered(c, taken) == |s.events|
  {
    SequencedAt(c.wire, taken);
    var msg, n := c.wire[taken], Covered(c, taken);
    if msg.seqno != 0 {
      FramesAt(s.events, c.after, c.last, n - c.after);
    }
    if msg.terminal {
      assert taken == |c.wire| - 1;
      assert c.wire[..taken + 1] == c.wire;
    }
  }

  lemma TakeKeeps(s: State, v: nat)
    requires Inv(s) && v in s.viewers && CanTake(s, s.viewers[v])
    ensures Inv(SetViewer(s, v, TakeOne(s, s.viewers[v])))
  {
    var w := s.viewers[v];
    var c := s.conns[w.conn.value];
    assert Watching(s, w) && Handler(s, c);
    NextFrame(s, c, w.taken);
    Follow.RenderInStep(w.show, s.events, Covered(c, w.taken), c.wire[w.taken]);
    ViewerMoves(s, v, TakeOne(s, w));
  }

  // ---- over whole runs ---------------------------------------------------------------------------

  lemma StepKeeps(s: State, a: Action)
    requires Inv(s) && Enabled(s, a)
    ensures Inv(Step(s, a))
  {
    match a
    case MarkStarted(recorded) => StatusKeeps(s, if recorded then Unfinished(true) else s.status, Marked);
    case PublishRunning => PublishKeeps(s, StatusFrame("running", false), Consuming);
    case Decode(e) => DecodeKeeps(s, e);
    case Append => AppendKeeps(s);
    case PublishEvent => PublishKeeps(s, LastFrame(s), Consuming);
    case Record(outcome) => StatusKeeps(s, Finished(outcome), Recorded);
    case Abandon(outcome) => StatusKeeps(s, Finished(outcome), Recorded);
    case PublishTerminal => PublishKeeps(s, StatusFrame(StatusText(s.status), true), Announced);
    case CloseTopic => CloseKeeps(s);
    case Open(k, after) => OpenKeeps(s, k, after);
    case Connect(v, k) => ConnectKeeps(s, v, k);
    case Join(k) => JoinKeeps(s, k);
    case Page(k, page) => PageKeeps(s, k, page);
    case Deliver(k) => DeliverKeeps(s, k);
    case Leave(k) => LeaveKeeps(s, k);
    case Arrive(v) => ArriveKeeps(s, v);
    case Take(v) => TakeKeeps(s, v);
    case Lose(v) => LoseKeeps(s, v);
  }

  lemma LeaveKeeps(s: State, k: nat)
    requires Inv(s) && k in s.conns && s.conns[k].stage.Live?
    ensures Inv(End(s, k, s.conns[k].(gone := true)))
  {
    assert Handler(s, s.conns[k]);
    HandlerMoves(s, k, s.conns[k].(stage := Ended, gone := true));
    EndKeeps(s, k, s.conns[k].(gone := true));
  }

  lemma InitialHolds()
    ensures Inv(INITIAL)
  {
    assert Broker.DroppedLogs([]) == {};
  }

  lemma {:induction false} RunKeeps(s: State, actions: seq<Action>)
    requires Inv(s)
    ensures Inv(Run(s, actions))
    decreases |actions|
  {
    if actions != [] {
      if Enabled(s, actions[0]) {
        StepKeeps(s, actions[0]);
        RunKeeps(Step(s, actions[0]), actions[1..]);
      } else {
        RunKeeps(s, actions[1..]);
      }
    }
  }

  /**
   No reader loses, repeats or reorders an event: whatever the interleaving of
   the run, the topic's drops, the handlers, lost connections and reconnects, a
   follower has rendered exactly the renderable ones of the first lastSeq events.
   */
  lemma ExactlyOnceInOrder(actions: seq<Action>, v: nat)
    requires v in Run(INITIAL, actions).viewers
    ensures var s := Run(INITIAL, actions); var show := s.viewers[v].show;
            show.lastSeq <= |s.events| && show.rendered == Follow.Rendered(s.events, show.lastSeq)
  {
    InitialHolds();
    RunKeeps(INITIAL, actions);
    var s := Run(INITIAL, actions);
    var w := s.viewers[v];
    assert Watching(s, w);
    if w.conn.Some? {
      Follow.RenderedStable(s.events, w.show.lastSeq, Covered(s.conns[w.conn.value], w.taken));
    }
  }

  /** The rendered frames are the first n event frames themselves exactly when none is typed as a status. */
  lemma {:induction false} RendersEverything(events: seq<Event>, n: nat)
    requires n <= |events|
    ensures |Follow.Rendered(events, n)| <= n
    ensures Follow.Rendered(events, n) == Frames(events, 0, n) <==> forall i | 0 <= i < n :: events[i].kind != STATUS
  {
    if n > 0 {
      RendersEverything(events, n - 1);
      FramesPush(events, events, 0, n - 1);
      SameUpToLast(Follow.Rendered(events, n - 1), Frames(events, 0, n - 1), events[n - 1].kind != STATUS,
                   EventFrame(n, events[n - 1]));
    }
  }

  lemma SameUpToLast(a: seq<Message>, b: seq<Message>, shown: bool, last: Message)
    requires |a| <= |b|
    ensures a + (if shown then [last] else []) == b + [last] <==> a == b && shown
  {
    var x, y := a + (if shown then [last] else []), b + [last];
    if shown && |a| == |b| {
      assert x[..|a|] == a && y[..|b|] == b;
    }
  }

  /**
   A terminal frame means a complete response: on the live path and on the
   finished path it is written once, last, after every event of the whole
   transcript past the resume point, whatever that point is.
   */
  lemma TerminalMeansComplete(actions: seq<Action>, k: nat, i: nat)
    requires k in Run(INITIAL, actions).conns && i < |Run(INITIAL, actions).conns[k].wire|
    requires Run(INITIAL, actions).conns[k].wire[i].terminal
    ensures var s := Run(INITIAL, actions); var c := s.conns[k];
            && i == |c.wire| - 1 && s.status.Finished?
            && Sequenced(c.wire) == Frames(s.events, c.after, |s.events|)
  {
    InitialHolds();
    RunKeeps(INITIAL, actions);
    var s := Run(INITIAL, actions);
    var c := s.conns[k];
    assert Handler(s, c);
    if c.last > |s.events| {
      assert Frames(s.events, c.after, c.last) == [] == Frames(s.events, c.after, |s.events|);
    }
  }

  lemma FinishedStays(s: State, a: Action)
    requires Enabled(s, a) && (s.phase.Recorded? || Announcing(s))
    ensures SameRecord(s, Step(s, a))
  {
    match a
    case Page(k, page) => PageSame(s, k, s.conns[k], page);
    case Deliver(k) => DeliverSame(s, k, s.conns[k]);
    case _ =>
  }

  predicate SameRecord(s: State, t: State) {
    t.status == s.status && t.events == s.events && t.rows == s.rows
  }

  lemma PageSame(s: State, k: nat, c: Conn, page: seq<EventTable.Stored>)
    ensures SameRecord(s, SendPage(s, k, c, page))
  {
  }

  lemma DeliverSame(s: State, k: nat, c: Conn)
    requires CanDeliver(s, c)
    ensures SameRecord(s, DeliverOne(s, k, c))
  {
  }

  /** Once the row is finished its transcript never changes again. */
  lemma {:induction false} FinishedIsFinal(s: State, actions: seq<Action>)
    requires Inv(s) && s.status.Finished?
    ensures SameRecord(s, Run(s, actions))
    decreases |actions|
  {
    if actions != [] {
      if Enabled(s, actions[0]) {
        StepKeeps(s, actions[0]);
        FinishedStays(s, actions[0]);
        FinishedIsFinal(Step(s, actions[0]), actions[1..]);
      } else {
        FinishedIsFinal(s, actions[1..]);
      }
    }
  }

  /** A follower that saw a terminal status has rendered the whole transcript. */
  lemma DoneMeansEverything(actions: seq<Action>, v: nat)
    requires v in Run(INITIAL, actions).viewers && Run(INITIAL, actions).viewers[v].show.done
    ensures var s := Run(INITIAL, actions);
            s.status.Finished? && s.viewers[v].show.rendered == Follow.Rendered(s.events, |s.events|)
  {
    InitialHolds();
    RunKeeps(INITIAL, actions);
    assert Watching(Run(INITIAL, actions), Run(INITIAL, actions).viewers[v]);
  }

  /** Each page that is not empty takes the backfill to a later row of the same table. */
  lemma BackfillAdvances(actions: seq<Action>, k: nat, page: seq<EventTable.Stored>)
    requires var s := Run(INITIAL, actions); Enabled(s, Page(k, page)) && page != []
    ensures var s := Run(INITIAL, actions); var t := Step(s, Page(k, page));
            && t.rows == s.rows && t.conns[k].stage.Backfilling?
            && t.conns[k].last in s.rows && s.conns[k].last < t.conns[k].last <= |s.events|
  {
    InitialHolds();
    RunKeeps(INITIAL, actions);
    var s := Run(INITIAL, actions);
    EventTable.PageOfNumbered(s.rows, s.events, StoredCount(s), s.conns[k].last, PAGE, page);
  }
}
