/**
 How responses and follows end: when a follower is done, why a response stops,
 what its last frame says, and that a follow can always be brought to its end.
 */
module Endings {
  import opened Common
  import opened Messages
  import Broker
  import EventTable
  import Follow
  import opened Streaming

  // ---- what a step leaves of a response ---------------------------------------------------

  /** A response only ever adds to what it wrote. */
  ghost predicate Extends(s: State, t: State, k: nat) {
    k in s.conns ==> k in t.conns && s.conns[k].wire <= t.conns[k].wire
  }

  /** Neither the row nor the run nor what it published is touched. */
  predicate LeavesRun(s: State, t: State) {
    t.status == s.status && t.phase == s.phase && t.feed.published == s.feed.published
  }

  lemma EndConns(s: State, k: nat, c: Conn)
    ensures End(s, k, c).conns == s.conns[k := c.(stage := Ended)] && End(s, k, c).viewers == s.viewers && LeavesRun(s, End(s, k, c))
  {
  }

  /** The steps that touch a response. */
  predicate IsHandlers(a: Action) {
    a.Join? || a.Page? || a.Deliver? || a.Leave?
  }

  lemma PageConns(s: State, k: nat, c: Conn, page: seq<EventTable.Stored>)
    ensures var t := SendPage(s, k, c, page);
            t.viewers == s.viewers && LeavesRun(s, t)
            && k in t.conns && t.conns == s.conns[k := t.conns[k]] && c.wire <= t.conns[k].wire
  {
    EndConns(s, k, c.(wire := c.wire + [StatusFrame(StatusText(c.read), true)]));
  }

  lemma DeliverConns(s: State, k: nat, c: Conn)
    requires CanDeliver(s, c)
    ensures var t := DeliverOne(s, k, c);
            t.viewers == s.viewers && LeavesRun(s, t)
            && k in t.conns && t.conns == s.conns[k := t.conns[k]] && c.wire <= t.conns[k].wire
  {
    EndConns(s, k, c);
    if Broker.Allowed(s.feed, Broker.Receive(c.sub.value)) {
      EndConns(TopicOp(s, Broker.Receive(c.sub.value)), k, Forward(c, s.feed.topic.chans[c.sub.value].queue[0]));
    }
  }

  lemma HandlerConns(s: State, a: Action)
    requires Enabled(s, a) && IsHandlers(a)
    ensures var t := Step(s, a);
            && a.k in s.conns && a.k in t.conns && t.conns == s.conns[a.k := t.conns[a.k]]
            && s.conns[a.k].wire <= t.conns[a.k].wire && t.viewers == s.viewers && LeavesRun(s, t)
  {
    var c := s.conns[a.k];
    if a.Page? {
      PageConns(s, a.k, c, a.page);
    } else if a.Deliver? {
      DeliverConns(s, a.k, c);
    } else if a.Leave? {
      EndConns(s, a.k, c.(gone := true));
    }
  }

  lemma OtherConns(s: State, a: Action)
    requires Enabled(s, a) && !IsHandlers(a)
    ensures var t := Step(s, a);
            && (if a.Open? || a.Connect? then a.k !in s.conns && a.k in t.conns && t.conns == s.conns[a.k := t.conns[a.k]] else t.conns == s.conns)
            && (if a.Connect? || a.Arrive? || a.Take? || a.Lose? then a.v in t.viewers && t.viewers == s.viewers[a.v := t.viewers[a.v]]
                else t.viewers == s.viewers)
  {
  }

  lemma StepExtends(s: State, a: Action, k: nat)
    requires Enabled(s, a)
    ensures Extends(s, Step(s, a), k)
  {
    if IsHandlers(a) {
      HandlerConns(s, a);
    } else {
      OtherConns(s, a);
    }
  }

  // ---- done is having taken a terminal frame --------------------------------------------------

  /** The follower has read a terminal frame of its connection. */
  ghost predicate TookEnd(s: State, w: Viewer) {
    w.conn.Some? && w.conn.value in s.conns &&
    exists i :: 0 <= i < w.taken && i < |s.conns[w.conn.value].wire| && s.conns[w.conn.value].wire[i].terminal
  }

  ghost predicate DoneRight(s: State, w: Viewer) {
    w.conn.Some? ==>
      w.conn.value in s.conns && w.taken <= |s.conns[w.conn.value].wire| && (w.show.done <==> TookEnd(s, w))
  }

  lemma DoneRightStays(s: State, t: State, w: Viewer)
    requires DoneRight(s, w) && (w.conn.Some? ==> Extends(s, t, w.conn.value))
    ensures DoneRight(t, w)
  {
    if w.conn.Some? {
      var before, after := s.conns[w.conn.value].wire, t.conns[w.conn.value].wire;
      assert forall i | 0 <= i < w.taken :: before[i] == after[i];
    }
  }

  /** On a response only a status is terminal. */
  lemma TerminalIsStatus(s: State, c: Conn, i: nat)
    requires Producer(s) && Handler(s, c) && i < |c.wire| && c.wire[i].terminal
    ensures c.wire[i].kind == STATUS
  {
    NextFrame(s, c, i);
  }

  lemma TakeDoneRight(s: State, w: Viewer)
    requires Producer(s) && CanTake(s, w) && Handler(s, s.conns[w.conn.value]) && DoneRight(s, w)
    ensures DoneRight(s, TakeOne(s, w))
  {
    var c, n := s.conns[w.conn.value], TakeOne(s, w);
    if c.wire[w.taken].terminal {
      TerminalIsStatus(s, c, w.taken);
      assert c.wire[n.taken - 1].terminal;
    }
  }

  /** A follower's own step: it arrives, connects, takes a frame or loses its connection. */
  lemma MoverDoneRight(s: State, a: Action)
    requires Inv(s) && Enabled(s, a) && (a.Connect? || a.Arrive? || a.Take? || a.Lose?)
    requires a.v in s.viewers ==> DoneRight(s, s.viewers[a.v])
    ensures a.v in Step(s, a).viewers && DoneRight(Step(s, a), Step(s, a).viewers[a.v])
  {
    if a.Take? {
      TakeDoneRight(s, s.viewers[a.v]);
      assert Step(s, a).conns == s.conns;
      DoneRightStays(s, Step(s, a), TakeOne(s, s.viewers[a.v]));
    }
  }

  lemma StepDoneRight(s: State, a: Action, v: nat)
    requires Inv(s) && Enabled(s, a) && v in Step(s, a).viewers
    requires v in s.viewers ==> DoneRight(s, s.viewers[v])
    ensures DoneRight(Step(s, a), Step(s, a).viewers[v])
  {
    if IsHandlers(a) {
      HandlerConns(s, a);
    } else {
      OtherConns(s, a);
    }
    if (a.Connect? || a.Arrive? || a.Take? || a.Lose?) && a.v == v {
      MoverDoneRight(s, a);
    } else {
      if s.viewers[v].conn.Some? {
        StepExtends(s, a, s.viewers[v].conn.value);
      }
      DoneRightStays(s, Step(s, a), s.viewers[v]);
    }
  }

  lemma {:induction false} RunDoneRight(s: State, actions: seq<Action>)
    requires Inv(s) && forall v | v in s.viewers :: DoneRight(s, s.viewers[v])
    ensures forall v | v in Run(s, actions).viewers :: DoneRight(Run(s, actions), Run(s, actions).viewers[v])
    decreases |actions|
  {
    if actions != [] {
      if Enabled(s, actions[0]) {
        var t := Step(s, actions[0]);
        StepKeeps(s, actions[0]);
        forall v | v in t.viewers ensures DoneRight(t, t.viewers[v]) {
          StepDoneRight(s, actions[0], v);
        }
        RunDoneRight(t, actions[1..]);
      } else {
        RunDoneRight(s, actions[1..]);
      }
    }
  }

  /** Over every run: a connected follower is done if and only if it has taken a terminal frame of its connection, whichever status that carries. */
  lemma DoneIffTaken(actions: seq<Action>, v: nat)
    requires v in Run(INITIAL, actions).viewers && Run(INITIAL, actions).viewers[v].conn.Some?
    ensures var s := Run(INITIAL, actions); var w := s.viewers[v];
            && w.conn.value in s.conns && w.taken <= |s.conns[w.conn.value].wire|
            && (w.show.done <==> exists i :: 0 <= i < w.taken && s.conns[w.conn.value].wire[i].terminal)
  {
    InitialHolds();
    RunDoneRight(INITIAL, actions);
    var s := Run(INITIAL, actions);
    assert DoneRight(s, s.viewers[v]);
  }

  // ---- why a response ends ----------------------------------------------------------------------

  /** A log stopped by the close of the topic saw all there was. */
  ghost predicate LogsRight(f: Broker.Feed) {
    forall id: nat | id < |f.logs| && f.logs[id].stop.TopicClosed? :: f.topic.closed && f.logs[id].stop.at == |f.published|
  }

  /** A response that goes on has not left its subscription, and was given no terminal frame. */
  ghost predicate Attached(f: Broker.Feed, c: Conn) {
    c.sub.Some? && !c.stage.Ended? ==>
      && c.sub.value < |f.logs| && !f.logs[c.sub.value].stop.Left?
      && forall i | 0 <= i < |f.logs[c.sub.value].consumed| :: !f.logs[c.sub.value].consumed[i].terminal
  }

  predicate EndsTerminal(wire: seq<Message>) {
    wire != [] && wire[|wire| - 1].terminal
  }

  /** Dropped as too slow, or subscribed after the last message, before the topic was closed. */
  ghost predicate CutOff(f: Broker.Feed, c: Conn) {
    c.sub.Some? && c.sub.value < |f.logs| &&
    var l := f.logs[c.sub.value];
    l.stop.Dropped? || (l.stop.TopicClosed? && l.start == |f.published|)
  }

  ghost predicate Explained(f: Broker.Feed, c: Conn) {
    && (c.stage.Ended? ==> EndsTerminal(c.wire) || (!c.finished && (c.gone || CutOff(f, c))))
    && (c.stage.Live? ==> !c.finished)
    && (!c.stage.Opened? && c.read.Finished? ==> c.finished)
  }

  ghost predicate RightBut(s: State, k: nat) {
    LogsRight(s.feed) && forall j | j in s.conns && j != k :: Attached(s.feed, s.conns[j]) && Explained(s.feed, s.conns[j])
  }

  ghost predicate Right(s: State) {
    LogsRight(s.feed) && forall j | j in s.conns :: Attached(s.feed, s.conns[j]) && Explained(s.feed, s.conns[j])
  }

  /** Somebody else's operation on the topic takes nothing for this reader and does not make it leave. */
  ghost predicate LogKept(f: Broker.Feed, g: Broker.Feed, id: nat) {
    && id < |f.logs| && id < |g.logs| && g.logs[id].start == f.logs[id].start && g.logs[id].consumed == f.logs[id].consumed
    && (g.logs[id].stop == f.logs[id].stop || (f.logs[id].stop.Fed? && (g.logs[id].stop.Dropped? || g.logs[id].stop.TopicClosed?)))
    && (f.topic.closed ==> g.published == f.published)
  }

  lemma OpKeepsLog(f: Broker.Feed, op: Broker.Op, id: nat)
    requires Broker.Allowed(f, op) && id < |f.logs| && ((op.Receive? || op.Cancel?) ==> op.id != id)
    ensures LogKept(f, Broker.Next(f, op), id)
  {
  }

  lemma OpKeepsRight(f: Broker.Feed, op: Broker.Op)
    requires Broker.Allowed(f, op) && LogsRight(f)
    ensures LogsRight(Broker.Next(f, op))
  {
  }

  lemma ConnStays(f: Broker.Feed, g: Broker.Feed, c: Conn)
    requires LogsRight(f) && Attached(f, c) && Explained(f, c)
    requires c.sub.Some? && c.sub.value < |f.logs| ==> LogKept(f, g, c.sub.value)
    ensures Attached(g, c) && Explained(g, c)
  {
  }

  /** An operation on the topic, not of the readers named, keeps all other responses right. */
  lemma OpRight(s: State, op: Broker.Op, k: nat)
    requires Broker.Allowed(s.feed, op) && RightBut(s, k)
    requires op.Receive? || op.Cancel? ==> forall j | j in s.conns && j != k :: s.conns[j].sub != Some(op.id)
    ensures RightBut(TopicOp(s, op), k)
  {
    var g := Broker.Next(s.feed, op);
    OpKeepsRight(s.feed, op);
    forall j | j in s.conns && j != k ensures Attached(g, s.conns[j]) && Explained(g, s.conns[j]) {
      var c := s.conns[j];
      if c.sub.Some? && c.sub.value < |s.feed.logs| {
        OpKeepsLog(s.feed, op, c.sub.value);
      }
      ConnStays(s.feed, g, c);
    }
  }

  /** An operation of nobody in particular. */
  lemma TopicRight(s: State, op: Broker.Op)
    requires Right(s) && (op.Publish? || op.Subscribe? || op.Close?)
    ensures Right(TopicOp(s, op))
  {
    var g := Broker.Next(s.feed, op);
    OpKeepsRight(s.feed, op);
    forall j | j in s.conns ensures Attached(g, s.conns[j]) && Explained(g, s.conns[j]) {
      var c := s.conns[j];
      if c.sub.Some? && c.sub.value < |s.feed.logs| {
        OpKeepsLog(s.feed, op, c.sub.value);
      }
      ConnStays(s.feed, g, c);
    }
  }

  /** Ending a response that has a reason to. */
  lemma EndRight(s: State, k: nat, c: Conn)
    requires RightBut(s, k) && Explained(s.feed, c.(stage := Ended))
    requires c.sub.Some? ==> forall j | j in s.conns && j != k :: s.conns[j].sub != c.sub
    ensures Right(End(s, k, c))
  {
    var d := c.(stage := Ended);
    var t := s.(conns := s.conns[k := d]);
    assert RightBut(t, k);
    if c.sub.Some? && Broker.Allowed(t.feed, Broker.Cancel(c.sub.value)) {
      OpRight(t, Broker.Cancel(c.sub.value), k);
      assert Explained(Broker.Next(t.feed, Broker.Cancel(c.sub.value)), d);
    }
  }

  lemma SetRight(s: State, k: nat, c: Conn)
    requires RightBut(s, k) && Attached(s.feed, c) && Explained(s.feed, c)
    ensures Right(SetConn(s, k, c))
  {
  }

  lemma SubsApart(s: State, k: nat)
    requires Apart(s) && k in s.conns && s.conns[k].sub.Some?
    ensures forall j | j in s.conns && j != k :: s.conns[j].sub != s.conns[k].sub
  {
  }

  lemma PageRight(s: State, k: nat, page: seq<EventTable.Stored>)
    requires Inv(s) && Right(s) && Enabled(s, Page(k, page))
    ensures Right(SendPage(s, k, s.conns[k], page))
  {
    var c := s.conns[k];
    if c.sub.Some? {
      SubsApart(s, k);
    }
    if page != [] {
      SetRight(s, k, c.(last := page[|page| - 1].seqno, wire := c.wire + PageFrames(page)));
    } else if c.finished {
      EndRight(s, k, c.(wire := c.wire + [StatusFrame(StatusText(c.read), true)]));
    } else {
      SetRight(s, k, c.(stage := Live));
    }
  }

  /** The message taken is added to the reader's log, and to the response unless it repeats an event. */
  lemma TakenRight(s: State, c: Conn, msg: Message)
    requires Attached(s.feed, c) && Explained(s.feed, c) && c.stage.Live? && CanDeliver(s, c) && Broker.Allowed(s.feed, Broker.Receive(c.sub.value))
    requires msg == s.feed.topic.chans[c.sub.value].queue[0] && (msg.terminal ==> msg.seqno == 0)
    ensures var g := Broker.Next(s.feed, Broker.Receive(c.sub.value));
            if msg.terminal then Explained(g, Forward(c, msg).(stage := Ended)) else Attached(g, Forward(c, msg)) && Explained(g, Forward(c, msg))
  {
  }

  /** A message taken from the topic is forwarded; a terminal one ends the response. */
  lemma ReceiveRight(s: State, k: nat)
    requires Inv(s) && Right(s) && Enabled(s, Deliver(k)) && Broker.Allowed(s.feed, Broker.Receive(s.conns[k].sub.value))
    ensures Right(DeliverOne(s, k, s.conns[k]))
  {
    var c := s.conns[k];
    var id := c.sub.value;
    var msg, t := s.feed.topic.chans[id].queue[0], TopicOp(s, Broker.Receive(id));
    SubsApart(s, k);
    Arrives(s, id);
    TakenRight(s, c, msg);
    OpRight(s, Broker.Receive(id), k);
    if msg.terminal {
      EndRight(t, k, Forward(c, msg));
    } else {
      SetRight(t, k, Forward(c, msg));
    }
  }

  /** With nothing left on a closed channel, the reader was dropped, or it has taken all since it joined, and that was nothing. */
  lemma DrainedIsCutOff(s: State, c: Conn)
    requires Producer(s) && LogsRight(s.feed) && Attached(s.feed, c) && c.stage.Live? && CanDeliver(s, c)
    requires !Broker.Allowed(s.feed, Broker.Receive(c.sub.value))
    ensures CutOff(s.feed, c)
  {
    var f, id := s.feed, c.sub.value;
    var l := f.logs[id];
    assert Broker.Contiguous(f, id);
    assert f.topic.chans[id].queue == [];
    assert l.consumed + [] == l.consumed;
    assert f.published != [] ==> f.topic.closed ==> f.published[|f.published| - 1].terminal;
  }

  lemma DeliverRight(s: State, k: nat)
    requires Inv(s) && Right(s) && Enabled(s, Deliver(k))
    ensures Right(DeliverOne(s, k, s.conns[k]))
  {
    if Broker.Allowed(s.feed, Broker.Receive(s.conns[k].sub.value)) {
      ReceiveRight(s, k);
    } else {
      DrainedIsCutOff(s, s.conns[k]);
      SubsApart(s, k);
      EndRight(s, k, s.conns[k]);
    }
  }

  lemma JoinRight(s: State, k: nat)
    requires Inv(s) && Right(s) && Enabled(s, Join(k))
    ensures Right(JoinTopic(s, k, s.conns[k]))
  {
    var t := TopicOp(s, Broker.Subscribe);
    TopicRight(s, Broker.Subscribe);
    assert |s.feed.logs| == |s.feed.topic.chans|;
    SetRight(t, k, JoinTopic(s, k, s.conns[k]).conns[k]);
  }

  lemma LeaveRight(s: State, k: nat)
    requires Inv(s) && Right(s) && Enabled(s, Leave(k))
    ensures Right(Step(s, Leave(k)))
  {
    if s.conns[k].sub.Some? {
      SubsApart(s, k);
    }
    EndRight(s, k, s.conns[k].(gone := true));
  }

  lemma StepRight(s: State, a: Action)
    requires Inv(s) && Right(s) && Enabled(s, a)
    ensures Right(Step(s, a))
  {
    match a {
      case Join(k) => JoinRight(s, k);
      case Page(k, page) => PageRight(s, k, page);
      case Deliver(k) => DeliverRight(s, k);
      case Leave(k) => LeaveRight(s, k);
      case PublishRunning => TopicRight(s, Broker.Publish(StatusFrame("running", false)));
      case PublishEvent => TopicRight(s, Broker.Publish(LastFrame(s)));
      case PublishTerminal => TopicRight(s, Broker.Publish(StatusFrame(StatusText(s.status), true)));
      case CloseTopic => TopicRight(s, Broker.Close);
      case Open(k, after) => SetRight(s, k, Fresh(s, after));
      case Connect(v, k) => SetRight(s, k, Fresh(s, s.viewers[v].show.lastSeq));
      case _ =>
    }
  }

  lemma {:induction false} RunRight(s: State, actions: seq<Action>)
    requires Inv(s) && Right(s)
    ensures Right(Run(s, actions)) && Inv(Run(s, actions))
    decreases |actions|
  {
    if actions != [] {
      if Enabled(s, actions[0]) {
        StepKeeps(s, actions[0]);
        StepRight(s, actions[0]);
        RunRight(Step(s, actions[0]), actions[1..]);
      } else {
        RunRight(s, actions[1..]);
      }
    }
  }

  /**
   Over every run: a response that has ended has a terminal frame as its last,
   unless its request was gone, or its reader was dropped with 256 messages
   waiting, or it subscribed when the terminal message had been published and
   before the topic was closed. A request that found the execution finished is
   always answered to the terminal frame.
   */
  lemma EndedWhy(actions: seq<Action>, k: nat)
    requires k in Run(INITIAL, actions).conns && Run(INITIAL, actions).conns[k].stage.Ended?
    ensures var s := Run(INITIAL, actions); var c := s.conns[k];
            || (c.wire != [] && c.wire[|c.wire| - 1].terminal)
            || c.gone
            || (c.sub.Some? && c.sub.value < |s.feed.logs| &&
                var l := s.feed.logs[c.sub.value];
                || (l.stop.Dropped? && l.stop.at - (l.start + l.stop.taken) == 256)
                || (l.stop.TopicClosed? && l.start == |s.feed.published|))
    ensures var c := Run(INITIAL, actions).conns[k];
            c.read.Finished? ==> c.wire != [] && c.wire[|c.wire| - 1].terminal
  {
    InitialHolds();
    RunRight(INITIAL, actions);
    var s := Run(INITIAL, actions);
    var c := s.conns[k];
    assert Explained(s.feed, c);
    if c.sub.Some? && c.sub.value < |s.feed.logs| {
      assert Broker.Contiguous(s.feed, c.sub.value);
    }
  }

  /**
   Over every run: a live response can go on exactly while its reader has
   published messages to take, or when it is no longer fed, in order to end.
   */
  lemma LiveGoesOn(actions: seq<Action>, k: nat)
    requires k in Run(INITIAL, actions).conns && Run(INITIAL, actions).conns[k].stage.Live?
    ensures var s := Run(INITIAL, actions); var c := s.conns[k];
            && c.sub.Some? && c.sub.value < |s.feed.logs|
            && var l := s.feed.logs[c.sub.value];
               Enabled(s, Deliver(k)) <==> !l.stop.Fed? || l.start + |l.consumed| < |s.feed.published|
  {
    InitialHolds();
    RunKeeps(INITIAL, actions);
    LiveHasSub(Run(INITIAL, actions), k);
    LiveMoves(Run(INITIAL, actions), k);
  }

  lemma LiveMoves(s: State, k: nat)
    requires k in s.conns && s.conns[k].stage.Live? && s.conns[k].sub.Some? && s.conns[k].sub.value < |s.feed.logs|
    requires Broker.Faithful(s.feed)
    ensures var l := s.feed.logs[s.conns[k].sub.value];
            Enabled(s, Deliver(k)) <==> !l.stop.Fed? || l.start + |l.consumed| < |s.feed.published|
  {
    CanGoOn(s, s.conns[k]);
  }

  lemma LiveHasSub(s: State, k: nat)
    requires Inv(s) && k in s.conns && s.conns[k].stage.Live?
    ensures s.conns[k].sub.Some? && s.conns[k].sub.value < |s.feed.logs| && Broker.Faithful(s.feed)
  {
    assert Handler(s, s.conns[k]);
  }

  lemma CanGoOn(s: State, c: Conn)
    requires Broker.Faithful(s.feed) && c.stage.Live? && c.sub.Some? && c.sub.value < |s.feed.logs|
    ensures var l := s.feed.logs[c.sub.value];
            CanDeliver(s, c) <==> !l.stop.Fed? || l.start + |l.consumed| < |s.feed.published|
  {
    MoreToTake(s.feed, c.sub.value);
  }

  /** A channel has something for its reader, or is closed, exactly when there are published messages it has not taken, or it is no longer fed. */
  lemma MoreToTake(f: Broker.Feed, id: nat)
    requires Broker.Faithful(f) && id < |f.logs|
    ensures var l := f.logs[id];
            f.topic.chans[id].queue != [] || !f.topic.chans[id].open <==> !l.stop.Fed? || l.start + |l.consumed| < |f.published|
  {
    assert Broker.Contiguous(f, id);
    var l, q := f.logs[id], f.topic.chans[id].queue;
    if l.stop.Fed? {
      assert |l.consumed + q| == |f.published[l.start..|f.published|]|;
    }
  }

  // ---- what the last frame says ---------------------------------------------------------------------

  /** The text of a row's status. */
  function TextOf(r: RowStatus): string {
    match r
    case Unfinished(running) => if running then "running" else "pending"
    case Finished(outcome) => outcome
  }

  /** The terminal message carries the outcome in the row. */
  ghost predicate AnnouncesRow(s: State) {
    Announcing(s) ==> s.status.Finished? && s.feed.published != [] && s.feed.published[|s.feed.published| - 1].status == s.status.outcome
  }

  /** A terminal frame says what the row said at the start of the request if the topic was not followed, and the row's outcome otherwise. */
  ghost predicate SaysRight(s: State, c: Conn) {
    && (c.stage.Live? ==> !c.finished)
    && forall i | 0 <= i < |c.wire| && c.wire[i].terminal ::
         if c.finished then c.wire[i].status == TextOf(c.read) else s.status.Finished? && c.wire[i].status == s.status.outcome
  }

  ghost predicate AllSay(s: State) {
    AnnouncesRow(s) && forall k | k in s.conns :: SaysRight(s, s.conns[k])
  }

  /** Messages published are never taken back; only the end of the run adds a terminal one. */
  lemma StepAnnounces(s: State, a: Action)
    requires Inv(s) && Enabled(s, a) && AnnouncesRow(s) && !IsHandlers(a)
    ensures AnnouncesRow(Step(s, a)) && (s.status.Finished? ==> Step(s, a).status == s.status)
  {
  }

  lemma ForwardSays(s: State, c: Conn)
    requires Producer(s) && Handler(s, c) && AnnouncesRow(s) && SaysRight(s, c) && c.stage.Live?
    requires Broker.Allowed(s.feed, Broker.Receive(c.sub.value))
    ensures var msg := s.feed.topic.chans[c.sub.value].queue[0];
            SaysRight(s, Forward(c, msg)) && SaysRight(s, Forward(c, msg).(stage := Ended))
  {
    HeadOfQueue(s.feed, c.sub.value);
  }

  lemma DeliverSays(s: State, k: nat)
    requires Inv(s) && Enabled(s, Deliver(k)) && AnnouncesRow(s) && SaysRight(s, s.conns[k])
    ensures k in DeliverOne(s, k, s.conns[k]).conns && SaysRight(s, DeliverOne(s, k, s.conns[k]).conns[k])
  {
    var c := s.conns[k];
    assert Handler(s, c);
    if Broker.Allowed(s.feed, Broker.Receive(c.sub.value)) {
      ForwardSays(s, c);
      EndConns(TopicOp(s, Broker.Receive(c.sub.value)), k, Forward(c, s.feed.topic.chans[c.sub.value].queue[0]));
    } else {
      EndConns(s, k, c);
    }
  }

  lemma JoinSays(s: State, k: nat)
    requires Inv(s) && Enabled(s, Join(k)) && SaysRight(s, s.conns[k])
    ensures k in JoinTopic(s, k, s.conns[k]).conns && SaysRight(s, JoinTopic(s, k, s.conns[k]).conns[k])
  {
    assert Handler(s, s.conns[k]);
  }

  lemma HandlerSays(s: State, a: Action)
    requires Inv(s) && Enabled(s, a) && AllSay(s) && IsHandlers(a)
    ensures a.k in Step(s, a).conns && SaysRight(s, Step(s, a).conns[a.k])
  {
    match a {
      case Page(k, page) => PageSays(s, k, page);
      case Deliver(k) => DeliverSays(s, k);
      case Leave(k) => EndConns(s, k, s.conns[k].(gone := true));
      case Join(k) => JoinSays(s, k);
    }
  }

  /** Frames of stored events add nothing terminal. */
  lemma FramesSay(s: State, c: Conn, page: seq<EventTable.Stored>, last: nat)
    requires SaysRight(s, c)
    ensures SaysRight(s, c.(last := last, wire := c.wire + PageFrames(page)))
  {
    var frames := PageFrames(page);
    assert forall i | 0 <= i < |c.wire + frames| :: (c.wire + frames)[i] == if i < |c.wire| then c.wire[i] else frames[i - |c.wire|];
  }

  lemma LastSays(s: State, c: Conn)
    requires SaysRight(s, c) && c.finished
    ensures SaysRight(s, c.(wire := c.wire + [StatusFrame(StatusText(c.read), true)], stage := Ended))
  {
  }

  lemma PageSays(s: State, k: nat, page: seq<EventTable.Stored>)
    requires Enabled(s, Page(k, page)) && SaysRight(s, s.conns[k])
    ensures k in SendPage(s, k, s.conns[k], page).conns && SaysRight(s, SendPage(s, k, s.conns[k], page).conns[k])
  {
    var c := s.conns[k];
    if page != [] {
      FramesSay(s, c, page, page[|page| - 1].seqno);
    } else if c.finished {
      LastSays(s, c);
      EndConns(s, k, c.(wire := c.wire + [StatusFrame(StatusText(c.read), true)]));
    }
  }

  lemma SaysStill(s: State, t: State, c: Conn)
    requires SaysRight(s, c) && (s.status.Finished? ==> t.status == s.status)
    ensures SaysRight(t, c)
  {
  }

  lemma HandlerAllSay(s: State, a: Action)
    requires Inv(s) && Enabled(s, a) && AllSay(s) && IsHandlers(a)
    ensures AllSay(Step(s, a))
  {
    var t := Step(s, a);
    HandlerConns(s, a);
    HandlerSays(s, a);
    forall k | k in t.conns ensures SaysRight(t, t.conns[k]) {
      SaysStill(s, t, t.conns[k]);
    }
  }

  lemma OtherAllSay(s: State, a: Action)
    requires Inv(s) && Enabled(s, a) && AllSay(s) && !IsHandlers(a)
    ensures AllSay(Step(s, a))
  {
    var t := Step(s, a);
    StepAnnounces(s, a);
    OtherConns(s, a);
    forall k | k in t.conns ensures SaysRight(t, t.conns[k]) {
      if k in s.conns {
        SaysStill(s, t, s.conns[k]);
      }
    }
  }

  lemma StepSays(s: State, a: Action)
    requires Inv(s) && Enabled(s, a) && AllSay(s)
    ensures AllSay(Step(s, a))
  {
    if IsHandlers(a) {
      HandlerAllSay(s, a);
    } else {
      OtherAllSay(s, a);
    }
  }

  lemma {:induction false} RunSays(s: State, actions: seq<Action>)
    requires Inv(s) && AllSay(s)
    ensures AllSay(Run(s, actions))
    decreases |actions|
  {
    if actions != [] {
      if Enabled(s, actions[0]) {
        StepKeeps(s, actions[0]);
        StepSays(s, actions[0]);
        RunSays(Step(s, actions[0]), actions[1..]);
      } else {
        RunSays(s, actions[1..]);
      }
    }
  }

  /**
   Over every run: on the live path a terminal frame carries the outcome that the
   row has. A response that found the execution finished, or its topic closed,
   says what the row was when the request began, which need not be an end yet.
   */
  lemma TerminalSaysStatus(actions: seq<Action>, k: nat, i: nat)
    requires k in Run(INITIAL, actions).conns && i < |Run(INITIAL, actions).conns[k].wire|
    requires Run(INITIAL, actions).conns[k].wire[i].terminal
    ensures var s := Run(INITIAL, actions); var c := s.conns[k];
            if !c.finished then s.status == Finished(c.wire[i].status)
            else c.wire[i].status ==
                   match c.read case Unfinished(running) => (if running then "running" else "pending") case Finished(outcome) => outcome
  {
    InitialHolds();
    RunSays(INITIAL, actions);
    var s := Run(INITIAL, actions);
    assert SaysRight(s, s.conns[k]);
  }

  // ---- a follow can always be brought to its end ------------------------------------------------------

  ghost predicate Finishes(s: State, v: nat, actions: seq<Action>) {
    v in Run(s, actions).viewers && Run(s, actions).viewers[v].show.done
  }

  ghost predicate CanFinish(s: State, v: nat) {
    exists actions :: Finishes(s, v, actions)
  }

  lemma CanBefore(s: State, a: Action, v: nat)
    requires Enabled(s, a) && CanFinish(Step(s, a), v)
    ensures CanFinish(s, v)
  {
    var actions :| Finishes(Step(s, a), v, actions);
    assert ([a] + actions)[1..] == actions;
    assert Finishes(s, v, [a] + actions);
  }

  lemma CanNow(s: State, v: nat)
    requires v in s.viewers && s.viewers[v].show.done
    ensures CanFinish(s, v)
  {
    assert Finishes(s, v, []);
  }

  /** The follower is on a response of a finished execution. */
  ghost predicate OnResponse(s: State, v: nat, k: nat) {
    && Inv(s) && s.phase.Over? && v in s.viewers && DoneRight(s, s.viewers[v]) && !s.viewers[v].show.done
    && s.viewers[v].conn == Some(k) && k in s.conns
  }

  /** With a terminal frame written, taking frames comes to it. */
  lemma {:induction false} TakesFinish(s: State, v: nat, k: nat)
    requires OnResponse(s, v, k) && EndsTerminal(s.conns[k].wire)
    ensures CanFinish(s, v)
    decreases |s.conns[k].wire| - s.viewers[v].taken
  {
    var w, wire := s.viewers[v], s.conns[k].wire;
    assert w.taken >= |wire| ==> TookEnd(s, w);
    var t := Step(s, Take(v));
    StepKeeps(s, Take(v));
    StepDoneRight(s, Take(v), v);
    if t.viewers[v].show.done {
      CanNow(t, v);
    } else {
      TakesFinish(t, v, k);
    }
    CanBefore(s, Take(v), v);
  }

  /** The next rows after a position, as many as a page holds. */
  lemma NextPage(rows: EventTable.Rows, events: seq<Event>, m: nat, after: nat) returns (page: seq<EventTable.Stored>)
    requires EventTable.HoldsFirst(rows, events, m)
    ensures EventTable.IsPage(rows, after, PAGE, page) && (page == [] <==> after >= m)
  {
    var n := if after >= m then 0 else if m - after > PAGE then PAGE else m - after;
    page := seq(n, i requires 0 <= i < n => EventTable.Stored(after + i + 1, events[after + i]));
    forall j | j in rows && j > after ensures (exists i :: 0 <= i < |page| && page[i].seqno == j) || (|page| == PAGE && page[PAGE - 1].seqno < j) {
      if j <= after + n {
        assert page[j - after - 1].seqno == j;
      }
    }
  }

  /** After a page the response is further on, or has its terminal frame. */
  lemma PageMoves(s: State, v: nat, k: nat, page: seq<EventTable.Stored>)
    requires OnResponse(s, v, k) && s.conns[k].stage.Backfilling? && s.conns[k].finished && Enabled(s, Page(k, page))
    ensures OnResponse(Step(s, Page(k, page)), v, k) && Step(s, Page(k, page)).events == s.events
    ensures var c, d := s.conns[k], Step(s, Page(k, page)).conns[k];
            if page == [] then EndsTerminal(d.wire)
            else d.stage.Backfilling? && d.finished && d.last == page[|page| - 1].seqno
  {
    StepKeeps(s, Page(k, page));
    StepDoneRight(s, Page(k, page), v);
    EndConns(s, k, s.conns[k].(wire := s.conns[k].wire + [StatusFrame(StatusText(s.conns[k].read), true)]));
  }

  /** Page by page the backfill comes to its end and to the terminal frame. */
  lemma {:induction false} PagesFinish(s: State, v: nat, k: nat)
    requires OnResponse(s, v, k) && s.conns[k].stage.Backfilling? && s.conns[k].finished
    ensures CanFinish(s, v)
    decreases if |s.events| > s.conns[k].last then |s.events| - s.conns[k].last else 0
  {
    var page := NextPage(s.rows, s.events, |s.events|, s.conns[k].last);
    PageMoves(s, v, k, page);
    if page == [] {
      TakesFinish(Step(s, Page(k, page)), v, k);
    } else {
      PagesFinish(Step(s, Page(k, page)), v, k);
    }
    CanBefore(s, Page(k, page), v);
  }

  lemma JoinFinishes(s: State, v: nat, k: nat)
    requires OnResponse(s, v, k) && s.conns[k].stage.Opened?
    ensures CanFinish(s, v)
  {
    var t := Step(s, Join(k));
    StepKeeps(s, Join(k));
    StepDoneRight(s, Join(k), v);
    PagesFinish(t, v, k);
    CanBefore(s, Join(k), v);
  }

  lemma Unused(s: set<nat>) returns (k: nat)
    ensures k !in s
  {
    k := 0;
    var rest := s;
    while k in s
      invariant forall i: nat | i < k :: i in s && i !in rest
      invariant forall i: nat | i >= k && i in s :: i in rest
      decreases |rest|
    {
      rest := rest - {k};
      k := k + 1;
    }
  }

  lemma ConnectFinishes(s: State, v: nat)
    requires Inv(s) && s.phase.Over? && v in s.viewers && !s.viewers[v].show.done && s.viewers[v].conn.None?
    ensures CanFinish(s, v)
  {
    var k := Unused(s.conns.Keys);
    var a := Connect(v, k);
    StepKeeps(s, a);
    StepDoneRight(s, a, v);
    JoinFinishes(Step(s, a), v, k);
    CanBefore(s, a, v);
  }

  /**
   Once the run is over, whatever has happened to a follower before, reconnecting
   and reading brings it to its end, with the whole transcript rendered.
   */
  lemma CanAlwaysFinish(actions: seq<Action>, v: nat)
    requires Run(INITIAL, actions).phase.Over? && v in Run(INITIAL, actions).viewers
    ensures exists more :: Finishes(Run(INITIAL, actions), v, more)
                           && Run(Run(INITIAL, actions), more).viewers[v].show.rendered
                              == Follow.Rendered(Run(INITIAL, actions).events, |Run(INITIAL, actions).events|)
  {
    InitialHolds();
    RunKeeps(INITIAL, actions);
    var s := Run(INITIAL, actions);
    if s.viewers[v].show.done {
      CanNow(s, v);
    } else if s.viewers[v].conn.None? {
      ConnectFinishes(s, v);
    } else {
      StepKeeps(s, Lose(v));
      ConnectFinishes(Step(s, Lose(v)), v);
      CanBefore(s, Lose(v), v);
    }
    var more :| Finishes(s, v, more);
    RunKeeps(s, more);
    FinishedIsFinal(s, more);
    assert Watching(Run(s, more), Run(s, more).viewers[v]);
  }
}
