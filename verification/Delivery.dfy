/**
 The stream from end to end: every response the step machine can produce, printed
 with keep-alives, cut at any byte, parsed and rendered by a follower that
 reconnects from where it stopped.
 */
module Delivery {
  import opened Common
  import opened Messages
  import Lines
  import opened Sse
  import opened Follow
  import opened Wire
  import Streaming

  // ---- event names ------------------------------------------------------------------------

  /** A name without a line feed is one line, so it carries no other field. */
  lemma OneLineIsHarmless(name: string)
    requires Lines.LF !in name
    ensures Harmless(name)
  {
    OneLine(name);
  }

  /** No event of the transcript has a name that breaks its frame. */
  ghost predicate HarmlessEvents(events: seq<Event>) {
    forall i | 0 <= i < |events| :: Harmless(EventName(EventFrame(i + 1, events[i])))
  }

  /** Every message on a reachable response is a status or an event of the transcript. */
  lemma WireNames(s: Streaming.State, c: Streaming.Conn, i: nat)
    requires Streaming.Producer(s) && Streaming.Handler(s, c) && HarmlessEvents(s.events) && i < |c.wire|
    ensures Harmless(EventName(c.wire[i]))
  {
    Streaming.NextFrame(s, c, i);
    if c.wire[i].seqno == 0 {
      OneLineIsHarmless(STATUS);
    }
  }

  // ---- what was said ------------------------------------------------------------------------

  lemma {:induction false} SaidAppend(a: seq<Write>, b: seq<Write>)
    ensures Said(a + b) == Said(a) + Said(b)
  {
    if a == [] {
      assert a + b == b;
      NoneFirst(Said(b));
    } else {
      assert (a + b)[1..] == a[1..] + b;
      SaidAppend(a[1..], b);
      Lines.Regroup(match a[0] case Beat => [] case Say(m) => [m], Said(a[1..]), Said(b));
    }
  }

  lemma SaidPrefix(writes: seq<Write>, n: nat)
    requires n <= |writes|
    ensures Said(writes[..n]) <= Said(writes)
  {
    assert writes[..n] + writes[n..] == writes;
    SaidAppend(writes[..n], writes[n..]);
  }

  lemma {:induction false} SaidHas(writes: seq<Write>, i: nat)
    requires i < |writes| && writes[i].Say?
    ensures exists j :: 0 <= j < |Said(writes)| && Said(writes)[j] == writes[i].msg
  {
    SaidAppend(writes[..i], writes[i..]);
    assert writes[..i] + writes[i..] == writes;
    assert Said(writes)[|Said(writes[..i])|] == writes[i].msg;
  }

  /** Nothing a response says breaks its frame. */
  lemma SaidHarmless(s: Streaming.State, c: Streaming.Conn, writes: seq<Write>)
    requires Streaming.Producer(s) && Streaming.Handler(s, c) && HarmlessEvents(s.events) && Said(writes) <= c.wire
    ensures NamesAreHarmless(writes)
  {
    forall i: nat | i < |writes| && writes[i].Say? ensures Harmless(EventName(writes[i].msg)) {
      SaidHas(writes, i);
      var j :| 0 <= j < |Said(writes)| && Said(writes)[j] == writes[i].msg;
      assert c.wire[j] == writes[i].msg;
      WireNames(s, c, j);
    }
  }

  // ---- what is received ---------------------------------------------------------------------

  /** The transcript as it arrives: every payload as encoding leaves it. */
  function CanonEvents(codec: Codec, events: seq<Event>): seq<Event> {
    seq(|events|, i requires 0 <= i < |events| => events[i].(payload := codec.canon(events[i].payload)))
  }

  /** A frame in step with the transcript arrives in step with the transcript that arrives. */
  lemma ReceivedInStep(codec: Codec, msg: Message, events: seq<Event>, n: nat)
    requires InStep(msg, events, n)
    ensures InStep(Received(codec, msg), CanonEvents(codec, events), n)
    ensures Reached(Received(codec, msg), n) == Reached(msg, n)
  {
  }

  /** What a follower shows of the transcript that arrives is what it would show of the one stored, as it arrives. */
  lemma {:induction false} RenderedReceived(codec: Codec, events: seq<Event>, n: nat)
    requires n <= |events|
    ensures |Rendered(CanonEvents(codec, events), n)| == |Rendered(events, n)|
    ensures forall i | 0 <= i < |Rendered(events, n)| ::
              Rendered(CanonEvents(codec, events), n)[i] == Received(codec, Rendered(events, n)[i])
  {
    if n > 0 {
      RenderedReceived(codec, events, n - 1);
    }
  }

  // ---- one response --------------------------------------------------------------------------

  lemma GapFreeFirst(decode: Unmarshal, payloads: seq<string>, events: seq<Event>, n: nat, msg: Message)
    requires payloads != [] && decode(payloads[0]) == Some(msg)
    requires InStep(msg, events, n) && GapFree(decode, payloads[1..], events, Reached(msg, n))
    ensures GapFree(decode, payloads, events, n)
  {
  }

  /** The payloads of a stretch of a response run ahead of the follower nowhere. */
  lemma {:induction false} StretchIsGapFree(s: Streaming.State, c: Streaming.Conn, codec: Codec, writes: seq<Write>, from: nat)
    requires Streaming.Producer(s) && Streaming.Handler(s, c) && Undoes(codec, writes)
    requires from <= |c.wire| && Said(writes) <= c.wire[from..]
    ensures GapFree(codec.decode, Payloads(Items(codec, writes)), CanonEvents(codec, s.events), Streaming.Covered(c, from))
    decreases |writes|
  {
    if writes != [] {
      match writes[0]
      case Beat =>
        BeatFirst(codec, writes);
        StretchIsGapFree(s, c, codec, writes[1..], from);
      case Say(m) =>
        SayFirst(codec, writes);
        StretchMore(c, writes, from);
        Streaming.NextFrame(s, c, from);
        ReceivedInStep(codec, m, s.events, Streaming.Covered(c, from));
        StretchIsGapFree(s, c, codec, writes[1..], from + 1);
        GapFreeFirst(codec.decode, Payloads(Items(codec, writes)), CanonEvents(codec, s.events), Streaming.Covered(c, from), Received(codec, m));
    }
  }

  lemma StretchMore(c: Streaming.Conn, writes: seq<Write>, from: nat)
    requires from <= |c.wire| && Said(writes) != [] && Said(writes) <= c.wire[from..]
    ensures from < |c.wire| && c.wire[from] == Said(writes)[0] && Said(writes)[1..] <= c.wire[from + 1..]
  {
    assert c.wire[from..][0] == c.wire[from] && c.wire[from..][1..] == c.wire[from + 1..];
  }

  /** The text a client read: what the response had written, with keep-alives, cut somewhere. */
  ghost predicate IsRead(c: Streaming.Conn, codec: Codec, writes: seq<Write>, cut: nat, text: string) {
    && Said(writes) <= c.wire && Undoes(codec, writes)
    && cut <= |PrintAll(Items(codec, writes))| && text == PrintAll(Items(codec, writes))[..cut]
  }

  /** Of every reachable response, wherever it is cut, the text is free of gaps after the resume point. */
  lemma ResponseIsGapFree(s: Streaming.State, c: Streaming.Conn, codec: Codec, writes: seq<Write>, cut: nat, text: string)
    requires Streaming.Producer(s) && Streaming.Handler(s, c) && HarmlessEvents(s.events) && IsRead(c, codec, writes, cut, text)
    ensures GapFree(codec.decode, Parse(text), CanonEvents(codec, s.events), c.after)
  {
    SaidHarmless(s, c, writes);
    var n := CutPayloads(codec, writes, cut);
    SaidPrefix(writes, n);
    WholeStretch(c, Said(writes[..n]));
    StretchIsGapFree(s, c, codec, writes[..n], 0);
  }

  lemma WholeStretch(c: Streaming.Conn, msgs: seq<Message>)
    requires msgs <= c.wire
    ensures msgs <= c.wire[0..] && Streaming.Covered(c, 0) == c.after
  {
    assert c.wire[0..] == c.wire && c.wire[..0] == [];
  }

  // ---- a whole follow ---------------------------------------------------------------------------

  /** Some response of the daemon, resumed after a position, read to some byte. */
  ghost predicate IsServed(s: Streaming.State, codec: Codec, after: nat, text: string) {
    exists k, writes, cut :: k in s.conns && s.conns[k].after == after && IsRead(s.conns[k], codec, writes, cut, text)
  }

  /** Every body a follower reads is such a response, resumed after the last event it saw. */
  ghost predicate Served(s: Streaming.State, codec: Codec, f: Follower, responses: seq<Response>)
    decreases |responses|
  {
    responses == [] ||
    match responses[0]
    case Body(text, _, _) =>
      IsServed(s, codec, f.lastSeq, text) && Served(s, codec, RenderAll(f, codec.decode, Parse(text)), responses[1..])
    case _ => Served(s, codec, f, responses[1..])
  }

  lemma ServedIsGapFree(s: Streaming.State, codec: Codec, after: nat, text: string)
    requires Streaming.Inv(s) && HarmlessEvents(s.events) && IsServed(s, codec, after, text)
    ensures GapFree(codec.decode, Parse(text), CanonEvents(codec, s.events), after)
  {
    var k, writes, cut :| k in s.conns && s.conns[k].after == after && IsRead(s.conns[k], codec, writes, cut, text);
    ResponseIsGapFree(s, s.conns[k], codec, writes, cut, text);
  }

  /** What the daemon serves is what a follower has to rely on. */
  lemma {:induction false} ServedIsHonest(s: Streaming.State, codec: Codec, f: Follower, responses: seq<Response>)
    requires Streaming.Inv(s) && HarmlessEvents(s.events) && Served(s, codec, f, responses)
    ensures Honest(f, codec.decode, responses, CanonEvents(codec, s.events))
    decreases |responses|
  {
    if responses != [] {
      match responses[0]
      case Body(text, _, _) =>
        ServedIsGapFree(s, codec, f.lastSeq, text);
        ServedIsHonest(s, codec, RenderAll(f, codec.decode, Parse(text)), responses[1..]);
      case _ => ServedIsHonest(s, codec, f, responses[1..]);
    }
  }

  /**
   Over bytes: whatever the interleaving on the daemon's side, wherever each
   response is cut and however often the follower reconnects, it has rendered
   exactly the renderable ones of the first lastSeq events.
   */
  lemma ExactlyOnceOverBytes(actions: seq<Streaming.Action>, codec: Codec, responses: seq<Response>)
    requires Served(Streaming.Run(Streaming.INITIAL, actions), codec, NEW_FOLLOWER, responses)
    requires HarmlessEvents(Streaming.Run(Streaming.INITIAL, actions).events)
    ensures var s := Streaming.Run(Streaming.INITIAL, actions);
            var show := FollowRun(NEW_FOLLOWER, codec.decode, responses, 0).0;
            show.lastSeq <= |s.events| && show.rendered == Rendered(CanonEvents(codec, s.events), show.lastSeq)
  {
    Streaming.InitialHolds();
    Streaming.RunKeeps(Streaming.INITIAL, actions);
    var s := Streaming.Run(Streaming.INITIAL, actions);
    ServedIsHonest(s, codec, NEW_FOLLOWER, responses);
    ReconnectsInOrder(NEW_FOLLOWER, codec.decode, responses, CanonEvents(codec, s.events), 0);
  }

  // ---- a follow that ends --------------------------------------------------------------------------

  /** Done only with everything. */
  ghost predicate DoneWithAll(s: Streaming.State, codec: Codec, f: Follower) {
    f.done ==> s.status.Finished? && ShowsFirst(f, CanonEvents(codec, s.events), |s.events|)
  }

  /** Taking frames of a response in order, a follower is done only after the whole transcript. */
  lemma {:induction false} TakingIsDoneWithAll(s: Streaming.State, c: Streaming.Conn, codec: Codec, f: Follower, msgs: seq<Message>, from: nat)
    requires Streaming.Producer(s) && Streaming.Handler(s, c) && from <= |c.wire| && msgs <= c.wire[from..]
    requires ShowsFirst(f, CanonEvents(codec, s.events), Streaming.Covered(c, from)) && DoneWithAll(s, codec, f)
    ensures DoneWithAll(s, codec, RenderMessages(codec, f, msgs))
    decreases |msgs|
  {
    if msgs != [] && !f.done {
      assert c.wire[from..][0] == c.wire[from] && c.wire[from..][1..] == c.wire[from + 1..];
      Streaming.NextFrame(s, c, from);
      ReceivedInStep(codec, msgs[0], s.events, Streaming.Covered(c, from));
      RenderInStep(f, CanonEvents(codec, s.events), Streaming.Covered(c, from), Received(codec, msgs[0]));
      TakingIsDoneWithAll(s, c, codec, Render(f, Received(codec, msgs[0])), msgs[1..], from + 1);
    }
  }

  lemma BodyIsDoneWithAll(s: Streaming.State, codec: Codec, f: Follower, text: string)
    requires Streaming.Inv(s) && HarmlessEvents(s.events) && IsServed(s, codec, f.lastSeq, text)
    requires ShowsFirst(f, CanonEvents(codec, s.events), f.lastSeq) && DoneWithAll(s, codec, f)
    ensures DoneWithAll(s, codec, RenderAll(f, codec.decode, Parse(text)))
  {
    var k, writes, cut :| k in s.conns && s.conns[k].after == f.lastSeq && IsRead(s.conns[k], codec, writes, cut, text);
    var c := s.conns[k];
    SaidHarmless(s, c, writes);
    var n := CutResponseIsWholeFrames(codec, writes, cut, f);
    SaidPrefix(writes, n);
    WholeStretch(c, Said(writes[..n]));
    TakingIsDoneWithAll(s, c, codec, f, Said(writes[..n]), 0);
  }

  /** A follower between two responses: at its last event, and done only with everything. */
  ghost predicate Standing(s: Streaming.State, codec: Codec, f: Follower) {
    ShowsFirst(f, CanonEvents(codec, s.events), f.lastSeq) && DoneWithAll(s, codec, f)
  }

  /** Every body served leaves a follower standing. */
  ghost predicate BodiesLeaveStanding(s: Streaming.State, codec: Codec) {
    forall f, text | Standing(s, codec, f) && IsServed(s, codec, f.lastSeq, text) :: Standing(s, codec, RenderAll(f, codec.decode, Parse(text)))
  }

  lemma BodyLeavesStanding(s: Streaming.State, codec: Codec, f: Follower, text: string)
    requires Streaming.Inv(s) && HarmlessEvents(s.events) && IsServed(s, codec, f.lastSeq, text) && Standing(s, codec, f)
    ensures Standing(s, codec, RenderAll(f, codec.decode, Parse(text)))
  {
    BodyIsDoneWithAll(s, codec, f, text);
    ServedIsGapFree(s, codec, f.lastSeq, text);
    var k := BodyInOrder(f, codec.decode, Parse(text), CanonEvents(codec, s.events), f.lastSeq);
    RenderedStable(CanonEvents(codec, s.events), RenderAll(f, codec.decode, Parse(text)).lastSeq, k);
  }

  lemma {:induction false} FollowStands(s: Streaming.State, codec: Codec, f: Follower, responses: seq<Response>, attempt: nat)
    requires BodiesLeaveStanding(s, codec) && Served(s, codec, f, responses) && Standing(s, codec, f)
    ensures Standing(s, codec, FollowRun(f, codec.decode, responses, attempt).0)
    decreases |responses|
  {
    if responses != [] {
      match responses[0]
      case ApiError =>
      case Unreachable(interrupted, cutWait) =>
        if !interrupted && attempt < MAX_RECONNECTS && !cutWait {
          FollowStands(s, codec, f, responses[1..], attempt + 1);
        }
      case Body(text, interrupted, cutWait) =>
        var g := RenderAll(f, codec.decode, Parse(text));
        assert Standing(s, codec, g);
        if !g.done && !interrupted && !cutWait {
          FollowStands(s, codec, g, responses[1..], 1);
        }
    }
  }

  /** A follow that finishes, over bytes and reconnects, has rendered the whole transcript of a finished execution. */
  lemma FinishedOverBytes(actions: seq<Streaming.Action>, codec: Codec, responses: seq<Response>)
    requires Served(Streaming.Run(Streaming.INITIAL, actions), codec, NEW_FOLLOWER, responses)
    requires HarmlessEvents(Streaming.Run(Streaming.INITIAL, actions).events)
    requires FollowRun(NEW_FOLLOWER, codec.decode, responses, 0).0.done
    ensures var s := Streaming.Run(Streaming.INITIAL, actions);
            s.status.Finished? && FollowRun(NEW_FOLLOWER, codec.decode, responses, 0).0.rendered == Rendered(CanonEvents(codec, s.events), |s.events|)
  {
    Streaming.InitialHolds();
    Streaming.RunKeeps(Streaming.INITIAL, actions);
    var s := Streaming.Run(Streaming.INITIAL, actions);
    forall f, text | Standing(s, codec, f) && IsServed(s, codec, f.lastSeq, text) ensures Standing(s, codec, RenderAll(f, codec.decode, Parse(text))) {
      BodyLeavesStanding(s, codec, f, text);
    }
    FollowStands(s, codec, NEW_FOLLOWER, responses, 0);
  }
}
