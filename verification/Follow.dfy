/**
 The follower: it parses response bodies, renders each transcript event once,
 and reconnects from the last sequence number it saw.
 */
module Follow {
  import opened Common
  import opened Messages
  import opened Lines
  import opened Sse

  const MAX_RECONNECTS := 5

  /** What a follow has shown so far; done once a terminal status arrived. */
  datatype Follower = Follower(lastSeq: nat, rendered: seq<Message>, done: bool)

  const NEW_FOLLOWER := Follower(0, [], false)

  /** JSON decoding of a payload; None when it is malformed. */
  type Unmarshal = string -> Option<Message>

  function Render(f: Follower, msg: Message): Follower {
    if msg.kind == STATUS then (if msg.terminal then f.(done := true) else f)
    else if msg.seqno != 0 && msg.seqno <= f.lastSeq then f
    else f.(rendered := f.rendered + [msg], lastSeq := if msg.seqno > f.lastSeq then msg.seqno else f.lastSeq)
  }

  function RenderPayload(f: Follower, decode: Unmarshal, payload: string): Follower {
    match decode(payload)
    case None => f
    case Some(msg) => Render(f, msg)
  }

  /** Rendering stops at a terminal status. */
  function RenderAll(f: Follower, decode: Unmarshal, payloads: seq<string>): Follower
    decreases |payloads|
  {
    if payloads == [] || f.done then f
    else RenderAll(RenderPayload(f, decode, payloads[0]), decode, payloads[1..])
  }

  /** A payload that ends the follow: any status that is terminal, whichever it is. */
  predicate EndsFollow(decode: Unmarshal, payload: string) {
    match decode(payload)
    case None => false
    case Some(msg) => msg.kind == "status" && msg.terminal
  }

  /** Some payload of the body ends the follow. */
  ghost predicate TellsEnd(decode: Unmarshal, payloads: seq<string>) {
    exists i :: 0 <= i < |payloads| && EndsFollow(decode, payloads[i])
  }

  /** A follower is done exactly when something it was given ends the follow. */
  lemma {:induction false} DoneIffTold(f: Follower, decode: Unmarshal, payloads: seq<string>)
    ensures RenderAll(f, decode, payloads).done <==> f.done || TellsEnd(decode, payloads)
    decreases |payloads|
  {
    if payloads != [] && !f.done {
      DoneIffTold(RenderPayload(f, decode, payloads[0]), decode, payloads[1..]);
      TellsFirst(decode, payloads);
    }
  }

  lemma TellsFirst(decode: Unmarshal, payloads: seq<string>)
    requires payloads != []
    ensures TellsEnd(decode, payloads) <==> EndsFollow(decode, payloads[0]) || TellsEnd(decode, payloads[1..])
  {
    if i :| 0 <= i < |payloads| && EndsFollow(decode, payloads[i]) && i > 0 {
      assert payloads[1..][i - 1] == payloads[i];
    }
  }

  // ---- reading one response body --------------------------------------------------------

  /** One line of the body, fed to the frame buffer. */
  lemma FeedOne(f: Follower, decode: Unmarshal, s: string, data: string)
    requires s != "" && !f.done
    ensures var n := LineLength(s); var fed := Feed(data, s[..n]);
            RenderAll(f, decode, Dispatch(Split(s), data)) ==
            RenderAll(if fed.1 == [] then f else RenderPayload(f, decode, fed.1[0]), decode, Dispatch(Split(s[n..]), fed.0))
  {
    var n := LineLength(s);
    var fed := Feed(data, s[..n]);
    var more := Dispatch(Split(s[n..]), fed.0);
    assert Split(s)[1..] == Split(s[n..]);
    assert Dispatch(Split(s), data) == fed.1 + more;
    if fed.1 == [] {
      assert fed.1 + more == more;
    } else {
      assert fed.1 == [data];
      assert (fed.1 + more)[1..] == more;
    }
  }

  /** The buffer after one line, and the frame the line completes. */
  method FeedLine(data: string, raw: string) returns (after: string, frame: Option<string>)
    ensures Feed(data, raw).0 == after && Feed(data, raw).1 == if frame.Some? then [frame.value] else []
  {
    var line := Strip(raw);
    if line != "" && line[0] == ':' {
      return data, None;
    }
    if line == "" {
      return "", if data == "" then None else Some(data);
    }
    var field, value := Cut(line).0, TrimSpace(Cut(line).1);
    after := data;
    if field == "data" {
      if after != "" {
        after := after + "\n";
      }
      after := after + value;
    }
    frame := None;
  }

  /** Reads a body to its end or to a terminal status. */
  method Consume(r: Reader, decode: Unmarshal, start: Follower) returns (f: Follower)
    requires !start.done
    modifies r
    ensures f == RenderAll(start, decode, Parse(old(r.rest)))
    ensures f.done <==> TellsEnd(decode, Parse(old(r.rest)))
  {
    f := start;
    var data := "";
    ghost var all := RenderAll(start, decode, Parse(r.rest));
    DoneIffTold(start, decode, Parse(r.rest));
    while true
      invariant !f.done
      invariant all == RenderAll(f, decode, Dispatch(Split(r.rest), data))
      decreases |r.rest|
    {
      ghost var before := r.rest;
      var line := ReadLine(r);
      if line.None? {
        return;
      }
      FeedOne(f, decode, before, data);
      assert before[LineLength(before)..] == r.rest;
      var frame;
      data, frame := FeedLine(data, line.value);
      if frame.Some? {
        f := RenderPayload(f, decode, frame.value);
        if f.done {
          return;
        }
      }
    }
  }

  // ---- rendering against a transcript -----------------------------------------------------

  /** The frames of the first n events that are rendered: events typed as status are not. */
  function Rendered(events: seq<Event>, n: nat): seq<Message>
    requires n <= |events|
  {
    if n == 0 then []
    else Rendered(events, n - 1) + if events[n - 1].kind == STATUS then [] else [EventFrame(n, events[n - 1])]
  }

  /** The follower has shown exactly the first n events, up to trailing unrendered ones. */
  ghost predicate ShowsFirst(f: Follower, events: seq<Event>, n: nat) {
    && f.lastSeq <= n <= |events|
    && (forall i | f.lastSeq <= i < n :: events[i].kind == STATUS)
    && f.rendered == Rendered(events, n)
  }

  /** A frame that does not run ahead of the first n events: a status or an event up to n + 1. */
  ghost predicate InStep(msg: Message, events: seq<Event>, n: nat) {
    if msg.seqno == 0 then msg.kind == STATUS
    else msg.seqno <= n + 1 && msg.seqno <= |events| && msg == EventFrame(msg.seqno, events[msg.seqno - 1])
  }

  function Reached(msg: Message, n: nat): nat {
    if msg.seqno > n then msg.seqno else n
  }

  lemma {:induction false} RenderedStable(events: seq<Event>, a: nat, b: nat)
    requires a <= b <= |events| && forall i | a <= i < b :: events[i].kind == STATUS
    ensures Rendered(events, a) == Rendered(events, b)
    decreases b - a
  {
    if a < b {
      RenderedStable(events, a, b - 1);
    }
  }

  lemma {:induction false} RenderedPrefix(events: seq<Event>, more: seq<Event>, n: nat)
    requires n <= |events| && events <= more
    ensures Rendered(events, n) == Rendered(more, n)
  {
    if n > 0 {
      RenderedPrefix(events, more, n - 1);
    }
  }

  /** A frame in step is rendered once if it is new and not at all if it is a repeat. */
  lemma RenderInStep(f: Follower, events: seq<Event>, n: nat, msg: Message)
    requires ShowsFirst(f, events, n) && InStep(msg, events, n)
    ensures ShowsFirst(Render(f, msg), events, Reached(msg, n))
  {
    if msg.seqno > n {
      assert Rendered(events, n + 1) ==
             Rendered(events, n) + if events[n].kind == STATUS then [] else [EventFrame(n + 1, events[n])];
    }
  }

  /**
   Of any message: a status is never rendered, and of the others all but those
   whose number was reached before; the position only moves forward, to the
   number of what is rendered.
   */
  lemma RenderedIff(f: Follower, msg: Message)
    ensures var g := Render(f, msg);
            && (g.rendered == f.rendered + [msg] <==> msg.kind != "status" && (msg.seqno == 0 || msg.seqno > f.lastSeq))
            && (g.rendered == f.rendered || g.rendered == f.rendered + [msg])
            && (g.lastSeq == if msg.kind != "status" && msg.seqno > f.lastSeq then msg.seqno else f.lastSeq)
            && (g.done <==> f.done || (msg.kind == "status" && msg.terminal))
  {
  }

  /** Frames without gaps, though possibly with repeats, after the first n events. */
  ghost predicate GapFree(decode: Unmarshal, payloads: seq<string>, events: seq<Event>, n: nat)
  {
    payloads == [] ||
    match decode(payloads[0])
    case None => GapFree(decode, payloads[1..], events, n)
    case Some(msg) => InStep(msg, events, n) && GapFree(decode, payloads[1..], events, Reached(msg, n))
  }

  /** Whatever repeats a body carries, each event is rendered once and in order. */
  lemma {:induction false} BodyInOrder(f: Follower, decode: Unmarshal, payloads: seq<string>, events: seq<Event>, n: nat)
    returns (k: nat)
    requires ShowsFirst(f, events, n) && GapFree(decode, payloads, events, n)
    ensures ShowsFirst(RenderAll(f, decode, payloads), events, k)
    decreases |payloads|
  {
    if payloads == [] || f.done {
      return n;
    }
    match decode(payloads[0])
    case None =>
      k := BodyInOrder(f, decode, payloads[1..], events, n);
    case Some(msg) =>
      RenderInStep(f, events, n, msg);
      k := BodyInOrder(Render(f, msg), decode, payloads[1..], events, Reached(msg, n));
  }

  // ---- reconnecting ---------------------------------------------------------------------------

  /**
   One connection attempt's outcome; a body may end early. The user may interrupt
   the attempt, or the wait before the next one.
   */
  datatype Response =
    | ApiError
    | Unreachable(interrupted: bool, cutWait: bool)
    | Body(text: string, interrupted: bool, cutWait: bool)

  datatype Outcome = Finished | Refused | Interrupted | GaveUp | Following

  /** The follow after the given responses; retries counts attempts since the last body. */
  function FollowRun(f: Follower, decode: Unmarshal, responses: seq<Response>, attempt: nat): (Follower, Outcome)
    decreases |responses|
  {
    if responses == [] then (f, Following)
    else match responses[0]
      case ApiError => (f, Refused)
      case Unreachable(interrupted, cutWait) =>
        if interrupted then (f, Interrupted)
        else if attempt >= MAX_RECONNECTS then (f, GaveUp)
        else if cutWait then (f, Interrupted)
        else FollowRun(f, decode, responses[1..], attempt + 1)
      case Body(text, interrupted, cutWait) =>
        var g := RenderAll(f, decode, Parse(text));
        if g.done then (g, Finished)
        else if interrupted || cutWait then (g, Interrupted)
        else FollowRun(g, decode, responses[1..], 1)
  }

  /** The reconnect loop over the responses the daemon gives it, each asked for after lastSeq. */
  method FollowExecution(responses: seq<Response>, end: End, decode: Unmarshal) returns (f: Follower, outcome: Outcome)
    ensures (f, outcome) == FollowRun(NEW_FOLLOWER, decode, responses, 0)
    ensures outcome.Finished? <==> exists n :: 0 <= n < |responses| && FinishesAt(decode, responses, n)
    ensures f.done <==> outcome.Finished?
  {
    FinishedIff(decode, responses);
    f := NEW_FOLLOWER;
    var attempt := 0;
    for i := 0 to |responses|
      invariant !f.done
      invariant FollowRun(NEW_FOLLOWER, decode, responses, 0) == FollowRun(f, decode, responses[i..], attempt)
    {
      assert responses[i..][1..] == responses[i + 1..];
      match responses[i] {
      case ApiError =>
        return f, Refused;
      case Unreachable(interrupted, cutWait) =>
        if interrupted {
          return f, Interrupted;
        }
        if attempt >= MAX_RECONNECTS {
          return f, GaveUp;
        }
        if cutWait {
          return f, Interrupted;
        }
      case Body(text, interrupted, cutWait) =>
        var r := new Reader(text, end);
        f := Consume(r, decode, f);
        if f.done {
          return f, Finished;
        }
        if interrupted {
          return f, Interrupted;
        }
        attempt := 0;
        if cutWait {
          return f, Interrupted;
        }
      }
      attempt := attempt + 1;
    }
    outcome := Following;
  }

  /** Every body asked for after n events carries frames without gaps after them. */
  ghost predicate Honest(f: Follower, decode: Unmarshal, responses: seq<Response>, events: seq<Event>)
    decreases |responses|
  {
    responses == [] ||
    match responses[0]
    case Body(text, _, _) =>
      && GapFree(decode, Parse(text), events, f.lastSeq)
      && Honest(RenderAll(f, decode, Parse(text)), decode, responses[1..], events)
    case _ => Honest(f, decode, responses[1..], events)
  }

  /** Over any number of reconnects, the events rendered are the first of the transcript, each once. */
  lemma {:induction false} ReconnectsInOrder(f: Follower, decode: Unmarshal, responses: seq<Response>,
                                             events: seq<Event>, attempt: nat)
    requires ShowsFirst(f, events, f.lastSeq) && Honest(f, decode, responses, events)
    ensures var g := FollowRun(f, decode, responses, attempt).0; ShowsFirst(g, events, g.lastSeq)
    decreases |responses|
  {
    if responses != [] {
      match responses[0]
      case ApiError =>
      case Unreachable(interrupted, cutWait) =>
        if !interrupted && attempt < MAX_RECONNECTS && !cutWait {
          ReconnectsInOrder(f, decode, responses[1..], events, attempt + 1);
        }
      case Body(text, interrupted, cutWait) =>
        var g := RenderAll(f, decode, Parse(text));
        var k := BodyInOrder(f, decode, Parse(text), events, f.lastSeq);
        RenderedStable(events, g.lastSeq, k);
        if !g.done && !interrupted && !cutWait {
          ReconnectsInOrder(g, decode, responses[1..], events, 1);
        }
    }
  }

  // ---- how a follow ends ------------------------------------------------------------------------

  /** Five connections in a row have been used up when response n fails: n fails, and the four before it failed. */
  predicate IsExhausted(responses: seq<Response>, n: nat)
    requires n <= |responses|
  {
    n >= 5 && forall i | n - 4 <= i < n :: responses[i].Unreachable?
  }

  /** Response n does not end the follow. */
  ghost predicate GoesOn(decode: Unmarshal, responses: seq<Response>, n: nat)
    requires n < |responses|
  {
    match responses[n]
    case ApiError => false
    case Unreachable(interrupted, cutWait) => !interrupted && !IsExhausted(responses, n) && !cutWait
    case Body(text, interrupted, cutWait) => !TellsEnd(decode, Parse(text)) && !interrupted && !cutWait
  }

  /** Response n is asked for: nothing before it ended the follow. */
  ghost predicate IsReached(decode: Unmarshal, responses: seq<Response>, n: nat) {
    n <= |responses| && forall i | 0 <= i < n :: GoesOn(decode, responses, i)
  }

  ghost predicate FinishesAt(decode: Unmarshal, responses: seq<Response>, n: nat)
    requires n < |responses|
  {
    IsReached(decode, responses, n) && responses[n].Body? && TellsEnd(decode, Parse(responses[n].text))
  }

  /** The connection count of the loop when it asks for response n. */
  function AttemptAt(responses: seq<Response>, n: nat, attempt: nat): nat
    requires n <= |responses|
  {
    if n == 0 then attempt
    else if responses[n - 1].Body? then 1
    else AttemptAt(responses, n - 1, attempt) + 1
  }

  lemma {:induction false} AttemptTail(responses: seq<Response>, n: nat, attempt: nat)
    requires 0 < n <= |responses|
    ensures AttemptAt(responses[1..], n - 1, AttemptAt(responses, 1, attempt)) == AttemptAt(responses, n, attempt)
  {
    if n > 1 {
      AttemptTail(responses, n - 1, attempt);
      assert responses[1..][n - 2] == responses[n - 1];
    }
  }

  /** Counted from the start of the follow, it is over k exactly when the k responses before were failures, and not the first ones. */
  lemma {:induction false} AttemptsOver(responses: seq<Response>, n: nat, k: nat)
    requires n <= |responses| && forall i | 0 <= i < n :: !responses[i].ApiError?
    ensures AttemptAt(responses, n, 0) > k <==> n > k && forall i | n - k <= i < n :: responses[i].Unreachable?
  {
    if n > 0 && k > 0 {
      AttemptsOver(responses, n - 1, k - 1);
    }
  }

  /** What response n makes of a follow that gets that far, on its attempt-th connection. */
  ghost function EndsIn(decode: Unmarshal, r: Response, attempt: nat): Outcome {
    match r
    case ApiError => Refused
    case Unreachable(interrupted, cutWait) =>
      if interrupted then Interrupted else if attempt >= 5 then GaveUp else if cutWait then Interrupted else Following
    case Body(text, interrupted, cutWait) =>
      if TellsEnd(decode, Parse(text)) then Finished else if interrupted || cutWait then Interrupted else Following
  }

  lemma {:induction false} FollowStops(f: Follower, decode: Unmarshal, responses: seq<Response>, attempt: nat, n: nat)
    requires !f.done && n <= |responses|
    requires forall i | 0 <= i < n :: EndsIn(decode, responses[i], AttemptAt(responses, i, attempt)).Following?
    requires n < |responses| ==> !EndsIn(decode, responses[n], AttemptAt(responses, n, attempt)).Following?
    ensures var (g, outcome) := FollowRun(f, decode, responses, attempt);
            && outcome == (if n == |responses| then Following else EndsIn(decode, responses[n], AttemptAt(responses, n, attempt)))
            && (g.done <==> outcome.Finished?)
    decreases |responses|
  {
    if responses != [] {
      var next := AttemptAt(responses, 1, attempt);
      if responses[0].Body? {
        DoneIffTold(f, decode, Parse(responses[0].text));
      }
      if n > 0 {
        assert EndsIn(decode, responses[0], AttemptAt(responses, 0, attempt)).Following?;
        forall i: nat | 0 < i <= n ensures AttemptAt(responses[1..], i - 1, next) == AttemptAt(responses, i, attempt) {
          AttemptTail(responses, i, attempt);
        }
        FollowStops(if responses[0].Body? then RenderAll(f, decode, Parse(responses[0].text)) else f, decode, responses[1..], next, n - 1);
      }
    }
  }

  /** The first response that ends the follow, or their number. */
  lemma FirstStop(decode: Unmarshal, responses: seq<Response>) returns (n: nat)
    ensures IsReached(decode, responses, n) && (n < |responses| ==> !GoesOn(decode, responses, n))
  {
    n := 0;
    while n < |responses| && GoesOn(decode, responses, n)
      invariant IsReached(decode, responses, n)
    {
      n := n + 1;
    }
  }

  lemma GoesOnIs(decode: Unmarshal, responses: seq<Response>, n: nat)
    requires n < |responses| && forall i | 0 <= i < n :: !responses[i].ApiError?
    ensures GoesOn(decode, responses, n) <==> EndsIn(decode, responses[n], AttemptAt(responses, n, 0)).Following?
  {
    AttemptsOver(responses, n, 4);
  }

  /**
   How a follow ends: the first response that does not let it go on decides. A
   refusal ends it; so does a body with a terminal status, whichever status; so
   does an interruption; and a failed connection gives up exactly when it is the
   fifth in a row after a body, or the sixth from the start.
   */
  lemma FollowEnds(decode: Unmarshal, responses: seq<Response>, n: nat)
    requires IsReached(decode, responses, n) && (n < |responses| ==> !GoesOn(decode, responses, n))
    ensures var (g, outcome) := FollowRun(NEW_FOLLOWER, decode, responses, 0);
            && (g.done <==> outcome.Finished?)
            && outcome ==
                 if n == |responses| then Following
                 else match responses[n]
                   case ApiError => Refused
                   case Unreachable(interrupted, _) => (if !interrupted && IsExhausted(responses, n) then GaveUp else Interrupted)
                   case Body(text, _, _) => (if TellsEnd(decode, Parse(text)) then Finished else Interrupted)
  {
    forall i | 0 <= i < n ensures !responses[i].ApiError? {
      assert GoesOn(decode, responses, i);
    }
    forall i: nat | i < n ensures EndsIn(decode, responses[i], AttemptAt(responses, i, 0)).Following? {
      assert GoesOn(decode, responses, i);
      GoesOnIs(decode, responses, i);
    }
    if n < |responses| {
      GoesOnIs(decode, responses, n);
      AttemptsOver(responses, n, 4);
    }
    FollowStops(NEW_FOLLOWER, decode, responses, 0, n);
  }

  /** Nothing is asked for after a response that ends the follow. */
  lemma StopIsLast(decode: Unmarshal, responses: seq<Response>, m: nat, n: nat)
    requires IsReached(decode, responses, m) && n < |responses| && !GoesOn(decode, responses, n)
    ensures m <= n
  {
  }

  /** A follow finishes if and only if a body that it gets to read carries a terminal status. */
  lemma FinishedIff(decode: Unmarshal, responses: seq<Response>)
    ensures var (g, outcome) := FollowRun(NEW_FOLLOWER, decode, responses, 0);
            && (outcome.Finished? <==> exists n :: 0 <= n < |responses| && FinishesAt(decode, responses, n))
            && (g.done <==> outcome.Finished?)
  {
    var m := FirstStop(decode, responses);
    FollowEnds(decode, responses, m);
    forall n: nat | n < |responses| && FinishesAt(decode, responses, n) ensures n == m {
      StopIsLast(decode, responses, m, n);
      if m < |responses| {
        StopIsLast(decode, responses, n, m);
      }
    }
    assert m < |responses| && responses[m].Body? && TellsEnd(decode, Parse(responses[m].text)) ==> FinishesAt(decode, responses, m);
  }

  /** The connection that fails with response n is the fifth in a row after a body, or the sixth from the start. */
  ghost predicate GivesUpAt(decode: Unmarshal, responses: seq<Response>, n: nat) {
    && 5 <= n < |responses| && IsReached(decode, responses, n) && responses[n].Unreachable? && !responses[n].interrupted
    && forall i | n - 4 <= i < n :: responses[i].Unreachable?
  }

  /** A follow gives up if and only if some failed connection is the last it has. */
  lemma GivesUpAfterFailures(decode: Unmarshal, responses: seq<Response>)
    ensures FollowRun(NEW_FOLLOWER, decode, responses, 0).1.GaveUp? <==> exists n: nat :: GivesUpAt(decode, responses, n)
  {
    var m := FirstStop(decode, responses);
    FollowEnds(decode, responses, m);
    forall n: nat | GivesUpAt(decode, responses, n) ensures n == m {
      StopIsLast(decode, responses, m, n);
      if m < |responses| {
        StopIsLast(decode, responses, n, m);
      }
    }
    assert m < |responses| && responses[m].Unreachable? && !responses[m].interrupted && IsExhausted(responses, m) ==> GivesUpAt(decode, responses, m);
  }
}
