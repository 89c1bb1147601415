/**
 Between the two ends of a stream: the resume point a follower asks for, and the
 bytes of the response. It joins the step machine, whose followers take whole
 frames, to the text that is printed, cut at any byte, and parsed.
 */
module Wire {
  import opened Common
  import opened Messages
  import Lines
  import opened Sse
  import opened Follow
  import Numbers = Texts

  // ---- the resume point ----------------------------------------------------------------

  /** A resume point as text: a number that is not negative. */
  function Position(text: string): Option<nat> {
    match Numbers.ParseInt(text)
    case None => None
    case Some(n) => if n >= 0 then Some(n) else None
  }

  /** The header first, then the query; anything unreadable counts as absent. */
  function ResumeFrom(header: string, query: string): nat {
    if header != "" && Position(header).Some? then Position(header).value
    else if query != "" && Position(query).Some? then Position(query).value
    else 0
  }

  /** The header a follower sends, empty before it has seen an event. */
  function LastEventID(lastSeq: nat): string {
    if lastSeq > 0 then Numbers.FormatInt(lastSeq) else ""
  }

  /** The daemon resumes exactly where the follower stopped. */
  lemma ResumesWhereItStopped(lastSeq: nat)
    requires lastSeq <= Numbers.MAX_INT64
    ensures ResumeFrom(LastEventID(lastSeq), "") == lastSeq
  {
    Numbers.ParseUndoesFormat(lastSeq);
    Numbers.DecimalRoundTrip(lastSeq);
  }

  /** A text that names no position: absent, no number of 64 bits, or a negative one. */
  predicate NoPosition(text: string) {
    text == "" || Numbers.ParseInt(text).None? || Numbers.ParseInt(text).value < 0
  }

  /** The header decides if it names a position, the query if only it does, and otherwise the stream starts at its beginning. */
  lemma ResumePoint(header: string, query: string, n: nat)
    requires n <= Numbers.MAX_INT64
    ensures ResumeFrom(Numbers.FormatInt(n), query) == n
    ensures NoPosition(header) ==> ResumeFrom(header, Numbers.FormatInt(n)) == n
    ensures NoPosition(header) && NoPosition(query) ==> ResumeFrom(header, query) == 0
  {
    Numbers.ParseUndoesFormat(n);
    Numbers.DecimalRoundTrip(n);
  }

  // ---- messages as frames -------------------------------------------------------------------

  /**
   JSON encoding of messages, the decoding, and what encoding makes of a payload:
   it takes out white space and escapes <, >, & and the two line separators.
   */
  datatype Codec = Codec(encode: Message -> string, decode: Unmarshal, canon: string -> string)

  /** The message as it arrives: its payload as encoding leaves it. */
  function Received(c: Codec, m: Message): Message {
    m.(payload := c.canon(m.payload))
  }

  /** The message survives encoding, up to the form of its payload, on one line. */
  predicate Survives(c: Codec, m: Message) {
    c.decode(c.encode(m)) == Some(Received(c, m)) && IsEncoded(c.encode(m))
  }

  /** Every message that is written survives. */
  ghost predicate Undoes(c: Codec, writes: seq<Write>) {
    forall i | 0 <= i < |writes| && writes[i].Say? :: Survives(c, writes[i].msg)
  }

  function EventName(m: Message): string {
    if m.kind == "" then "message" else m.kind
  }

  function FrameOf(c: Codec, m: Message): Frame {
    Frame(m.seqno, EventName(m), c.encode(m))
  }

  /** What is written to a response: keep-alives, and the frames of messages. */
  datatype Write = Beat | Say(msg: Message)

  function ItemOf(c: Codec, w: Write): Item {
    match w
    case Beat => KeepAlive
    case Say(m) => Sent(FrameOf(c, m))
  }

  function Items(c: Codec, writes: seq<Write>): seq<Item> {
    seq(|writes|, i requires 0 <= i < |writes| => ItemOf(c, writes[i]))
  }

  function Said(writes: seq<Write>): seq<Message> {
    if writes == [] then []
    else (match writes[0] case Beat => [] case Say(m) => [m]) + Said(writes[1..])
  }

  /** Taking the messages one by one as they arrive, until a terminal status. */
  function RenderMessages(c: Codec, f: Follower, msgs: seq<Message>): Follower
    decreases |msgs|
  {
    if msgs == [] || f.done then f else RenderMessages(c, Render(f, Received(c, msgs[0])), msgs[1..])
  }

  /** The lines a message is sent as. */
  lemma SentAs(c: Codec, m: Message)
    requires Survives(c, m) && '\n' !in m.kind
    ensures Lines.Split(Print(ItemOf(c, Say(m)))) ==
              (if m.seqno > 0 then ["id: " + Numbers.Decimal(m.seqno) + "\n"] else [])
              + ["event: " + (if m.kind == "" then "message" else m.kind) + "\n", "data: " + c.encode(m) + "\n", "\n"]
  {
    PrintedAs(FrameOf(c, m));
  }

  lemma ItemsTail(c: Codec, writes: seq<Write>)
    requires writes != []
    ensures Items(c, writes)[1..] == Items(c, writes[1..]) && Items(c, writes)[0] == ItemOf(c, writes[0])
  {
  }

  lemma PayloadsFirst(items: seq<Item>)
    requires items != []
    ensures Payloads(items) == (if items[0].Sent? then [items[0].frame.payload] else []) + Payloads(items[1..])
  {
    assert Pieces(items)[1..] == Pieces(items[1..]);
  }

  lemma BeatFirst(c: Codec, writes: seq<Write>)
    requires writes != [] && writes[0].Beat?
    ensures Payloads(Items(c, writes)) == Payloads(Items(c, writes[1..])) && Said(writes) == Said(writes[1..])
  {
    ItemsTail(c, writes);
    PayloadsFirst(Items(c, writes));
    NoneFirst(Payloads(Items(c, writes[1..])));
    NoneFirst(Said(writes[1..]));
  }

  lemma SayFirst(c: Codec, writes: seq<Write>)
    requires writes != [] && writes[0].Say?
    ensures var payloads := Payloads(Items(c, writes));
            payloads != [] && payloads[0] == c.encode(writes[0].msg) && payloads[1..] == Payloads(Items(c, writes[1..]))
    ensures Said(writes) != [] && Said(writes)[0] == writes[0].msg && Said(writes)[1..] == Said(writes[1..])
  {
    ItemsTail(c, writes);
    PayloadsFirst(Items(c, writes));
  }

  /** Rendering the payloads of complete frames is taking their messages. */
  lemma {:induction false} PayloadsAreMessages(c: Codec, writes: seq<Write>, f: Follower)
    requires Undoes(c, writes)
    ensures RenderAll(f, c.decode, Payloads(Items(c, writes))) == RenderMessages(c, f, Said(writes))
    decreases |writes|
  {
    if writes != [] {
      match writes[0]
      case Beat =>
        BeatFirst(c, writes);
        PayloadsAreMessages(c, writes[1..], f);
      case Say(m) =>
        SayFirst(c, writes);
        PayloadsAreMessages(c, writes[1..], Render(f, Received(c, m)));
    }
  }

  /** No event name breaks its frame. */
  ghost predicate NamesAreHarmless(writes: seq<Write>) {
    forall i | 0 <= i < |writes| && writes[i].Say? :: Harmless(EventName(writes[i].msg))
  }

  /** A response cut at any byte carries the payloads of its complete frames. */
  lemma CutPayloads(c: Codec, writes: seq<Write>, k: nat) returns (n: nat)
    requires Undoes(c, writes) && NamesAreHarmless(writes) && k <= |PrintAll(Items(c, writes))|
    ensures n <= |writes| && Parse(PrintAll(Items(c, writes))[..k]) == Payloads(Items(c, writes[..n]))
    ensures k == |PrintAll(Items(c, writes))| ==> n == |writes|
  {
    var items := Items(c, writes);
    CutIsPrefix(items, k);
    n := Whole(Pieces(items), k);
    assert items[..n] == Items(c, writes[..n]);
    if k == |PrintAll(items)| {
      AllWhole(Pieces(items));
    }
  }

  /**
   A response cut at any byte shows a follower exactly what taking some number
   of its leading messages whole would have shown.
   */
  lemma CutResponseIsWholeFrames(c: Codec, writes: seq<Write>, k: nat, f: Follower) returns (n: nat)
    requires Undoes(c, writes) && NamesAreHarmless(writes) && k <= |PrintAll(Items(c, writes))|
    ensures n <= |writes|
    ensures RenderAll(f, c.decode, Parse(PrintAll(Items(c, writes))[..k])) == RenderMessages(c, f, Said(writes[..n]))
    ensures k == |PrintAll(Items(c, writes))| ==> n == |writes|
  {
    n := CutPayloads(c, writes, k);
    PayloadsAreMessages(c, writes[..n], f);
  }

  /** Text that is all there has all its pieces. */
  lemma {:induction false} AllWhole(ps: seq<Piece>)
    ensures Whole(ps, |Texts(ps)|) == |ps|
  {
    if ps != [] {
      AllWhole(ps[1..]);
    }
  }
}
