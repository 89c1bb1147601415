/**
 Server-Sent Events as the daemon prints them and the follower parses them
 (the subset of sections 9.2.5 and 9.2.6 of the WHATWG HTML Living Standard
 that the two ends use). A payload is an encoded message: one line of JSON.
 */
module Sse {
  import opened Lines
  import Chars = Texts

  /** One event frame; seqno 0 prints no id. */
  datatype Frame = Frame(seqno: nat, name: string, payload: string)

  datatype Item = KeepAlive | Sent(frame: Frame)

  // ---- printing ----------------------------------------------------------------------

  function Head(f: Frame): string {
    (if f.seqno > 0 then "id: " + Chars.Decimal(f.seqno) + "\n" else "") + ("event: " + f.name + "\n")
  }

  function DataLine(f: Frame): string {
    "data: " + f.payload + "\n"
  }

  function Print(item: Item): string {
    match item
    case KeepAlive => ": keep-alive\n\n"
    case Sent(f) => Head(f) + DataLine(f) + "\n"
  }

  /** Printed text together with the payloads it stands for. */
  datatype Piece = Piece(text: string, own: seq<string>)

  function PieceOf(item: Item): Piece {
    Piece(Print(item), if item.Sent? then [item.frame.payload] else [])
  }

  function Pieces(items: seq<Item>): seq<Piece> {
    seq(|items|, i requires 0 <= i < |items| => PieceOf(items[i]))
  }

  function Texts(pieces: seq<Piece>): string {
    if pieces == [] then "" else pieces[0].text + Texts(pieces[1..])
  }

  function Owned(pieces: seq<Piece>): seq<string> {
    if pieces == [] then [] else pieces[0].own + Owned(pieces[1..])
  }

  /** The response body that carries the items, and the payloads it is meant to carry. */
  function PrintAll(items: seq<Item>): string {
    Texts(Pieces(items))
  }

  function Payloads(items: seq<Item>): seq<string> {
    Owned(Pieces(items))
  }

  // ---- parsing -----------------------------------------------------------------------

  /** The line without its trailing carriage returns and line feeds. */
  function Strip(line: string): (s: string)
    ensures s <= line
    ensures s == "" || (s[|s| - 1] != '\r' && s[|s| - 1] != '\n')
  {
    if line != "" && (line[|line| - 1] == '\r' || line[|line| - 1] == '\n') then Strip(line[..|line| - 1]) else line
  }

  /** What stands before the first colon, and what follows it. */
  function Cut(s: string): (string, string) {
    match Chars.CutAt(s, ':')
    case None => (s, "")
    case Some(parts) => parts
  }

  function TrimSpace(s: string): string {
    if s != "" && s[0] == ' ' then s[1..] else s
  }

  /** The follower's buffer and dispatches after one line. */
  function Feed(data: string, line: string): (string, seq<string>) {
    var s := Strip(line);
    if s != "" && s[0] == ':' then (data, [])
    else if s == "" then (if data == "" then ("", []) else ("", [data]))
    else if Cut(s).0 == "data" then
      (if data != "" then data + "\n" + TrimSpace(Cut(s).1) else TrimSpace(Cut(s).1), [])
    else (data, [])
  }

  function Dispatch(lines: seq<string>, data: string): seq<string> {
    if lines == [] then []
    else Feed(data, lines[0]).1 + Dispatch(lines[1..], Feed(data, lines[0]).0)
  }

  function Pending(lines: seq<string>, data: string): string {
    if lines == [] then data else Pending(lines[1..], Feed(data, lines[0]).0)
  }

  /** The payloads a follower sees in a whole response body. */
  function Parse(body: string): seq<string> {
    Dispatch(Split(body), "")
  }

  lemma {:induction false} DispatchAppend(xs: seq<string>, ys: seq<string>, data: string)
    ensures Dispatch(xs + ys, data) == Dispatch(xs, data) + Dispatch(ys, Pending(xs, data))
    ensures Pending(xs + ys, data) == Pending(ys, Pending(xs, data))
  {
    if xs == [] {
      assert xs + ys == ys;
    } else {
      assert (xs + ys)[1..] == xs[1..] + ys;
      DispatchAppend(xs[1..], ys, Feed(data, xs[0]).0);
    }
  }

  // ---- which frames survive ------------------------------------------------------------

  predicate CarriesData(line: string) {
    var s := Strip(line);
    s != "" && s[0] != ':' && Cut(s).0 == "data"
  }

  /** What a line adds to the data of its frame. */
  function DataValue(line: string): string {
    if CarriesData(line) then TrimSpace(Cut(Strip(line)).1) else ""
  }

  predicate Quiet(line: string) {
    DataValue(line) == ""
  }

  ghost predicate AllQuiet(lines: seq<string>) {
    forall i | 0 <= i < |lines| :: Quiet(lines[i])
  }

  /**
   An event name is printed as it stands, so the lines it breaks into after the
   first are parsed as fields; it is harmless when none of them carries data.
   */
  ghost predicate Harmless(name: string) {
    AllQuiet(Split(name + "\n")[1..])
  }

  /** What JSON encoding guarantees of a payload. */
  predicate IsEncoded(payload: string) {
    payload != "" && '\n' !in payload && '\r' !in payload
  }

  ghost predicate Printable(items: seq<Item>) {
    forall i | 0 <= i < |items| && items[i].Sent? :: IsEncoded(items[i].frame.payload)
  }

  ghost predicate AllHarmless(items: seq<Item>) {
    forall i | 0 <= i < |items| :: Clean(items[i])
  }

  predicate IsData(s: string) {
    "data" <= s && (|s| == 4 || s[4] == ':')
  }

  lemma CutIs(s: string, field: string)
    requires ':' !in field
    ensures Cut(s).0 == field <==> field <= s && (|s| == |field| || s[|field|] == ':')
    ensures Cut(s).0 == field ==> Cut(s).1 == if |s| > |field| then s[|field| + 1..] else ""
  {
    Chars.CutJoins(s, ':');
    if Chars.CutAt(s, ':').Some? {
      var (before, after) := Chars.CutAt(s, ':').value;
      assert s[|before|] == ':' && s[..|before|] == before && s[|before| + 1..] == after;
      assert forall i | 0 <= i < |field| :: field[i] in field;
      assert forall i | 0 <= i < |before| :: s[i] == before[i] && before[i] in before;
      assert field <= s ==> forall i | 0 <= i < |field| :: s[i] == field[i];
    }
  }

  lemma DataValueIs(line: string)
    ensures var s := Strip(line); DataValue(line) == if IsData(s) && |s| > 5 then TrimSpace(s[5..]) else ""
  {
    CutIs(Strip(line), "data");
  }

  lemma NotData(line: string)
    requires line != "" && line[0] != 'd'
    ensures Quiet(line)
  {
    DataValueIs(line);
  }

  /** A quiet line cut short is still quiet. */
  lemma QuietPrefix(line: string, k: nat)
    requires Quiet(line) && k <= |line|
    ensures Quiet(line[..k])
  {
    var s, t := Strip(line), Strip(line[..k]);
    DataValueIs(line);
    DataValueIs(line[..k]);
    StripShorter(line, k);
    if IsData(t) && |t| > 5 {
      assert s[..5] == t[..5];
    }
  }

  lemma {:induction false} StripShorter(line: string, k: nat)
    requires k <= |line|
    ensures Strip(line[..k]) <= Strip(line)
    decreases |line|
  {
    if k < |line| {
      var last := |line| - 1;
      assert line[..last][..k] == line[..k];
      if Strip(line) != line {
        StripShorter(line[..last], k);
      }
    } else {
      assert line[..k] == line;
    }
  }

  lemma {:induction false} QuietRun(lines: seq<string>)
    requires AllQuiet(lines)
    ensures Dispatch(lines, "") == [] && Pending(lines, "") == ""
  {
    if lines != [] {
      assert Quiet(lines[0]);
      assert Feed("", lines[0]) == ("", []);
      QuietRun(lines[1..]);
    }
  }

  function Total(texts: seq<string>): nat {
    if texts == [] then 0 else |texts[0]| + Total(texts[1..])
  }

  lemma {:induction false} TotalAppend(xs: seq<string>, ys: seq<string>)
    ensures Total(xs + ys) == Total(xs) + Total(ys)
  {
    if xs == [] {
      assert xs + ys == ys;
    } else {
      assert (xs + ys)[1..] == xs[1..] + ys;
      TotalAppend(xs[1..], ys);
    }
  }

  lemma TotalOne(text: string)
    ensures Total([text]) == |text|
  {
    assert [text][1..] == [];
  }

  function DataVolume(lines: seq<string>): nat {
    if lines == [] then 0 else |DataValue(lines[0])| + DataVolume(lines[1..])
  }

  /** Nothing a data line carries is lost: it is dispatched or still pending. */
  lemma {:induction false} VolumeKept(lines: seq<string>, data: string)
    ensures Total(Dispatch(lines, data)) + |Pending(lines, data)| >= |data| + DataVolume(lines)
  {
    if lines != [] {
      var fed := Feed(data, lines[0]);
      VolumeKept(lines[1..], fed.0);
      TotalAppend(fed.1, Dispatch(lines[1..], fed.0));
      assert Total(fed.1) + |fed.0| >= |data| + |DataValue(lines[0])| by {
        if fed.1 != [] { assert fed.1[1..] == []; }
      }
    }
  }

  lemma {:induction false} VolumeOf(lines: seq<string>, i: nat)
    requires i < |lines|
    ensures DataVolume(lines) >= |DataValue(lines[i])|
  {
    if i > 0 {
      VolumeOf(lines[1..], i - 1);
    }
  }

  lemma {:induction false} VolumeAppend(xs: seq<string>, ys: seq<string>)
    ensures DataVolume(xs + ys) == DataVolume(xs) + DataVolume(ys)
  {
    if xs == [] {
      assert xs + ys == ys;
    } else {
      assert (xs + ys)[1..] == xs[1..] + ys;
      VolumeAppend(xs[1..], ys);
    }
  }

  // ---- the lines of one frame ------------------------------------------------------------

  lemma DecimalPlain(n: nat)
    ensures Chars.Decimal(n) != "" && '\n' !in Chars.Decimal(n)
  {
    Chars.DecimalRoundTrip(n);
  }

  lemma OneLine(text: string)
    requires LF !in text
    ensures Split(text + "\n") == [text + "\n"]
  {
    var line := text + "\n";
    assert line[..|line| - 1] == text;
    FirstLine(line, "");
    assert line + "" == line;
  }

  /** A prefix without line feeds lengthens the first line only. */
  lemma PrefixFirst(p: string, s: string)
    requires s != "" && LF !in p
    ensures Split(s) != [] && Split(p + s) == [p + Split(s)[0]] + Split(s)[1..]
  {
    var line, rest := FirstOf(s);
    assert (p + line)[..|p| + |line| - 1] == p + line[..|line| - 1];
    FirstLine(p + line, rest);
    Regroup(p, line, rest);
  }

  lemma QuietCons(x: string, xs: seq<string>)
    ensures AllQuiet([x] + xs) <==> Quiet(x) && AllQuiet(xs)
  {
    assert forall i | 0 <= i < |xs| :: xs[i] == ([x] + xs)[i + 1];
    assert ([x] + xs)[0] == x;
  }

  lemma NamedLines(p: string, name: string)
    requires p != "" && p[0] != 'd' && LF !in p
    ensures AllQuiet(Split(p + name + "\n")) <==> Harmless(name)
  {
    var s := name + "\n";
    Regroup(p, name, "\n");
    PrefixFirst(p, s);
    NotData(p + Split(s)[0]);
    QuietCons(p + Split(s)[0], Split(s)[1..]);
  }

  lemma LineThen(text: string, rest: string)
    requires text != "" && text[0] != 'd' && LF !in text
    ensures AllQuiet(Split(text + "\n" + rest)) <==> AllQuiet(Split(rest))
  {
    OneLine(text);
    SplitAppend(text + "\n", rest);
    NotData(text + "\n");
    QuietCons(text + "\n", Split(rest));
  }

  /** The head of a frame is quiet exactly when its event name is harmless. */
  lemma HeadLines(f: Frame)
    ensures AllQuiet(Split(Head(f))) <==> Harmless(f.name)
    ensures Head(f)[|Head(f)| - 1] == LF
  {
    NamedLines("event: ", f.name);
    if f.seqno > 0 {
      DecimalPlain(f.seqno);
      LineThen("id: " + Chars.Decimal(f.seqno), "event: " + f.name + "\n");
    } else {
      assert Head(f) == "event: " + f.name + "\n";
    }
  }

  lemma StripLine(text: string)
    requires text != "" && '\n' !in text && '\r' !in text
    ensures Strip(text + "\n") == text && Strip("\n") == ""
  {
    assert (text + "\n")[..|text|] == text;
    assert "\n"[..0] == "";
  }

  lemma DataLineIs(f: Frame)
    requires IsEncoded(f.payload)
    ensures Strip(DataLine(f)) == "data: " + f.payload
    ensures DataValue(DataLine(f)) == f.payload
    ensures Cut(Strip(DataLine(f))) == ("data", " " + f.payload)
    ensures Split(DataLine(f) + "\n") == [DataLine(f), "\n"]
  {
    var body := "data: " + f.payload;
    StripLine(body);
    DataField(f.payload);
    TwoLines(body);
  }

  lemma DataField(payload: string)
    ensures Cut("data: " + payload) == ("data", " " + payload) && TrimSpace(" " + payload) == payload
  {
    var body := "data: " + payload;
    CutIs(body, "data");
    assert body[5..] == " " + payload;
  }

  lemma BlankLine()
    ensures Split("\n") == ["\n"]
  {
    OneLine("");
    assert "" + "\n" == "\n";
  }

  lemma TwoLines(text: string)
    requires LF !in text
    ensures Split(text + "\n" + "\n") == [text + "\n", "\n"]
  {
    assert (text + "\n")[..|text|] == text;
    FirstLine(text + "\n", "\n");
    BlankLine();
  }

  lemma PrintedLines(f: Frame)
    requires IsEncoded(f.payload)
    ensures Split(Print(Sent(f))) == Split(Head(f)) + [DataLine(f), "\n"]
  {
    HeadLines(f);
    DataLineIs(f);
    SplitAppend(Head(f), DataLine(f) + "\n");
    Regroup(Head(f), DataLine(f), "\n");
  }

  lemma HeadAs(f: Frame)
    requires LF !in f.name
    ensures Split(Head(f)) == (if f.seqno > 0 then ["id: " + Chars.Decimal(f.seqno) + "\n"] else []) + ["event: " + f.name + "\n"]
  {
    var event := "event: " + f.name;
    OneLine(event);
    if f.seqno > 0 {
      DecimalPlain(f.seqno);
      OneLine("id: " + Chars.Decimal(f.seqno));
      SplitAppend("id: " + Chars.Decimal(f.seqno) + "\n", event + "\n");
    } else {
      assert Head(f) == event + "\n";
      NoneFirst([event + "\n"]);
    }
  }

  lemma OneThenTwo(xs: seq<string>, x: string, y: string, z: string)
    ensures (xs + [x]) + [y, z] == xs + [x, y, z]
  {
  }

  /** The lines of a printed frame: its id if it is sequenced, its event name, its payload as data, and a blank line. */
  lemma PrintedAs(f: Frame)
    requires LF !in f.name && IsEncoded(f.payload)
    ensures Split(Print(Sent(f))) ==
              (if f.seqno > 0 then ["id: " + Chars.Decimal(f.seqno) + "\n"] else [])
              + ["event: " + f.name + "\n", "data: " + f.payload + "\n", "\n"]
  {
    PrintedLines(f);
    HeadAs(f);
    OneThenTwo(if f.seqno > 0 then ["id: " + Chars.Decimal(f.seqno) + "\n"] else [], "event: " + f.name + "\n", DataLine(f), "\n");
  }

  /** Texts put together with line feeds between them. */
  function WithFeeds(values: seq<string>): string {
    if values == [] then "" else if |values| == 1 then values[0]
    else WithFeeds(values[..|values| - 1]) + "\n" + values[|values| - 1]
  }

  function DataLines(values: seq<string>): seq<string> {
    seq(|values|, i requires 0 <= i < |values| => "data: " + values[i] + "\n")
  }

  lemma {:induction false} DataPending(values: seq<string>)
    requires forall i | 0 <= i < |values| :: IsEncoded(values[i])
    ensures Dispatch(DataLines(values), "") == [] && Pending(DataLines(values), "") == WithFeeds(values)
    ensures values != [] ==> WithFeeds(values) != ""
  {
    if values != [] {
      var n := |values| - 1;
      var line := "data: " + values[n] + "\n";
      DataPending(values[..n]);
      assert DataLines(values) == DataLines(values[..n]) + [line];
      DispatchAppend(DataLines(values[..n]), [line], "");
      DataLineIs(Frame(0, "", values[n]));
      OneFeed(WithFeeds(values[..n]), line);
    }
  }

  lemma OneFeed(data: string, line: string)
    ensures Pending([line], data) == Feed(data, line).0 && Dispatch([line], data) == Feed(data, line).1
  {
    assert [line][1..] == [];
  }

  /** The data lines of a frame are one payload, with line feeds between them. */
  lemma DataLinesJoin(values: seq<string>)
    requires values != [] && forall i | 0 <= i < |values| :: IsEncoded(values[i])
    ensures Dispatch(DataLines(values) + ["\n"], "") == [WithFeeds(values)]
  {
    DataPending(values);
    DispatchAppend(DataLines(values), ["\n"], "");
    StripLine("x");
    OneFeed(WithFeeds(values), "\n");
  }

  lemma DataThenBlank(f: Frame, data: string)
    requires IsEncoded(f.payload)
    ensures Pending([DataLine(f), "\n"], data) == ""
    ensures data == "" ==> Dispatch([DataLine(f), "\n"], data) == [f.payload]
  {
    DataLineIs(f);
    StripLine(f.payload);
    var after := Feed(data, DataLine(f)).0;
    assert [DataLine(f), "\n"][1..] == ["\n"];
    TwoFeeds(data, DataLine(f), "\n");
    assert after != "" && (data == "" ==> after == f.payload);
  }

  lemma TwoFeeds(data: string, x: string, y: string)
    ensures var mid := Feed(data, x).0;
            && Pending([x, y], data) == Feed(mid, y).0
            && Dispatch([x, y], data) == Feed(data, x).1 + Feed(mid, y).1
  {
    var mid := Feed(data, x).0;
    assert [x, y][1..] == [y] && [y][1..] == [];
    assert Dispatch([y], mid) == Feed(mid, y).1 + [];
    assert Pending([y], mid) == Feed(mid, y).0;
  }

  lemma FrameLast(f: Frame)
    ensures Print(Sent(f))[|Print(Sent(f))| - 1] == LF
  {
  }

  /** A frame leaves nothing pending, and a harmless one dispatches its payload. */
  lemma FrameParsed(f: Frame)
    requires IsEncoded(f.payload)
    ensures Pending(Split(Print(Sent(f))), "") == ""
    ensures Harmless(f.name) ==> Parse(Print(Sent(f))) == [f.payload]
  {
    var head, tail := Split(Head(f)), [DataLine(f), "\n"];
    PrintedLines(f);
    DispatchAppend(head, tail, "");
    DataThenBlank(f, Pending(head, ""));
    if Harmless(f.name) {
      HeadLines(f);
      QuietRun(head);
      assert [] + [f.payload] == [f.payload];
    }
  }

  /** A frame whose name is not harmless dispatches more than its payload. */
  lemma FrameSpoiled(f: Frame)
    requires IsEncoded(f.payload) && !Harmless(f.name)
    ensures Total(Parse(Print(Sent(f)))) > |f.payload|
  {
    var head, tail := Split(Head(f)), [DataLine(f), "\n"];
    HeadLines(f);
    var i :| 0 <= i < |head| && !Quiet(head[i]);
    VolumeOf(head, i);
    VolumeAppend(head, tail);
    DataLineIs(f);
    VolumeOf(tail, 0);
    PrintedLines(f);
    FrameParsed(f);
    VolumeKept(head + tail, "");
  }

  lemma QuietPair(text: string)
    requires text != "" && text[0] != 'd' && LF !in text
    ensures AllQuiet(Split(text + "\n" + "\n"))
  {
    TwoLines(text);
    NotData(text + "\n");
    NotData("\n");
  }

  lemma KeepAliveQuiet()
    ensures AllQuiet(Split(Print(KeepAlive)))
  {
    var text := ": keep-alive";
    QuietPair(text);
    assert Print(KeepAlive) == text + "\n" + "\n";
  }

  ghost predicate Clean(item: Item) {
    item.Sent? ==> Harmless(item.frame.name)
  }

  /** A piece ends its last line, leaves nothing pending and dispatches what it owns. */
  ghost predicate Closed(p: Piece) {
    p.text != "" && p.text[|p.text| - 1] == LF && Pending(Split(p.text), "") == ""
  }

  ghost predicate Sound(p: Piece) {
    Closed(p) && Parse(p.text) == p.own
  }

  lemma ItemClosed(item: Item)
    requires item.Sent? ==> IsEncoded(item.frame.payload)
    ensures Closed(PieceOf(item))
    ensures Clean(item) ==> Sound(PieceOf(item))
  {
    match item
    case KeepAlive =>
      KeepAliveQuiet();
      QuietRun(Split(Print(item)));
    case Sent(f) =>
      FrameLast(f);
      FrameParsed(f);
  }

  lemma ItemVolume(item: Item)
    requires item.Sent? ==> IsEncoded(item.frame.payload)
    ensures Total(Parse(Print(item))) >= Total(PieceOf(item).own)
    ensures !Clean(item) ==> Total(Parse(Print(item))) > Total(PieceOf(item).own)
  {
    if Clean(item) {
      ItemClosed(item);
    } else {
      TotalOne(item.frame.payload);
      FrameSpoiled(item.frame);
    }
  }

  // ---- whole bodies ------------------------------------------------------------------------

  lemma ParseAfter(p: Piece, rest: string)
    requires Closed(p)
    ensures Parse(p.text + rest) == Parse(p.text) + Parse(rest)
  {
    SplitAppend(p.text, rest);
    DispatchAppend(Split(p.text), Split(rest), "");
  }

  lemma {:induction false} SoundRoundTrip(ps: seq<Piece>)
    requires forall i | 0 <= i < |ps| :: Sound(ps[i])
    ensures Parse(Texts(ps)) == Owned(ps)
  {
    if ps != [] {
      SoundRoundTrip(ps[1..]);
      assert Sound(ps[0]);
      ParseAfter(ps[0], Texts(ps[1..]));
    }
  }

  lemma AllSound(items: seq<Item>)
    requires Printable(items) && AllHarmless(items)
    ensures forall i | 0 <= i < |Pieces(items)| :: Sound(Pieces(items)[i])
  {
    forall i | 0 <= i < |Pieces(items)| ensures Sound(Pieces(items)[i]) {
      assert Clean(items[i]);
      ItemClosed(items[i]);
    }
  }

  lemma VolumeOfFirst(ps: seq<Piece>)
    requires ps != [] && Closed(ps[0])
    ensures Total(Parse(Texts(ps))) == Total(Parse(ps[0].text)) + Total(Parse(Texts(ps[1..])))
    ensures Total(Owned(ps)) == Total(ps[0].own) + Total(Owned(ps[1..]))
  {
    ParseAfter(ps[0], Texts(ps[1..]));
    TotalAppend(Parse(ps[0].text), Parse(Texts(ps[1..])));
    TotalAppend(ps[0].own, Owned(ps[1..]));
  }

  /** What parsing one piece yields beyond what the piece is meant to carry. */
  function Gain(p: Piece): int {
    Total(Parse(p.text)) - Total(p.own)
  }

  /** Closed pieces gain together at least what any one of them gains. */
  lemma {:induction false} GainShows(ps: seq<Piece>, k: nat)
    requires forall i | 0 <= i < |ps| :: Closed(ps[i]) && Gain(ps[i]) >= 0
    requires k <= |ps|
    ensures Total(Parse(Texts(ps))) >= Total(Owned(ps)) + if k < |ps| then Gain(ps[k]) else 0
  {
    if ps != [] {
      VolumeOfFirst(ps);
      GainShows(ps[1..], if k == 0 then |ps| - 1 else k - 1);
    }
  }

  /**
   Printing and parsing undo each other: a body of frames and keep-alives parses
   to exactly the payloads printed if and only if every event name is harmless.
   */
  lemma RoundTrip(items: seq<Item>)
    requires Printable(items)
    ensures Parse(PrintAll(items)) == Payloads(items) <==> AllHarmless(items)
  {
    if AllHarmless(items) {
      AllSound(items);
      SoundRoundTrip(Pieces(items));
    } else {
      LoudGains(items);
    }
  }

  lemma ItemGain(item: Item)
    requires item.Sent? ==> IsEncoded(item.frame.payload)
    ensures Closed(PieceOf(item)) && Gain(PieceOf(item)) >= 0 && (!Clean(item) ==> Gain(PieceOf(item)) > 0)
  {
    ItemClosed(item);
    ItemVolume(item);
  }

  /** A name that carries data makes more come out than went in. */
  lemma LoudGains(items: seq<Item>)
    requires Printable(items) && !AllHarmless(items)
    ensures Parse(PrintAll(items)) != Payloads(items)
  {
    var ps := Pieces(items);
    forall i | 0 <= i < |ps| ensures Closed(ps[i]) && Gain(ps[i]) >= 0 {
      ItemGain(items[i]);
    }
    var k: nat :| k < |items| && !Clean(items[k]);
    ItemGain(items[k]);
    GainShows(ps, k);
  }

  lemma SecondLine(first: string, line: string)
    requires LF !in first && LF !in line
    ensures Split((first + "\n") + line + "\n")[1..] == [line + "\n"]
  {
    OneLine(first);
    OneLine(line);
    SplitAppend(first + "\n", line + "\n");
    Regroup(first + "\n", line, "\n");
  }

  lemma DataLineNotQuiet(value: string)
    requires IsEncoded(value) && value[0] != ' '
    ensures !Quiet("data:" + value + "\n")
  {
    var line := "data:" + value;
    StripLine(line);
    DataValueIs(line + "\n");
    assert line[5..] == value;
  }

  /** A name with a data line after its first line breaks every frame that carries it. */
  lemma NameBreaksFrame(f: Frame, first: string, value: string)
    requires IsEncoded(f.payload) && LF !in first
    requires IsEncoded(value) && value[0] != ' '
    requires f.name == (first + "\n") + ("data:" + value)
    ensures Parse(PrintAll([Sent(f)])) != Payloads([Sent(f)])
  {
    SecondLine(first, "data:" + value);
    DataLineNotQuiet(value);
    assert !Quiet(Split(f.name + "\n")[1..][0]);
    assert !Clean([Sent(f)][0]);
    RoundTrip([Sent(f)]);
  }

  // ---- bodies cut short ----------------------------------------------------------------------

  /** How many leading pieces lie wholly within the first k bytes. */
  function Whole(ps: seq<Piece>, k: nat): (n: nat)
    ensures n <= |ps|
  {
    if ps == [] || k < |ps[0].text| then 0 else 1 + Whole(ps[1..], k - |ps[0].text|)
  }

  lemma OneQuiet(line: string)
    requires Quiet(line)
    ensures AllQuiet([line])
  {
  }

  /** How many bytes of the next piece the cut leaves. */
  function Left(ps: seq<Piece>, k: nat): (n: nat)
    ensures Whole(ps, k) < |ps| ==> n < |ps[Whole(ps, k)].text|
  {
    if ps == [] || k < |ps[0].text| then k else Left(ps[1..], k - |ps[0].text|)
  }

  /** Cutting a text keeps its first lines and may shorten the next. */
  lemma CutQuiet(s: string, k: nat)
    requires k <= |s| && AllQuiet(Split(s))
    ensures AllQuiet(Split(s[..k]))
  {
    SplitJoins(s);
    SplitIsLines(s);
    CutQuietLines(Split(s), k);
  }

  lemma {:induction false} CutQuietLines(lines: seq<string>, k: nat)
    requires AreLines(lines) && AllQuiet(lines) && k <= |Joined(lines)|
    ensures AllQuiet(Split(Joined(lines)[..k]))
  {
    if k > 0 {
      var line, rest := lines[0], Joined(lines[1..]);
      FirstOfLines(lines);
      if k < |line| {
        CutQuietInside(line, rest, k);
      } else {
        CutQuietLines(lines[1..], k - |line|);
        CutQuietAfter(line, rest, k);
      }
    }
  }

  lemma CutQuietInside(line: string, rest: string, k: nat)
    requires IsLine(line, rest == "") && 0 < k < |line| && Quiet(line)
    ensures AllQuiet(Split((line + rest)[..k]))
  {
    CutInFirst(line, rest, k);
    QuietPrefix(line, k);
    OneQuiet(line[..k]);
  }

  lemma CutQuietAfter(line: string, rest: string, k: nat)
    requires IsLine(line, rest == "") && |line| <= k <= |line| + |rest| && Quiet(line) && AllQuiet(Split(rest[..k - |line|]))
    ensures AllQuiet(Split((line + rest)[..k]))
  {
    CutAfterFirst(line, rest, k);
    QuietCons(line, Split(rest[..k - |line|]));
  }

  lemma CutHead(f: Frame, k: nat)
    requires k <= |Head(f)| && Harmless(f.name)
    ensures Parse(Head(f)[..k]) == []
  {
    HeadLines(f);
    CutQuiet(Head(f), k);
    QuietRun(Split(Head(f)[..k]));
  }

  lemma CutData(f: Frame, k: nat)
    requires 0 < k <= |DataLine(f)| && Harmless(f.name) && IsEncoded(f.payload)
    ensures Parse(Head(f) + DataLine(f)[..k]) == []
  {
    var part := DataLine(f)[..k];
    PartOfLine("data: " + f.payload, k);
    HeadLines(f);
    SplitAppend(Head(f), part);
    QuietThen(Split(Head(f)), part);
    DataLineNeverDispatches(part);
  }

  lemma PartOfLine(text: string, k: nat)
    requires 0 < k <= |text| + 1 && LF !in text
    ensures Split((text + "\n")[..k]) == [(text + "\n")[..k]]
  {
    var part := (text + "\n")[..k];
    assert part[..k - 1] == text[..k - 1];
    FirstLine(part, "");
    assert part + "" == part;
  }

  lemma QuietThen(lines: seq<string>, line: string)
    requires AllQuiet(lines)
    ensures Dispatch(lines + [line], "") == Dispatch([line], "")
  {
    DispatchAppend(lines, [line], "");
    QuietRun(lines);
  }

  lemma DataLineNeverDispatches(part: string)
    requires part != "" && part[0] == 'd'
    ensures Dispatch([part], "") == []
  {
    assert [part][1..] == [];
    assert Strip(part) != "" by { StripShorter(part, 1); assert part[..1] == "d"; }
    assert Feed("", part).1 == [];
  }

  /** A frame that is not complete dispatches nothing. */
  lemma CutItem(item: Item, k: nat)
    requires k < |Print(item)| && Clean(item)
    requires item.Sent? ==> IsEncoded(item.frame.payload)
    ensures Parse(Print(item)[..k]) == []
  {
    match item
    case KeepAlive =>
      KeepAliveQuiet();
      CutQuiet(Print(item), k);
      QuietRun(Split(Print(item)[..k]));
    case Sent(f) =>
      var h := |Head(f)|;
      if k <= h {
        assert Print(item)[..k] == Head(f)[..k];
        CutHead(f, k);
      } else {
        assert Print(item)[..k] == Head(f) + DataLine(f)[..k - h];
        CutData(f, k - h);
      }
  }

  /** A cut body is the text of its whole pieces and a part of the next. */
  lemma {:induction false} CutTexts(ps: seq<Piece>, k: nat)
    requires k <= |Texts(ps)|
    ensures var w := Whole(ps, k);
            Texts(ps)[..k] == Texts(ps[..w]) + (if w < |ps| then ps[w].text[..Left(ps, k)] else "")
  {
    if ps != [] {
      var text, rest := ps[0].text, ps[1..];
      CutConcat(text, Texts(rest), k);
      if k < |text| {
        assert ps[..0] == [] && text[..k] == "" + text[..k];
      } else {
        var w := Whole(rest, k - |text|);
        CutTexts(rest, k - |text|);
        assert ps[..w + 1][1..] == rest[..w];
        Regroup(text, Texts(rest[..w]), if w < |rest| then rest[w].text[..Left(rest, k - |text|)] else "");
        if k == |text| { assert text + Texts(rest)[..0] == text[..k]; }
      }
    }
  }

  predicate ParsesApart(text: string, rest: string) {
    Parse(text + rest) == Parse(text) + Parse(rest)
  }

  /** Whatever follows such a text is parsed as if it stood alone. */
  ghost predicate Seals(text: string) {
    forall rest: string :: ParsesApart(text, rest)
  }

  lemma ClosedSeals(p: Piece)
    requires Closed(p)
    ensures Seals(p.text)
  {
    forall rest: string ensures ParsesApart(p.text, rest) {
      SplitAppend(p.text, rest);
      DispatchAppend(Split(p.text), Split(rest), "");
    }
  }

  lemma JoinedApart(a: string, b: string, rest: string)
    requires ParsesApart(a, b) && ParsesApart(b, rest) && ParsesApart(a, b + rest)
    ensures ParsesApart(a + b, rest)
  {
    Regroup(a, b, rest);
    Regroup(Parse(a), Parse(b), Parse(rest));
  }

  lemma SealsJoin(a: string, b: string)
    requires Seals(a) && Seals(b)
    ensures Seals(a + b)
  {
    forall rest: string ensures ParsesApart(a + b, rest) {
      JoinedApart(a, b, rest);
    }
  }

  lemma EmptySeals()
    ensures Seals("")
  {
    forall rest: string ensures ParsesApart("", rest) {
      assert "" + rest == rest;
      NoneFirst(Parse(rest));
    }
  }

  lemma {:induction false} TextsSeal(ps: seq<Piece>)
    requires forall i | 0 <= i < |ps| :: Closed(ps[i])
    ensures Seals(Texts(ps))
  {
    if ps == [] {
      EmptySeals();
    } else {
      ClosedSeals(ps[0]);
      TextsSeal(ps[1..]);
      SealsJoin(ps[0].text, Texts(ps[1..]));
    }
  }

  lemma WholeBody(items: seq<Item>)
    requires Printable(items) && AllHarmless(items)
    ensures Parse(PrintAll(items)) == Payloads(items) && Seals(PrintAll(items))
  {
    AllSound(items);
    TextsSeal(Pieces(items));
    SoundRoundTrip(Pieces(items));
  }

  lemma PartIsSilent(items: seq<Item>, k: nat)
    requires Printable(items) && AllHarmless(items)
    requires Whole(Pieces(items), k) < |items|
    ensures Parse(Pieces(items)[Whole(Pieces(items), k)].text[..Left(Pieces(items), k)]) == []
  {
    var ps := Pieces(items);
    var w := Whole(ps, k);
    assert Clean(items[w]) && ps[w] == PieceOf(items[w]);
    CutItem(items[w], Left(ps, k));
  }

  /** A body cut at any byte parses to the payloads of the items that were complete. */
  lemma CutIsPrefix(items: seq<Item>, k: nat)
    requires Printable(items) && AllHarmless(items) && k <= |PrintAll(items)|
    ensures Parse(PrintAll(items)[..k]) == Payloads(items[..Whole(Pieces(items), k)])
  {
    var ps := Pieces(items);
    var w := Whole(ps, k);
    var part := if w < |ps| then ps[w].text[..Left(ps, k)] else "";
    CutTexts(ps, k);
    assert ps[..w] == Pieces(items[..w]);
    WholeBody(items[..w]);
    if w < |ps| {
      PartIsSilent(items, k);
    }
    assert ParsesApart(PrintAll(items[..w]), part);
  }

  // ---- bodies of any kind -----------------------------------------------------------------

  /** The next blank line comes before the next data line. */
  predicate BlankBeforeData(lines: seq<string>) {
    lines != [] && (Strip(lines[0]) == "" || (!CarriesData(lines[0]) && BlankBeforeData(lines[1..])))
  }

  /** A line that begins with a carriage return without being blank looks blank when it is cut there. */
  predicate LooksBlank(line: string) {
    line != "" && line[0] == '\r' && Strip(line) != ""
  }

  predicate CutsAlike(lines: seq<string>, data: string)
    requires lines != []
  {
    LooksBlank(lines[0]) && data != "" ==> BlankBeforeData(lines)
  }

  /** Wherever a line would look blank when cut while data waits, that data is dispatched as it stands. */
  predicate CutsAreHarmless(lines: seq<string>, data: string) {
    lines != [] ==> CutsAlike(lines, data) && CutsAreHarmless(lines[1..], Feed(data, lines[0]).0)
  }

  /** Waiting data only grows, and goes out as it stands exactly when a blank line comes first. */
  lemma {:induction false} NextDispatch(lines: seq<string>, data: string)
    requires data != ""
    ensures Dispatch(lines, data) != [] ==> |Dispatch(lines, data)[0]| >= |data|
    ensures Dispatch(lines, data) != [] && Dispatch(lines, data)[0] == data <==> BlankBeforeData(lines)
  {
    if lines != [] && Strip(lines[0]) != "" {
      NextDispatch(lines[1..], Feed(data, lines[0]).0);
      NoneFirst(Dispatch(lines[1..], Feed(data, lines[0]).0));
    }
  }

  lemma NoneFirst<T>(s: seq<T>)
    ensures [] + s == s
  {
  }

  lemma {:induction false} StripKeepsFirst(line: string)
    requires line != "" && line[0] != '\r' && line[0] != LF
    ensures Strip(line) != ""
  {
    if |line| > 1 {
      StripKeepsFirst(line[..|line| - 1]);
    }
  }

  /** The lines of the first k bytes of the text that the lines make up. */
  function CutLines(lines: seq<string>, k: nat): seq<string> {
    if lines == [] || k == 0 then []
    else if k < |lines[0]| then [lines[0][..k]]
    else [lines[0]] + CutLines(lines[1..], k - |lines[0]|)
  }

  lemma {:induction false} SplitCut(lines: seq<string>, k: nat)
    requires AreLines(lines) && k <= |Joined(lines)|
    ensures Split(Joined(lines)[..k]) == CutLines(lines, k)
  {
    if k > 0 {
      var line, rest := lines[0], Joined(lines[1..]);
      FirstOfLines(lines);
      if k < |line| {
        CutInFirst(line, rest, k);
      } else {
        SplitCut(lines[1..], k - |line|);
        CutAfterFirst(line, rest, k);
      }
    }
  }

  lemma {:induction false} CutNothing(lines: seq<string>, k: nat)
    requires AreLines(lines) && k >= |Joined(lines)|
    ensures CutLines(lines, k) == lines
  {
    if lines != [] {
      FirstOfLines(lines);
      CutNothing(lines[1..], k - |lines[0]|);
    }
  }

  /** A part of a line dispatches what waits, at most, and only when it looks blank. */
  lemma PartDispatches(part: string, data: string)
    requires part != "" && LF !in part
    ensures Dispatch([part], data) == if Strip(part) == "" && data != "" then [data] else []
    ensures Strip(part) == "" ==> part[0] == '\r'
  {
    assert part[|part| - 1] in part;
    if part[0] != '\r' {
      StripKeepsFirst(part);
    }
  }

  /** Cut after k bytes, the lines dispatch a prefix of what they dispatch whole. */
  ghost predicate CutsWell(lines: seq<string>, k: nat, data: string) {
    Dispatch(CutLines(lines, k), data) <= Dispatch(lines, data)
  }

  ghost predicate CutAnywhere(lines: seq<string>, data: string) {
    forall k: nat :: CutsWell(lines, k, data)
  }

  lemma CutInside(lines: seq<string>, k: nat, data: string)
    requires lines != [] && AreLines(lines) && 0 < k < |lines[0]|
    requires CutsAlike(lines, data)
    ensures CutsWell(lines, k, data)
  {
    FirstOfLines(lines);
    assert lines[0][..k] == lines[0][..|lines[0]| - 1][..k];
    PartDispatches(lines[0][..k], data);
    if data != "" {
      NextDispatch(lines, data);
    }
  }

  lemma CutAfter(lines: seq<string>, k: nat, data: string)
    requires lines != [] && 0 < |lines[0]| <= k
    ensures CutsWell(lines, k, data) <==> CutsWell(lines[1..], k - |lines[0]|, Feed(data, lines[0]).0)
  {
    var (after, out) := Feed(data, lines[0]);
    var rest := CutLines(lines[1..], k - |lines[0]|);
    assert ([lines[0]] + rest)[1..] == rest;
    PrefixAfter(out, Dispatch(rest, after), Dispatch(lines[1..], after));
  }

  lemma PrefixAfter<T>(a: seq<T>, b: seq<T>, c: seq<T>)
    ensures a + b <= a + c <==> b <= c
  {
    if a + b <= a + c {
      assert (a + c)[..|a + b|] == a + b;
      assert (a + b)[|a|..] == b && (a + c)[|a|..|a + b|] == c[..|b|];
    }
  }

  /** Cut just after such a carriage return, the text dispatches too early. */
  lemma CutEarly(lines: seq<string>, data: string)
    requires lines != [] && !CutsAlike(lines, data)
    ensures !CutsWell(lines, 1, data)
  {
    assert |lines[0]| > 1;
    assert lines[0][..1] == "\r";
    PartDispatches("\r", data);
    NextDispatch(lines, data);
  }

  lemma CutFirst(lines: seq<string>, data: string)
    requires lines != [] && AreLines(lines)
    ensures CutAnywhere(lines, data) <==> CutsAlike(lines, data) && CutAnywhere(lines[1..], Feed(data, lines[0]).0)
  {
    FirstOfLines(lines);
    var rest, after := lines[1..], Feed(data, lines[0]).0;
    if CutAnywhere(lines, data) {
      if !CutsAlike(lines, data) {
        CutEarly(lines, data);
      }
      forall k: nat ensures CutsWell(rest, k, after) {
        CutAfter(lines, |lines[0]| + k, data);
      }
    } else if CutsAlike(lines, data) && CutAnywhere(rest, after) {
      forall k: nat ensures CutsWell(lines, k, data) {
        if 0 < k < |lines[0]| {
          CutInside(lines, k, data);
        } else if k > 0 {
          CutAfter(lines, k, data);
        }
      }
    }
  }

  lemma {:induction false} CutDispatch(lines: seq<string>, data: string)
    requires AreLines(lines)
    ensures CutAnywhere(lines, data) <==> CutsAreHarmless(lines, data)
  {
    if lines == [] {
      forall k: nat ensures CutsWell(lines, k, data) {
      }
    } else {
      FirstOfLines(lines);
      CutFirst(lines, data);
      CutDispatch(lines[1..], Feed(data, lines[0]).0);
    }
  }

  /**
   Whatever its frames are named, a body cut at any byte parses to a prefix of what
   the whole parses to, exactly when no line looks blank at a carriage return while
   data waits that a later line of the frame adds to, or that is never dispatched.
   */
  lemma CutAnyBody(body: string)
    ensures (forall k: nat | k <= |body| :: Parse(body[..k]) <= Parse(body)) <==> CutsAreHarmless(Split(body), "")
  {
    var lines := Split(body);
    SplitJoins(body);
    SplitIsLines(body);
    CutDispatch(lines, "");
    forall k: nat ensures CutsWell(lines, k, "") <==> (k <= |body| ==> Parse(body[..k]) <= Parse(body)) {
      if k <= |body| {
        SplitCut(lines, k);
      } else {
        CutNothing(lines, k);
      }
    }
  }
}
