/**
 Reading newline-delimited text through a bounded buffer. A character of a
 string stands for one byte here.

 The meaning of a stream is its lines: the input cut after each line feed. The
 reader hands the input out in chunks whose sizes nothing constrains; the two
 line readers and the event decoder are proved to depend on the lines alone.
 */
module Lines {
  import opened Common

  const LF := '\n'
  const MAX_LINE_BYTES := 0x80_0000

  // ---- the lines of a text ---------------------------------------------------------

  /** Length of the first line, its line feed included when it has one. */
  function LineLength(s: string): (n: nat)
    requires s != ""
    ensures 1 <= n <= |s|
    ensures s[n - 1] == LF || n == |s|
    ensures LF !in s[..n - 1]
  {
    if s[0] == LF || |s| == 1 then 1
    else
      var m := LineLength(s[1..]);
      assert s[..m] == [s[0]] + s[1..][..m - 1];
      1 + m
  }

  function Split(s: string): seq<string>
    decreases |s|
  {
    if s == "" then [] else [s[..LineLength(s)]] + Split(s[LineLength(s)..])
  }

  function Joined(lines: seq<string>): string {
    if lines == [] then "" else lines[0] + Joined(lines[1..])
  }

  /** Nonempty pieces with a line feed only at their end, and one there but for the last. */
  ghost predicate IsLine(line: string, last: bool) {
    line != "" && LF !in line[..|line| - 1] && (last || line[|line| - 1] == LF)
  }

  ghost predicate AreLines(lines: seq<string>) {
    forall i | 0 <= i < |lines| :: IsLine(lines[i], i == |lines| - 1)
  }

  lemma {:induction false} LengthIs(s: string, n: nat)
    requires 1 <= n <= |s| && (s[n - 1] == LF || n == |s|) && LF !in s[..n - 1]
    ensures LineLength(s) == n
  {
    assert n > 1 ==> s[..n - 1][0] == s[0];
    if s[0] != LF && |s| > 1 {
      assert s[1..][..n - 2] == s[..n - 1][1..];
      LengthIs(s[1..], n - 1);
    }
  }

  lemma FirstLine(line: string, rest: string)
    requires IsLine(line, rest == "")
    ensures LineLength(line + rest) == |line|
    ensures Split(line + rest) == [line] + Split(rest)
  {
    var s := line + rest;
    assert s[..|line| - 1] == line[..|line| - 1];
    LengthIs(s, |line|);
    assert s[..|line|] == line && s[|line|..] == rest;
  }

  lemma {:induction false} SplitJoins(s: string)
    ensures Joined(Split(s)) == s
    decreases |s|
  {
    if s != "" {
      SplitJoins(s[LineLength(s)..]);
      assert s == s[..LineLength(s)] + s[LineLength(s)..];
    }
  }

  lemma ConsLine(line: string, rest: seq<string>)
    requires IsLine(line, rest == []) && AreLines(rest)
    ensures AreLines([line] + rest)
  {
    var all := [line] + rest;
    forall i | 0 <= i < |all| ensures IsLine(all[i], i == |all| - 1) {
      assert i > 0 ==> IsLine(rest[i - 1], i - 1 == |rest| - 1);
    }
  }

  lemma {:induction false} SplitIsLines(s: string)
    ensures AreLines(Split(s))
    decreases |s|
  {
    if s != "" {
      var n := LineLength(s);
      SplitIsLines(s[n..]);
      assert s[..n][..n - 1] == s[..n - 1];
      ConsLine(s[..n], Split(s[n..]));
    }
  }

  /** The first of several lines ends in a line feed, and the others are lines themselves. */
  lemma FirstOfLines(lines: seq<string>)
    requires AreLines(lines) && lines != []
    ensures IsLine(lines[0], Joined(lines[1..]) == "") && AreLines(lines[1..])
  {
    var rest := lines[1..];
    assert IsLine(lines[0], |lines| == 1);
    forall i | 0 <= i < |rest| ensures IsLine(rest[i], i == |rest| - 1) {
      assert IsLine(lines[i + 1], i + 1 == |lines| - 1);
    }
    if rest != [] {
      assert IsLine(rest[0], |rest| == 1);
    }
  }

  /** Split is the only way to cut a text into lines. */
  lemma {:induction false} SplitIsTheOnlyCut(s: string, lines: seq<string>)
    requires Joined(lines) == s
    ensures AreLines(lines) <==> lines == Split(s)
    decreases |lines|
  {
    SplitIsLines(s);
    SplitJoins(s);
    if lines != [] && AreLines(lines) {
      var rest := lines[1..];
      FirstOfLines(lines);
      SplitIsTheOnlyCut(Joined(rest), rest);
      FirstLine(lines[0], Joined(rest));
      assert lines == [lines[0]] + rest;
    }
  }

  lemma CutConcat<T>(xs: seq<T>, ys: seq<T>, k: nat)
    requires k <= |xs| + |ys|
    ensures (xs + ys)[..k] == if k <= |xs| then xs[..k] else xs + ys[..k - |xs|]
  {
  }

  lemma Regroup<T>(xs: seq<T>, ys: seq<T>, zs: seq<T>)
    ensures xs + (ys + zs) == (xs + ys) + zs
  {
  }

  lemma FirstOf(s: string) returns (line: string, rest: string)
    requires s != ""
    ensures s == line + rest && line != "" && IsLine(line, rest == "")
    ensures s[|s| - 1] == LF ==> IsLine(line, false) && (rest == "" || rest[|rest| - 1] == LF)
    ensures Split(s) == [line] + Split(rest)
  {
    line, rest := s[..LineLength(s)], s[LineLength(s)..];
    assert line[..|line| - 1] == s[..|line| - 1];
    assert rest == "" || rest[|rest| - 1] == s[|s| - 1];
  }

  lemma CutInFirst(line: string, rest: string, k: nat)
    requires IsLine(line, rest == "") && 0 < k < |line|
    ensures (line + rest)[..k] == line[..k] && Split(line[..k]) == [line[..k]] && LF !in line[..k]
  {
    CutConcat(line, rest, k);
    assert line[..k] == line[..|line| - 1][..k];
    FirstLine(line[..k], "");
    assert line[..k] + "" == line[..k];
  }

  lemma CutAfterFirst(line: string, rest: string, k: nat)
    requires IsLine(line, rest == "") && |line| <= k <= |line| + |rest|
    ensures (line + rest)[..k] == line + rest[..k - |line|]
    ensures Split(line + rest[..k - |line|]) == [line] + Split(rest[..k - |line|])
  {
    CutConcat(line, rest, k);
    FirstLine(line, rest[..k - |line|]);
    assert k == |line| ==> line[..k] == line;
  }

  lemma AppendOne(line: string, rest: string, b: string)
    requires IsLine(line, false) && Split(rest + b) == Split(rest) + Split(b)
    ensures Split((line + rest) + b) == ([line] + Split(rest)) + Split(b)
  {
    Regroup(line, rest, b);
    FirstLine(line, rest + b);
    Regroup([line], Split(rest), Split(b));
  }

  /** Splitting distributes over a cut right after a line feed. */
  lemma {:induction false} SplitAppend(a: string, b: string)
    requires a == "" || a[|a| - 1] == LF
    ensures Split(a + b) == Split(a) + Split(b)
    decreases |a|
  {
    if a == "" {
      assert a + b == b;
    } else {
      var line, rest := FirstOf(a);
      SplitAppend(rest, b);
      AppendOne(line, rest, b);
    }
  }

  // ---- the buffered reader -----------------------------------------------------------

  /** How the underlying stream stops: cleanly or with another error. */
  datatype End = Eof | Broken

  datatype SliceStatus = Found | BufferFull | Ended

  class Reader {
    var rest: string
    const end: End

    constructor (input: string, end: End)
      ensures rest == input && this.end == end
    {
      rest, this.end := input, end;
    }

    /**
     Up to and including the next line feed, unless the buffer fills or the
     stream stops first. How much the buffer holds is arbitrary at every call.
     */
    method ReadSlice() returns (chunk: string, status: SliceStatus)
      modifies this
      ensures old(rest) == chunk + rest
      ensures status.Found? ==> chunk != "" && chunk[|chunk| - 1] == LF && LF !in chunk[..|chunk| - 1]
      ensures status.BufferFull? ==> chunk != "" && LF !in chunk
      ensures status.Ended? ==> rest == "" && LF !in chunk
    {
      var size: nat :| size >= 1;
      var k := 0;
      while k < |rest| && k < size && rest[k] != LF
        invariant k <= |rest| && k <= size && LF !in rest[..k]
      {
        assert rest[..k + 1] == rest[..k] + [rest[k]];
        k := k + 1;
      }
      if k == |rest| {
        status := Ended;
      } else if k == size {
        status := BufferFull;
      } else {
        status := Found;
        k := k + 1;
      }
      chunk := rest[..k];
      rest := rest[k..];
    }
  }

  // ---- reading one line ---------------------------------------------------------------

  datatype LineResult = Got(line: string) | TooLong | AtEof | Failed

  /** One line of the process output: at most 8 MiB, and lost if the stream breaks inside it. */
  function NextLine(s: string, end: End): LineResult {
    if s == "" then (if end.Eof? then AtEof else Failed)
    else if LineLength(s) > MAX_LINE_BYTES then TooLong
    else if s[LineLength(s) - 1] == LF || end.Eof? then Got(s[..LineLength(s)])
    else Failed
  }

  lemma LongPrefix(acc: string, rest: string)
    requires acc + rest != "" && LF !in acc
    ensures LineLength(acc + rest) == |acc| + if rest == "" then 0 else LineLength(rest)
  {
    var s, m := acc + rest, if rest == "" then 0 else LineLength(rest);
    assert rest == "" ==> s == acc && s[..|acc| - 1] == acc[..|acc| - 1];
    assert rest != "" ==> s[..|acc| + m - 1] == acc + rest[..m - 1];
    LengthIs(s, |acc| + m);
  }

  /** The decoder's line reader. The rest of the input is kept unless reading stops for good. */
  method ReadLineBounded(r: Reader) returns (res: LineResult)
    modifies r
    ensures res == NextLine(old(r.rest), r.end)
    ensures res.Got? ==> old(r.rest) == res.line + r.rest
  {
    var buf := "";
    while true
      invariant old(r.rest) == buf + r.rest && LF !in buf && |buf| <= MAX_LINE_BYTES
      decreases |r.rest|
    {
      ghost var before := r.rest;
      var chunk, status := r.ReadSlice();
      assert buf + before == (buf + chunk) + r.rest;
      LineOfChunk(buf, chunk, r.rest, status);
      if |buf| + |chunk| > MAX_LINE_BYTES {
        return TooLong;
      }
      match status
      case Found => return Got(buf + chunk);
      case BufferFull => buf := buf + chunk;
      case Ended =>
        if r.end.Broken? {
          return Failed;
        }
        return if |buf| + |chunk| == 0 then AtEof else Got(buf + chunk);
    }
  }

  /** What a chunk settles about the line it belongs to. */
  lemma LineOfChunk(buf: string, chunk: string, rest: string, status: SliceStatus)
    requires LF !in buf
    requires status.Found? ==> chunk != "" && chunk[|chunk| - 1] == LF && LF !in chunk[..|chunk| - 1]
    requires status.BufferFull? ==> chunk != "" && LF !in chunk
    requires status.Ended? ==> rest == "" && LF !in chunk
    ensures var all := buf + chunk;
            && (all + rest != "" ==> LineLength(all + rest) >= |all|)
            && (status.Found? ==> LineLength(all + rest) == |all| && (all + rest)[|all| - 1] == LF)
            && (status.Ended? && all != "" ==> LineLength(all + rest) == |all| && all[|all| - 1] != LF)
            && (!status.Found? ==> LF !in all)
  {
    var all := buf + chunk;
    if status.Found? {
      assert all[..|all| - 1] == buf + chunk[..|chunk| - 1];
      FirstLine(all, rest);
    } else if all + rest != "" {
      LongPrefix(all, rest);
    }
  }

  /** The follower's line reader: no limit, and any error still yields what was read. */
  method ReadLine(r: Reader) returns (line: Option<string>)
    modifies r
    ensures line == if old(r.rest) == "" then None else Some(old(r.rest)[..LineLength(old(r.rest))])
    ensures old(r.rest) == (if line.Some? then line.value else "") + r.rest
  {
    var full := "";
    while true
      invariant old(r.rest) == full + r.rest && LF !in full
      decreases |r.rest|
    {
      ghost var before := r.rest;
      var chunk, status := r.ReadSlice();
      assert full + before == (full + chunk) + r.rest;
      LineOfChunk(full, chunk, r.rest, status);
      match status
      case BufferFull => full := full + chunk;
      case Ended =>
        return if |full| + |chunk| > 0 then Some(full + chunk) else None;
      case Found => return Some(full + chunk);
    }
  }

  // ---- decoding events -----------------------------------------------------------------

  /** The library calls a line goes through: trimming white space and parsing JSON. */
  datatype Codec = Codec(trim: string -> string, parses: string -> bool)

  datatype Kind = BlankLine | Noise(text: string) | EventLine(text: string)

  function Classify(c: Codec, line: string): Kind {
    var text := c.trim(line);
    if text == "" then BlankLine
    else if text[0] != '{' then Noise(text)
    else if !c.parses(text) then Noise(text)
    else EventLine(text)
  }

  function EventIn(c: Codec, line: string): seq<string> {
    match Classify(c, line) case EventLine(t) => [t] case _ => []
  }

  function NoiseIn(c: Codec, line: string): seq<string> {
    match Classify(c, line) case Noise(t) => [t] case _ => []
  }

  function EventsOf(c: Codec, lines: seq<string>): seq<string> {
    if lines == [] then [] else EventIn(c, lines[0]) + EventsOf(c, lines[1..])
  }

  function NoiseOf(c: Codec, lines: seq<string>): seq<string> {
    if lines == [] then [] else NoiseIn(c, lines[0]) + NoiseOf(c, lines[1..])
  }

  /** The lines before the first that is too long or that the stream breaks inside. */
  function Readable(s: string, end: End): seq<string>
    decreases |s|
  {
    match NextLine(s, end)
    case Got(line) => [line] + Readable(s[|line|..], end)
    case _ => []
  }

  /** The events, and the other text, that reading the input to its end yields. */
  function Transcript(c: Codec, s: string, end: End): seq<string>
    decreases |s|
  {
    match NextLine(s, end)
    case Got(line) => EventIn(c, line) + Transcript(c, s[|line|..], end)
    case _ => []
  }

  function Skipped(c: Codec, s: string, end: End): seq<string>
    decreases |s|
  {
    match NextLine(s, end)
    case Got(line) => NoiseIn(c, line) + Skipped(c, s[|line|..], end)
    case _ => []
  }

  /** Which are the events and the noise among the readable lines. */
  lemma {:induction false} TranscriptOfLines(c: Codec, s: string, end: End)
    ensures Transcript(c, s, end) == EventsOf(c, Readable(s, end))
    ensures Skipped(c, s, end) == NoiseOf(c, Readable(s, end))
    decreases |s|
  {
    match NextLine(s, end)
    case Got(line) =>
      TranscriptOfLines(c, s[|line|..], end);
      assert Readable(s, end)[1..] == Readable(s[|line|..], end);
    case _ =>
  }

  function Trimmed(c: Codec, lines: seq<string>): seq<string> {
    seq(|lines|, i requires 0 <= i < |lines| => c.trim(lines[i]))
  }

  lemma {:induction false} EventsLast(c: Codec, lines: seq<string>, line: string)
    ensures EventsOf(c, lines + [line]) == EventsOf(c, lines) + EventIn(c, line)
    ensures NoiseOf(c, lines + [line]) == NoiseOf(c, lines) + NoiseIn(c, line)
  {
    if lines == [] {
      assert ([] + [line])[1..] == [];
    } else {
      assert (lines + [line])[1..] == lines[1..] + [line];
      EventsLast(c, lines[1..], line);
      Regroup(EventIn(c, lines[0]), EventsOf(c, lines[1..]), EventIn(c, line));
      Regroup(NoiseIn(c, lines[0]), NoiseOf(c, lines[1..]), NoiseIn(c, line));
    }
  }

  lemma TrimmedLast(c: Codec, lines: seq<string>)
    requires lines != []
    ensures Trimmed(c, lines) == Trimmed(c, lines[..|lines| - 1]) + [c.trim(lines[|lines| - 1])]
  {
  }

  /**
   The events of some lines: exactly the trimmed texts that begin with a brace
   and parse, in order. idx are their places.
   */
  lemma {:induction false} EventsArePicked(c: Codec, lines: seq<string>) returns (idx: seq<nat>)
    ensures Picks(Trimmed(c, lines), EventsOf(c, lines), idx)
    ensures forall i: nat {:trigger i in idx} | i < |lines| :: i in idx <==>
              c.trim(lines[i]) != "" && c.trim(lines[i])[0] == '{' && c.parses(c.trim(lines[i]))
  {
    idx := [];
    if lines != [] {
      var n := |lines| - 1;
      var before := EventsArePicked(c, lines[..n]);
      var taken := EventIn(c, lines[n]) != [];
      idx := Placed(before, n, taken);
      PicksMore(Trimmed(c, lines[..n]), EventsOf(c, lines[..n]), before, c.trim(lines[n]), taken);
      PlacedHas(before, n, taken);
      EventsLast(c, lines[..n], lines[n]);
      BackTogether(lines);
      TrimmedLast(c, lines);
    }
  }

  /** The noise: exactly the texts that are not blank and no events, in order. */
  lemma {:induction false} NoiseIsPicked(c: Codec, lines: seq<string>) returns (idx: seq<nat>)
    ensures Picks(Trimmed(c, lines), NoiseOf(c, lines), idx)
    ensures forall i: nat {:trigger i in idx} | i < |lines| :: i in idx <==>
              c.trim(lines[i]) != "" && !(c.trim(lines[i])[0] == '{' && c.parses(c.trim(lines[i])))
  {
    idx := [];
    if lines != [] {
      var n := |lines| - 1;
      var before := NoiseIsPicked(c, lines[..n]);
      var taken := NoiseIn(c, lines[n]) != [];
      idx := Placed(before, n, taken);
      PicksMore(Trimmed(c, lines[..n]), NoiseOf(c, lines[..n]), before, c.trim(lines[n]), taken);
      PlacedHas(before, n, taken);
      EventsLast(c, lines[..n], lines[n]);
      BackTogether(lines);
      TrimmedLast(c, lines);
    }
  }

  /** How reading ends: the first result that is not a line. */
  function Ending(s: string, end: End): LineResult
    decreases |s|
  {
    match NextLine(s, end)
    case Got(line) => Ending(s[|line|..], end)
    case other => other
  }

  /**
   On a stream that ends cleanly, reading fails exactly when some line exceeds
   8 MiB, and otherwise the lines read are all the lines.
   */
  lemma {:induction false} ReadableIsSplit(s: string)
    ensures Ending(s, Eof) == (if exists l | l in Split(s) :: |l| > 8_388_608 then TooLong else AtEof)
    ensures Ending(s, Eof).AtEof? <==> Readable(s, Eof) == Split(s)
    ensures Readable(s, Eof) <= Split(s)
    decreases |s|
  {
    if s != "" {
      var n := LineLength(s);
      if n <= MAX_LINE_BYTES {
        ReadableIsSplit(s[n..]);
        assert Split(s) == [s[..n]] + Split(s[n..]);
      } else {
        assert s[..n] in Split(s);
      }
    }
  }

  /**
   On a stream that breaks, the text after the last line feed is lost: reading
   fails for an oversized line or for the break, and in the latter case the lines
   read are those that end in a line feed.
   */
  lemma {:induction false} BrokenLosesTheRest(s: string)
    ensures Ending(s, Broken) == (if exists l | l in Split(s) :: |l| > 8_388_608 then TooLong else Failed)
    ensures Ending(s, Broken).Failed? ==>
              Readable(s, Broken) == if s == "" || s[|s| - 1] == LF then Split(s) else Split(s)[..|Split(s)| - 1]
    decreases |s|
  {
    if s != "" {
      var n := LineLength(s);
      var line, rest := s[..n], s[n..];
      assert Split(s) == [line] + Split(rest);
      if n > MAX_LINE_BYTES {
        assert line in Split(s);
      } else {
        BrokenLosesTheRest(rest);
        assert rest != "" ==> rest[|rest| - 1] == s[|s| - 1];
        assert Split(s)[1..] == Split(rest);
      }
    }
  }

  datatype NextResult = NextEvent(text: string) | Stopped(why: LineResult)

  /** One call's outcome, the text it skipped, and the input left when it found an event. */
  datatype Decoded = Decoded(res: NextResult, skipped: seq<string>, rest: string)

  function DecodeOne(c: Codec, s: string, end: End): (d: Decoded)
    ensures d.res.NextEvent? ==> |d.rest| < |s|
    decreases |s|
  {
    match NextLine(s, end)
    case Got(line) =>
      (match Classify(c, line)
       case BlankLine => DecodeOne(c, s[|line|..], end)
       case Noise(t) => (var d := DecodeOne(c, s[|line|..], end); d.(skipped := [t] + d.skipped))
       case EventLine(t) => Decoded(NextEvent(t), [], s[|line|..]))
    case why => Decoded(Stopped(why), [], "")
  }

  /** A call returns the next event of the transcript, or says how the whole input ends. */
  lemma {:induction false} DecodeOneMeaning(c: Codec, s: string, end: End)
    ensures var d := DecodeOne(c, s, end);
            && (d.res.NextEvent? ==>
                 && Transcript(c, s, end) == [d.res.text] + Transcript(c, d.rest, end)
                 && Ending(s, end) == Ending(d.rest, end))
            && (d.res.Stopped? ==> Transcript(c, s, end) == [] && Ending(s, end) == d.res.why)
    decreases |s|
  {
    var got := NextLine(s, end);
    if got.Got? && !Classify(c, got.line).EventLine? {
      assert EventIn(c, got.line) == [];
      DecodeOneMeaning(c, s[|got.line|..], end);
    }
  }

  /** What a call skips is the noise up to that event, in order. */
  lemma {:induction false} DecodeOneSkips(c: Codec, s: string, end: End)
    ensures var d := DecodeOne(c, s, end);
            Skipped(c, s, end) == d.skipped + (if d.res.NextEvent? then Skipped(c, d.rest, end) else [])
    decreases |s|
  {
    var got := NextLine(s, end);
    if got.Got? && !Classify(c, got.line).EventLine? {
      var rest := s[|got.line|..];
      DecodeOneSkips(c, rest, end);
      var d := DecodeOne(c, rest, end);
      Regroup(NoiseIn(c, got.line), d.skipped, if d.res.NextEvent? then Skipped(c, d.rest, end) else []);
      assert DecodeOne(c, s, end) == d.(skipped := NoiseIn(c, got.line) + d.skipped);
    }
  }

  class Decoder {
    const r: Reader
    const codec: Codec
    var seqno: nat

    constructor (r: Reader, codec: Codec)
      ensures this.r == r && this.codec == codec && seqno == 0
    {
      this.r, this.codec, seqno := r, codec, 0;
    }

    /** The next event. Blank lines are passed over, other text is reported as skipped. */
    method Next() returns (res: NextResult, skipped: seq<string>)
      modifies this, r
      ensures var d := DecodeOne(codec, old(r.rest), r.end);
              && res == d.res && skipped == d.skipped
              && (res.NextEvent? ==> r.rest == d.rest)
      ensures seqno == old(seqno) + if res.NextEvent? then 1 else 0
    {
      skipped := [];
      ghost var all := DecodeOne(codec, r.rest, r.end);
      while true
        invariant seqno == old(seqno)
        invariant var d := DecodeOne(codec, r.rest, r.end);
                  all == d.(skipped := skipped + d.skipped)
        decreases |r.rest|
      {
        ghost var before := r.rest;
        var got := ReadLineBounded(r);
        if !got.Got? {
          return Stopped(got), skipped;
        }
        assert before[|got.line|..] == r.rest;
        match Classify(codec, got.line)
        case BlankLine =>
        case Noise(t) =>
          Regroup(skipped, [t], DecodeOne(codec, r.rest, r.end).skipped);
          skipped := skipped + [t];
        case EventLine(t) =>
          seqno := seqno + 1;
          return NextEvent(t), skipped;
      }
    }
  }

  /** A stored event carries its sequence number. */
  datatype Row = Row(seqno: nat, text: string)

  function Numbered(texts: seq<string>, after: nat): seq<Row> {
    if texts == [] then [] else [Row(after + 1, texts[0])] + Numbered(texts[1..], after + 1)
  }

  /** Numbering keeps every text, in order, under consecutive numbers. */
  lemma {:induction false} NumberedAt(texts: seq<string>, after: nat)
    ensures |Numbered(texts, after)| == |texts|
    ensures forall i | 0 <= i < |texts| :: Numbered(texts, after)[i] == Row(after + i + 1, texts[i])
  {
    if texts != [] {
      NumberedAt(texts[1..], after + 1);
    }
  }

  /** All calls together: the numbered events and how the input ends. */
  function DecodeAll(c: Codec, s: string, end: End, after: nat): (seq<Row>, LineResult)
    decreases |s|
  {
    var d := DecodeOne(c, s, end);
    match d.res
    case Stopped(why) => ([], why)
    case NextEvent(t) =>
      var rest := DecodeAll(c, d.rest, end, after + 1);
      ([Row(after + 1, t)] + rest.0, rest.1)
  }

  /**
   Every event of the readable lines, numbered 1, 2, 3 in order; over when the
   stream ends, breaks inside a line or carries an oversized one.
   */
  lemma {:induction false} DecodeAllMeaning(c: Codec, s: string, end: End, after: nat)
    ensures DecodeAll(c, s, end, after) == (Numbered(Transcript(c, s, end), after), Ending(s, end))
    decreases |s|
  {
    DecodeOneMeaning(c, s, end);
    var d := DecodeOne(c, s, end);
    if d.res.NextEvent? {
      DecodeAllMeaning(c, d.rest, end, after + 1);
    }
  }

  /** The producer's loop, over every way the buffer cuts the input. */
  method Consume(d: Decoder) returns (rows: seq<Row>, why: LineResult)
    requires d.seqno == 0
    modifies d, d.r
    ensures (rows, why) == DecodeAll(d.codec, old(d.r.rest), d.r.end, 0)
    ensures d.seqno == |rows|
  {
    rows := [];
    ghost var all := DecodeAll(d.codec, d.r.rest, d.r.end, 0);
    while true
      invariant d.seqno == |rows|
      invariant rows <= all.0 && all.0[|rows|..] == DecodeAll(d.codec, d.r.rest, d.r.end, |rows|).0
      invariant all.1 == DecodeAll(d.codec, d.r.rest, d.r.end, |rows|).1
      decreases |d.r.rest|
    {
      var res, skipped := d.Next();
      if res.Stopped? {
        assert rows == all.0[..|rows|] == all.0;
        return rows, res.why;
      }
      assert all.0[|rows| + 1..] == all.0[|rows|..][1..];
      rows := rows + [Row(d.seqno, res.text)];
    }
  }
}
