/**
 Timestamps as fixed-width text: UTC, milliseconds, in an order the database can
 compare byte by byte. An instant is a number of nanoseconds since the start of
 year 0; the calendar is the Gregorian one.
 */
module Timestamps {
  import opened Common
  import opened Texts

  // ---- the calendar ------------------------------------------------------------------

  predicate IsLeap(y: nat) {
    y % 4 == 0 && (y % 100 != 0 || y % 400 == 0)
  }

  function YearDays(y: nat): nat {
    if IsLeap(y) then 366 else 365
  }

  function MonthDays(y: nat, m: nat): nat {
    if m == 2 then if IsLeap(y) then 29 else 28
    else if m == 4 || m == 6 || m == 9 || m == 11 then 30
    else 31
  }

  /** Days before the first day of the year, and of the month within it. */
  function YearStart(y: nat): nat {
    if y == 0 then 0 else YearStart(y - 1) + YearDays(y - 1)
  }

  function MonthStart(y: nat, m: nat): nat {
    if m <= 1 then 0 else MonthStart(y, m - 1) + MonthDays(y, m - 1)
  }

  /** The year in which a day falls that comes so many days after the start of y. */
  function YearOf(day: nat, y: nat): nat
    decreases day
  {
    if day < YearDays(y) then y else YearOf(day - YearDays(y), y + 1)
  }

  function MonthOf(day: nat, y: nat, m: nat): nat
    decreases day
  {
    if day < MonthDays(y, m) then m else MonthOf(day - MonthDays(y, m), y, m + 1)
  }

  datatype Fields = Fields(year: nat, month: nat, day: nat, hour: nat, minute: nat, second: nat, milli: nat)

  const DAY := 86_400_000

  predicate ValidFields(f: Fields) {
    && 1 <= f.month <= 12 && 1 <= f.day <= MonthDays(f.year, f.month)
    && f.hour < 24 && f.minute < 60 && f.second < 60 && f.milli < 1000
  }

  /** The millisecond that fields name. */
  function Value(f: Fields): int {
    (YearStart(f.year) + MonthStart(f.year, f.month) + f.day - 1) * DAY + Clock(f)
  }

  function Clock(f: Fields): nat {
    f.hour * 3_600_000 + f.minute * 60_000 + f.second * 1000 + f.milli
  }

  function FieldsOf(ms: nat): Fields {
    var day, clock := ms / DAY, ms % DAY;
    var y := YearOf(day, 0);
    var rest := if day >= YearStart(y) then day - YearStart(y) else 0;
    var m := MonthOf(rest, y, 1);
    Fields(y, m, if rest >= MonthStart(y, m) then rest - MonthStart(y, m) + 1 else 1,
           clock / 3_600_000, clock / 60_000 % 60, clock / 1000 % 60, clock % 1000)
  }

  lemma {:induction false} YearContains(day: nat, y: nat)
    ensures var r := YearOf(day, y);
            r >= y && YearStart(r) <= YearStart(y) + day < YearStart(r + 1)
    decreases day
  {
    if day >= YearDays(y) {
      YearContains(day - YearDays(y), y + 1);
    }
  }

  lemma {:induction false} YearsAscend(x: nat, y: nat)
    requires x < y
    ensures YearStart(x + 1) <= YearStart(y)
  {
    if x + 1 < y {
      YearsAscend(x, y - 1);
    }
  }

  lemma YearLength(y: nat)
    ensures MonthStart(y, 13) == YearDays(y)
  {
    MonthStep(y, 1);
    MonthStep(y, 2);
    MonthStep(y, 3);
    MonthStep(y, 4);
    MonthStep(y, 5);
    MonthStep(y, 6);
    MonthStep(y, 7);
    MonthStep(y, 8);
    MonthStep(y, 9);
    MonthStep(y, 10);
    MonthStep(y, 11);
    MonthStep(y, 12);
  }

  lemma MonthStep(y: nat, m: nat)
    requires m >= 1
    ensures MonthStart(y, m + 1) == MonthStart(y, m) + MonthDays(y, m)
  {
  }

  lemma {:induction false} MonthsAscend(y: nat, m: nat, n: nat)
    requires 1 <= m < n
    ensures MonthStart(y, m + 1) <= MonthStart(y, n)
  {
    if m + 1 < n {
      MonthsAscend(y, m, n - 1);
    }
  }

  lemma {:induction false} MonthContains(day: nat, y: nat, m: nat)
    requires m >= 1
    ensures var r := MonthOf(day, y, m);
            r >= m && MonthStart(y, r) <= MonthStart(y, m) + day < MonthStart(y, r + 1)
    decreases day
  {
    if day >= MonthDays(y, m) {
      MonthContains(day - MonthDays(y, m), y, m + 1);
    }
  }

  lemma FieldsAreValid(ms: nat)
    ensures ValidFields(FieldsOf(ms)) && Value(FieldsOf(ms)) == ms
  {
    var day, clock := ms / DAY, ms % DAY;
    YearContains(day, 0);
    var y := YearOf(day, 0);
    var rest := day - YearStart(y);
    MonthContains(rest, y, 1);
    var m := MonthOf(rest, y, 1);
    YearLength(y);
    if m > 12 {
      MonthsAscend(y, 12, m + 1);
      if m > 13 {
        MonthsAscend(y, 12, m);
      }
    }
    ClockParts(clock);
  }

  lemma ClockParts(clock: nat)
    requires clock < DAY
    ensures var h, mi, s, milli := clock / 3_600_000, clock / 60_000 % 60, clock / 1000 % 60, clock % 1000;
            h < 24 && h * 3_600_000 + mi * 60_000 + s * 1000 + milli == clock
  {
    assert clock / 60_000 == clock / 1000 / 60 && clock / 3_600_000 == clock / 60_000 / 60;
  }

  // ---- the order of fields -----------------------------------------------------------------

  predicate Earlier(f: Fields, g: Fields) {
    f.year < g.year || (f.year == g.year && (
    f.month < g.month || (f.month == g.month && (
    f.day < g.day || (f.day == g.day && (
    f.hour < g.hour || (f.hour == g.hour && (
    f.minute < g.minute || (f.minute == g.minute && (
    f.second < g.second || (f.second == g.second && f.milli < g.milli)))))))))))
  }

  /** The days of a year and of a month stay inside it. */
  lemma DayWithin(f: Fields)
    requires ValidFields(f)
    ensures MonthStart(f.year, f.month) + f.day <= MonthStart(f.year, f.month + 1)
    ensures MonthStart(f.year, f.month) + f.day <= YearDays(f.year)
  {
    YearLength(f.year);
    if f.month < 12 {
      MonthsAscend(f.year, f.month, 13);
    }
  }

  lemma ClockWithin(f: Fields)
    requires ValidFields(f)
    ensures Clock(f) < DAY
  {
  }

  lemma EarlierIsLess(f: Fields, g: Fields)
    requires ValidFields(f) && ValidFields(g) && Earlier(f, g)
    ensures Value(f) < Value(g)
  {
    var a := YearStart(f.year) + MonthStart(f.year, f.month) + f.day;
    var b := YearStart(g.year) + MonthStart(g.year, g.month) + g.day;
    DayWithin(f);
    ClockWithin(f);
    if f.year < g.year {
      YearsAscend(f.year, g.year);
      assert a < b;
    } else if f.month < g.month {
      MonthsAscend(f.year, f.month, g.month);
      assert a < b;
    }
  }

  lemma EarlierIffLess(a: nat, b: nat)
    ensures Earlier(FieldsOf(a), FieldsOf(b)) <==> a < b
  {
    var f, g := FieldsOf(a), FieldsOf(b);
    FieldsAreValid(a);
    FieldsAreValid(b);
    assert Earlier(f, g) || f == g || Earlier(g, f);
    if Earlier(f, g) {
      EarlierIsLess(f, g);
    } else if Earlier(g, f) {
      EarlierIsLess(g, f);
    }
  }

  // ---- fixed-width numbers ---------------------------------------------------------------------

  function Pad(n: nat, w: nat): string {
    if w == 0 then "" else Pad(n / 10, w - 1) + [Digit(n % 10)]
  }

  predicate Fits(n: nat, w: nat) {
    if w == 0 then n == 0 else Fits(n / 10, w - 1)
  }

  lemma {:induction false} PadRoundTrip(n: nat, w: nat)
    requires Fits(n, w)
    ensures |Pad(n, w)| == w && AllDigits(Pad(n, w)) && DecimalValue(Pad(n, w)) == n
  {
    if w > 0 {
      PadRoundTrip(n / 10, w - 1);
      assert Pad(n, w)[..w - 1] == Pad(n / 10, w - 1);
    }
  }

  lemma {:induction false} PadUndoes(s: string)
    requires AllDigits(s)
    ensures Fits(DecimalValue(s), |s|) && Pad(DecimalValue(s), |s|) == s
  {
    if s != [] {
      var n := |s| - 1;
      PadUndoes(s[..n]);
      assert s == s[..n] + [s[n]];
    }
  }

  lemma LastDigitDecides(p: string, a: nat, b: nat)
    requires a < 10 && b < 10
    ensures Less(p + [Digit(a)], p + [Digit(b)]) <==> a < b
  {
    var x, y := [Digit(a)], [Digit(b)];
    LessAfterPrefix(p, x, y);
    assert x[1..] == y[1..] == [] && !Less([], []);
  }

  lemma {:induction false} PadOrder(a: nat, b: nat, w: nat)
    requires Fits(a, w) && Fits(b, w)
    ensures Less(Pad(a, w), Pad(b, w)) <==> a < b
  {
    if w > 0 {
      PadOrder(a / 10, b / 10, w - 1);
      PadRoundTrip(a / 10, w - 1);
      PadRoundTrip(b / 10, w - 1);
      if a / 10 == b / 10 {
        LastDigitDecides(Pad(a / 10, w - 1), a % 10, b % 10);
      } else {
        LessDecided(Pad(a / 10, w - 1), Pad(b / 10, w - 1), [Digit(a % 10)], [Digit(b % 10)]);
      }
    }
  }

  // ---- the text -------------------------------------------------------------------------------------

  /** A number, the character after it, and the rest. */
  function Part(n: nat, w: nat, sep: char, rest: string): string {
    Pad(n, w) + [sep] + rest
  }

  function AfterYear(f: Fields): string {
    Part(f.month, 2, '-', AfterMonth(f))
  }

  function AfterMonth(f: Fields): string {
    Part(f.day, 2, 'T', AfterDay(f))
  }

  function AfterDay(f: Fields): string {
    Part(f.hour, 2, ':', Part(f.minute, 2, ':', AfterMinute(f)))
  }

  function AfterMinute(f: Fields): string {
    Part(f.second, 2, '.', Part(f.milli, 3, 'Z', ""))
  }

  /** Years of five and more digits are written out in full. */
  function Text(f: Fields): string {
    if f.year < 10_000 then Part(f.year, 4, '-', AfterYear(f)) else Decimal(f.year) + ['-'] + AfterYear(f)
  }

  function Millis(t: int): int {
    t / 1_000_000
  }

  function FormatTime(t: int): string
    requires t >= 0
  {
    Text(FieldsOf(Millis(t)))
  }

  lemma OtherPart(p: string, q: string, sep: char, x: string, y: string)
    requires |p| == |q| && p != q
    ensures Less(p + [sep] + x, q + [sep] + y) <==> Less(p, q)
  {
    LessDecided(p, q, [sep] + x, [sep] + y);
    assert p + ([sep] + x) == p + [sep] + x && q + ([sep] + y) == q + [sep] + y;
  }

  lemma PartOrder(a: nat, b: nat, w: nat, sep: char, x: string, y: string)
    requires Fits(a, w) && Fits(b, w)
    ensures Less(Part(a, w, sep, x), Part(b, w, sep, y)) <==> a < b || (a == b && Less(x, y))
  {
    if a == b {
      LessAfterPrefix(Pad(a, w) + [sep], x, y);
    } else {
      PadOrder(a, b, w);
      PadRoundTrip(a, w);
      PadRoundTrip(b, w);
      OtherPart(Pad(a, w), Pad(b, w), sep, x, y);
    }
  }

  lemma FitsBelow(n: nat)
    ensures n < 100 ==> Fits(n, 2)
    ensures n < 1000 ==> Fits(n, 3)
    ensures Fits(n, 4) <==> n < 10_000
  {
    assert n / 10 / 10 == n / 100 && n / 100 / 10 == n / 1000 && n / 1000 / 10 == n / 10_000;
    assert Fits(n / 10_000, 0) <==> n / 10_000 == 0;
    assert Fits(n / 1000, 1) <==> Fits(n / 1000 / 10, 0);
    assert Fits(n / 100, 2) <==> Fits(n / 100 / 10, 1);
    assert Fits(n / 10, 3) <==> Fits(n / 10 / 10, 2);
  }

  lemma FieldsFit(f: Fields)
    requires ValidFields(f)
    ensures Fits(f.month, 2) && Fits(f.day, 2) && Fits(f.hour, 2) && Fits(f.minute, 2) && Fits(f.second, 2) && Fits(f.milli, 3)
    ensures Fits(f.year, 4) <==> f.year < 10_000
  {
    FitsBelow(f.year);
    FitsBelow(f.month);
    FitsBelow(f.day);
    FitsBelow(f.hour);
    FitsBelow(f.minute);
    FitsBelow(f.second);
    FitsBelow(f.milli);
  }

  lemma ClockTextOrder(f: Fields, g: Fields)
    requires ValidFields(f) && ValidFields(g)
    ensures Less(AfterDay(f), AfterDay(g)) <==>
              f.hour < g.hour || (f.hour == g.hour && (f.minute < g.minute || (f.minute == g.minute &&
              (f.second < g.second || (f.second == g.second && f.milli < g.milli)))))
  {
    FieldsFit(f);
    FieldsFit(g);
    PartOrder(f.hour, g.hour, 2, ':', Part(f.minute, 2, ':', AfterMinute(f)), Part(g.minute, 2, ':', AfterMinute(g)));
    PartOrder(f.minute, g.minute, 2, ':', AfterMinute(f), AfterMinute(g));
    PartOrder(f.second, g.second, 2, '.', Part(f.milli, 3, 'Z', ""), Part(g.milli, 3, 'Z', ""));
    PartOrder(f.milli, g.milli, 3, 'Z', "", "");
    assert !Less("", "");
  }

  lemma TextOrder(f: Fields, g: Fields)
    requires ValidFields(f) && ValidFields(g) && f.year < 10_000 && g.year < 10_000
    ensures Less(Text(f), Text(g)) <==> Earlier(f, g)
  {
    FieldsFit(f);
    FieldsFit(g);
    ClockTextOrder(f, g);
    PartOrder(f.day, g.day, 2, 'T', AfterDay(f), AfterDay(g));
    PartOrder(f.month, g.month, 2, '-', AfterMonth(f), AfterMonth(g));
    PartOrder(f.year, g.year, 4, '-', AfterYear(f), AfterYear(g));
  }

  /** Before the year 10000. */
  predicate FourDigits(t: int)
    requires t >= 0
  {
    FieldsOf(Millis(t)).year < 10_000
  }

  /** Comparing the texts is comparing the instants, to the millisecond. */
  lemma TextOrdersTime(a: int, b: int)
    requires a >= 0 && b >= 0 && FourDigits(a) && FourDigits(b)
    ensures Less(FormatTime(a), FormatTime(b)) <==> a / 1_000_000 < b / 1_000_000
    ensures FormatTime(a) == FormatTime(b) <==> a / 1_000_000 == b / 1_000_000
  {
    FieldsAreValid(Millis(a));
    FieldsAreValid(Millis(b));
    TextOrder(FieldsOf(Millis(a)), FieldsOf(Millis(b)));
    TextOrder(FieldsOf(Millis(b)), FieldsOf(Millis(a)));
    EarlierIffLess(Millis(a), Millis(b));
    EarlierIffLess(Millis(b), Millis(a));
    LessIsIrreflexive(FormatTime(a));
  }

  // ---- reading the text back -----------------------------------------------------------------------------

  function TakePart(s: string, w: nat, sep: char): Option<(nat, string)> {
    if |s| > w && AllDigits(s[..w]) && s[w] == sep then Some((DecimalValue(s[..w]), s[w + 1..])) else None
  }

  /** Exactly the layout that is written. */
  function ParseFields(s: string): Option<Fields> {
    match TakePart(s, 4, '-') case None => None case Some((year, s1)) =>
    match TakePart(s1, 2, '-') case None => None case Some((month, s2)) =>
    match TakePart(s2, 2, 'T') case None => None case Some((day, s3)) =>
    match TakePart(s3, 2, ':') case None => None case Some((hour, s4)) =>
    match TakePart(s4, 2, ':') case None => None case Some((minute, s5)) =>
    match TakePart(s5, 2, '.') case None => None case Some((second, s6)) =>
    match TakePart(s6, 3, 'Z') case None => None case Some((milli, s7)) =>
    var f := Fields(year, month, day, hour, minute, second, milli);
    if s7 == "" && ValidFields(f) then Some(f) else None
  }

  function ParseMillis(s: string): Option<int> {
    match ParseFields(s)
    case None => None
    case Some(f) => Some(Value(f))
  }

  lemma TakeUndoesPart(n: nat, w: nat, sep: char, rest: string)
    requires Fits(n, w)
    ensures TakePart(Part(n, w, sep, rest), w, sep) == Some((n, rest))
  {
    PadRoundTrip(n, w);
    var s := Part(n, w, sep, rest);
    assert s[..w] == Pad(n, w) && s[w + 1..] == rest;
  }

  lemma PartUndoesTake(s: string, w: nat, sep: char)
    requires TakePart(s, w, sep).Some?
    ensures var (n, rest) := TakePart(s, w, sep).value; Fits(n, w) && Part(n, w, sep, rest) == s
  {
    PadUndoes(s[..w]);
    assert s == s[..w] + [s[w]] + s[w + 1..];
  }

  lemma ParseUndoesText(f: Fields)
    requires ValidFields(f) && f.year < 10_000
    ensures ParseFields(Text(f)) == Some(f)
  {
    FieldsFit(f);
    TakeUndoesPart(f.year, 4, '-', AfterYear(f));
    TakeUndoesPart(f.month, 2, '-', AfterMonth(f));
    TakeUndoesPart(f.day, 2, 'T', AfterDay(f));
    TakeUndoesPart(f.hour, 2, ':', Part(f.minute, 2, ':', AfterMinute(f)));
    TakeUndoesPart(f.minute, 2, ':', AfterMinute(f));
    TakeUndoesPart(f.second, 2, '.', Part(f.milli, 3, 'Z', ""));
    TakeUndoesPart(f.milli, 3, 'Z', "");
  }

  /** Where the parts of the layout stand. */
  lemma LayoutOf(s: string)
    requires ParseFields(s).Some?
    ensures |s| == 24 && s[4] == '-' && s[7] == '-' && s[10] == 'T' && s[13] == ':' && s[16] == ':' && s[19] == '.' && s[23] == 'Z'
    ensures AllDigits(s[0..4]) && AllDigits(s[5..7]) && AllDigits(s[8..10]) && AllDigits(s[11..13]) && AllDigits(s[14..16])
            && AllDigits(s[17..19]) && AllDigits(s[20..23])
    ensures ParseFields(s).value == Fields(DecimalValue(s[0..4]), DecimalValue(s[5..7]), DecimalValue(s[8..10]), DecimalValue(s[11..13]),
                                           DecimalValue(s[14..16]), DecimalValue(s[17..19]), DecimalValue(s[20..23]))
  {
    var s1 := TakePart(s, 4, '-').value.1;
    var s2 := TakePart(s1, 2, '-').value.1;
    var s3 := TakePart(s2, 2, 'T').value.1;
    var s4 := TakePart(s3, 2, ':').value.1;
    var s5 := TakePart(s4, 2, ':').value.1;
    var s6 := TakePart(s5, 2, '.').value.1;
    assert s1 == s[5..] && s2 == s[8..] && s3 == s[11..] && s4 == s[14..] && s5 == s[17..] && s6 == s[20..];
    assert s[..4] == s[0..4] && s1[..2] == s[5..7] && s2[..2] == s[8..10] && s3[..2] == s[11..13] && s4[..2] == s[14..16];
    assert s5[..2] == s[17..19] && s6[..3] == s[20..23];
  }

  /** The days before a year, as the Gregorian calendar counts them. */
  lemma {:induction false} YearStartIs(y: nat)
    ensures YearStart(y) == if y == 0 then 0 else 365 * y + (y - 1) / 4 - (y - 1) / 100 + (y - 1) / 400 + 1
  {
    if y > 1 {
      YearStartIs(y - 1);
      Quotients(y - 1);
      LeapParts(y - 1);
    }
  }

  lemma Quotients(n: nat)
    requires n > 0
    ensures n / 4 == (n - 1) / 4 + if n % 4 == 0 then 1 else 0
    ensures n / 100 == (n - 1) / 100 + if n % 100 == 0 then 1 else 0
    ensures n / 400 == (n - 1) / 400 + if n % 400 == 0 then 1 else 0
  {
  }

  lemma LeapParts(n: nat)
    ensures n % 400 == 0 ==> n % 100 == 0
    ensures n % 100 == 0 ==> n % 4 == 0
  {
    if n % 400 == 0 {
      NoneBelow(n % 100, 4 * (n / 400) - n / 100, 100);
    }
    if n % 100 == 0 {
      NoneBelow(n % 4, 25 * (n / 100) - n / 4, 4);
    }
  }

  lemma NoneBelow(r: int, d: int, m: int)
    requires 0 <= r < m && (m == 4 || m == 100) && r == m * d
    ensures r == 0
  {
  }

  /** The days of a year before each month. */
  lemma MonthStartIs(y: nat, m: nat)
    requires 1 <= m <= 12
    ensures MonthStart(y, m) ==
              [0, 31, 59, 90, 120, 151, 181, 212, 243, 273, 304, 334][m - 1] + if m > 2 && y % 4 == 0 && (y % 100 != 0 || y % 400 == 0) then 1 else 0
  {
    MonthStep(y, 1);
    MonthStep(y, 2);
    MonthStep(y, 3);
    MonthStep(y, 4);
    MonthStep(y, 5);
    MonthStep(y, 6);
    MonthStep(y, 7);
    MonthStep(y, 8);
    MonthStep(y, 9);
    MonthStep(y, 10);
    MonthStep(y, 11);
  }

  /** The number of a date in the Gregorian calendar, counted from the first day of year 0. */
  function DayNumber(year: nat, month: nat, day: nat): int
    requires 1 <= month <= 12
  {
    (if year == 0 then 0 else 365 * year + (year - 1) / 4 - (year - 1) / 100 + (year - 1) / 400 + 1)
    + [0, 31, 59, 90, 120, 151, 181, 212, 243, 273, 304, 334][month - 1]
    + (if month > 2 && year % 4 == 0 && (year % 100 != 0 || year % 400 == 0) then 1 else 0)
    + day - 1
  }

  lemma ValueIs(f: Fields)
    requires ValidFields(f)
    ensures Value(f) == DayNumber(f.year, f.month, f.day) * 86_400_000 + f.hour * 3_600_000 + f.minute * 60_000 + f.second * 1000 + f.milli
  {
    YearStartIs(f.year);
    MonthStartIs(f.year, f.month);
    assert DayNumber(f.year, f.month, f.day) == YearStart(f.year) + MonthStart(f.year, f.month) + f.day - 1;
  }

  /**
   What is written: year, month, day, hour, minute, second and millisecond in
   their places, and these numbers name the instant in the Gregorian calendar.
   */
  lemma WrittenNames(t: int)
    requires t >= 0 && FourDigits(t)
    ensures var s := FormatTime(t);
            && |s| == 24 && s[4] == '-' && s[7] == '-' && s[10] == 'T' && s[13] == ':' && s[16] == ':' && s[19] == '.' && s[23] == 'Z'
            && AllDigits(s[0..4]) && AllDigits(s[5..7]) && AllDigits(s[8..10]) && AllDigits(s[11..13]) && AllDigits(s[14..16])
            && AllDigits(s[17..19]) && AllDigits(s[20..23])
            && 1 <= DecimalValue(s[5..7]) <= 12
            && t / 1_000_000 == DayNumber(DecimalValue(s[0..4]), DecimalValue(s[5..7]), DecimalValue(s[8..10])) * 86_400_000
                            + DecimalValue(s[11..13]) * 3_600_000 + DecimalValue(s[14..16]) * 60_000
                            + DecimalValue(s[17..19]) * 1000 + DecimalValue(s[20..23])
  {
    var f := FieldsOf(Millis(t));
    FieldsAreValid(Millis(t));
    ParseUndoesText(f);
    LayoutOf(FormatTime(t));
    ValueIs(f);
  }

  /** Reading back what was written gives the instant, to the millisecond. */
  lemma ParseUndoesFormat(t: int)
    requires t >= 0 && FourDigits(t)
    ensures ParseMillis(FormatTime(t)) == Some(Millis(t))
  {
    FieldsAreValid(Millis(t));
    ParseUndoesText(FieldsOf(Millis(t)));
  }

  lemma TextUndoesParse(s: string)
    requires ParseFields(s).Some?
    ensures ParseFields(s).value.year < 10_000 && Text(ParseFields(s).value) == s
  {
    var f := ParseFields(s).value;
    var s1 := TakePart(s, 4, '-').value.1;
    var s2 := TakePart(s1, 2, '-').value.1;
    var s3 := TakePart(s2, 2, 'T').value.1;
    var s4 := TakePart(s3, 2, ':').value.1;
    var s5 := TakePart(s4, 2, ':').value.1;
    var s6 := TakePart(s5, 2, '.').value.1;
    PartUndoesTake(s, 4, '-');
    PartUndoesTake(s1, 2, '-');
    PartUndoesTake(s2, 2, 'T');
    PartUndoesTake(s3, 2, ':');
    PartUndoesTake(s4, 2, ':');
    PartUndoesTake(s5, 2, '.');
    PartUndoesTake(s6, 3, 'Z');
    FitsBelow(f.year);
  }

  lemma ValueNames(f: Fields)
    requires ValidFields(f)
    ensures Value(f) >= 0 && FieldsOf(Value(f)) == f
  {
    var g := FieldsOf(Value(f));
    FieldsAreValid(Value(f));
    assert Earlier(f, g) || f == g || Earlier(g, f);
    if Earlier(f, g) {
      EarlierIsLess(f, g);
    } else if Earlier(g, f) {
      EarlierIsLess(g, f);
    }
  }

  /** Any text that reads as an instant is the one text of it. */
  lemma FormatUndoesParse(s: string)
    requires ParseMillis(s).Some?
    ensures ParseMillis(s).value >= 0 && FormatTime(ParseMillis(s).value * 1_000_000) == s
  {
    var f := ParseFields(s).value;
    TextUndoesParse(s);
    ValueNames(f);
    WholeMillis(Value(f));
  }

  // ---- the zero time and NULL ------------------------------------------------------------------------------

  /** The zero time is the start of year 1. */
  const ZERO := 366 * DAY * 1_000_000

  /** A column that may be NULL. */
  function TimeArg(t: int): Option<string>
    requires t >= 0
  {
    if t == ZERO then None else Some(FormatTime(t))
  }

  function NullTime(column: Option<string>): Option<int> {
    match column
    case None => Some(Millis(ZERO))
    case Some(s) => if s == "" then Some(Millis(ZERO)) else ParseMillis(s)
  }

  /** The zero time goes through NULL, every other time through its text. */
  lemma NullRoundTrip(t: int)
    requires t >= 0 && FourDigits(t)
    ensures NullTime(TimeArg(t)) == Some(Millis(t))
    ensures TimeArg(t) == None <==> t == DayNumber(1, 1, 1) * 86_400_000_000_000
  {
    ParseUndoesFormat(t);
    assert ParseMillis("").None?;
  }

  // ---- beyond four digits -------------------------------------------------------------------------------------

  lemma PadFirst(y: nat)
    requires y < 10_000
    ensures |Pad(y, 4)| == 4 && Pad(y, 4)[0] == Digit(y / 1000)
  {
    FitsBelow(y);
    PadRoundTrip(y, 4);
    assert Pad(y, 4) == Pad(y / 10, 3) + [Digit(y % 10)];
    assert Pad(y / 10, 3) == Pad(y / 10 / 10, 2) + [Digit(y / 10 % 10)];
    assert Pad(y / 10 / 10, 2) == Pad(y / 10 / 10 / 10, 1) + [Digit(y / 10 / 10 % 10)];
    assert Pad(y / 10 / 10 / 10, 1) == [] + [Digit(y / 10 / 10 / 10 % 10)];
    assert y / 10 / 10 / 10 == y / 1000;
  }

  lemma DecimalFirst(y: nat)
    requires 10_000 <= y < 20_000
    ensures |Decimal(y)| > 0 && Decimal(y)[0] == '1'
  {
    assert Decimal(y) == Decimal(y / 10) + [Digit(y % 10)];
    assert Decimal(y / 10) == Decimal(y / 10 / 10) + [Digit(y / 10 % 10)];
    assert Decimal(y / 10 / 10) == Decimal(y / 10 / 10 / 10) + [Digit(y / 10 / 10 % 10)];
    assert Decimal(y / 10 / 10 / 10) == Decimal(y / 10 / 10 / 10 / 10) + [Digit(y / 10 / 10 / 10 % 10)];
    assert y / 10 / 10 / 10 / 10 == 1;
  }

  /** Beyond the year 9999 the order breaks: the years 10000 to 19999 sort before the years 2000 to 9999. */
  lemma OrderBreaksAfter9999(a: int, b: int)
    requires a >= 0 && b >= 0
    requires 2000 <= FieldsOf(Millis(a)).year < 10_000 <= FieldsOf(Millis(b)).year < 20_000
    ensures Millis(a) < Millis(b) && Less(FormatTime(b), FormatTime(a))
  {
    var f, g := FieldsOf(Millis(a)), FieldsOf(Millis(b));
    EarlierIffLess(Millis(a), Millis(b));
    PadFirst(f.year);
    DecimalFirst(g.year);
    assert Text(f)[0] == Digit(f.year / 1000) && Text(g)[0] == '1';
  }

  function YearAt(t: int): nat
    requires t >= 0
  {
    FieldsOf(Millis(t)).year
  }

  lemma WholeMillis(ms: int)
    ensures Millis(ms * 1_000_000) == ms
  {
  }

  /** Whatever date and time are written, there is the instant. */
  lemma InstantOf(f: Fields) returns (t: int)
    requires ValidFields(f)
    ensures t >= 0 && FieldsOf(Millis(t)) == f
  {
    ValueNames(f);
    WholeMillis(Value(f));
    t := Value(f) * 1_000_000;
  }

  lemma StartOfYear(y: nat) returns (t: int)
    ensures t >= 0 && YearAt(t) == y
  {
    t := InstantOf(Fields(y, 1, 1, 0, 0, 0, 0));
  }

  /** Up to the end of a year, comparing texts is comparing instants. */
  ghost predicate OrderHoldsTo(year: nat) {
    forall a, b | a >= 0 && b >= 0 && YearAt(a) <= year && YearAt(b) <= year ::
      Less(FormatTime(a), FormatTime(b)) <==> Millis(a) < Millis(b)
  }

  /** The texts of all instants of the years 0 to year sort as the instants do if and only if the year has at most four digits. */
  lemma OrderHoldsIff(year: nat)
    ensures OrderHoldsTo(year) <==> year < 10_000
  {
    if year < 10_000 {
      forall a, b | a >= 0 && b >= 0 && YearAt(a) <= year && YearAt(b) <= year
        ensures Less(FormatTime(a), FormatTime(b)) <==> Millis(a) < Millis(b)
      {
        TextOrdersTime(a, b);
      }
    } else {
      var a := StartOfYear(9999);
      var b := StartOfYear(10_000);
      OrderBreaksAfter9999(a, b);
      LessIsTotal(FormatTime(a), FormatTime(b));
    }
  }

  /** No timestamp holds a bar, which is what ends it in a cursor. */
  lemma NoBar(t: int)
    requires t >= 0 && FourDigits(t)
    ensures '|' !in FormatTime(t)
  {
    var f := FieldsOf(Millis(t));
    FieldsAreValid(Millis(t));
    FieldsFit(f);
    PadHasNoBar(f.year, 4);
    PadHasNoBar(f.month, 2);
    PadHasNoBar(f.day, 2);
    PadHasNoBar(f.hour, 2);
    PadHasNoBar(f.minute, 2);
    PadHasNoBar(f.second, 2);
    PadHasNoBar(f.milli, 3);
  }

  lemma PadHasNoBar(n: nat, w: nat)
    requires Fits(n, w)
    ensures '|' !in Pad(n, w)
  {
    PadRoundTrip(n, w);
  }
}
