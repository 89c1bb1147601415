/**
 Listing executions page by page: the newest first, with a cursor that names the
 last row seen. The pages are compared with the full listing, also while rows
 come and go between them.
 */
module Paging {
  import opened Common
  import opened Texts

  /** What orders rows: the time queued, as the text the database holds, and the id to break ties. */
  datatype Key = Key(at: string, id: int)

  datatype Row = Row(key: Key, task: Option<int>, status: string, detail: string)

  /** Every field is optional; like stands for the text search. */
  datatype Filter = Filter(task: Option<int>, statuses: seq<string>, since: Option<string>, until: Option<string>,
                           like: Row -> bool)

  /** The rows by id. */
  type Table = map<int, Row>

  predicate WellKeyed(t: Table) {
    forall id | id in t :: t[id].key.id == id
  }

  predicate Matches(f: Filter, r: Row) {
    && (f.task.Some? ==> r.task == f.task)
    && (f.statuses != [] ==> r.status in f.statuses)
    && (f.since.Some? ==> !Less(r.key.at, f.since.value))
    && (f.until.Some? ==> !Less(f.until.value, r.key.at))
    && f.like(r)
  }

  // ---- the order -------------------------------------------------------------------

  predicate Older(a: Key, b: Key) {
    Less(a.at, b.at) || (a.at == b.at && a.id < b.id)
  }

  lemma OlderIsTotal(a: Key, b: Key)
    ensures Older(a, b) || a == b || Older(b, a)
    ensures !(Older(a, b) && Older(b, a)) && !Older(a, a)
  {
    LessIsTotal(a.at, b.at);
    LessIsIrreflexive(a.at);
  }

  lemma OlderIsTransitive(a: Key, b: Key, c: Key)
    requires Older(a, b) && Older(b, c)
    ensures Older(a, c)
  {
    if Less(a.at, b.at) && Less(b.at, c.at) {
      LessIsTransitive(a.at, b.at, c.at);
    }
  }

  ghost predicate IsNewest(keys: set<Key>, m: Key) {
    m in keys && forall k | k in keys && k != m :: Older(k, m)
  }

  lemma {:induction false} HasNewest(keys: set<Key>)
    requires keys != {}
    ensures exists m :: IsNewest(keys, m)
  {
    var x :| x in keys;
    var rest := keys - {x};
    if rest == {} {
      assert forall k | k in keys :: k == x || k in rest;
      assert IsNewest(keys, x);
    } else {
      HasNewest(rest);
      var m :| IsNewest(rest, m);
      OlderIsTotal(x, m);
      var top := if Older(x, m) then m else x;
      forall k | k in keys && k != top ensures Older(k, top) {
        if k != x && k != m {
          assert Older(k, m);
          if top == x {
            OlderIsTransitive(k, m, x);
          }
        }
      }
      assert IsNewest(keys, top);
    }
  }

  ghost function Newest(keys: set<Key>): (m: Key)
    requires keys != {}
    ensures IsNewest(keys, m)
  {
    HasNewest(keys);
    var m :| IsNewest(keys, m);
    m
  }

  // ---- the full listing ----------------------------------------------------------------

  /** All keys, newest first. */
  ghost function Listing(keys: set<Key>): seq<Key>
    decreases |keys|
  {
    if keys == {} then [] else [Newest(keys)] + Listing(keys - {Newest(keys)})
  }

  ghost predicate Descending(s: seq<Key>) {
    forall i, j | 0 <= i < j < |s| :: Older(s[j], s[i])
  }

  lemma {:induction false} ListingMeaning(keys: set<Key>)
    ensures Descending(Listing(keys)) && |Listing(keys)| == |keys|
    ensures forall k :: k in Listing(keys) <==> k in keys
    decreases |keys|
  {
    if keys != {} {
      var m := Newest(keys);
      var rest := Listing(keys - {m});
      ListingMeaning(keys - {m});
      forall i, j | 0 <= i < j < |Listing(keys)| ensures Older(Listing(keys)[j], Listing(keys)[i]) {
        if i == 0 {
          assert rest[j - 1] in rest;
        } else {
          assert Older(rest[j - 1], rest[i - 1]);
        }
      }
    }
  }

  ghost function Below(keys: set<Key>, cursor: Option<Key>): set<Key> {
    set k | k in keys && (cursor.None? || Older(k, cursor.value))
  }

  lemma BelowNewest(keys: set<Key>)
    requires keys != {}
    ensures Below(keys, Some(Newest(keys))) == keys - {Newest(keys)}
  {
    OlderIsTotal(Newest(keys), Newest(keys));
  }

  lemma BelowOther(keys: set<Key>, c: Key)
    requires keys != {} && c in keys && c != Newest(keys)
    ensures Below(keys, Some(c)) == Below(keys - {Newest(keys)}, Some(c))
  {
    OlderIsTotal(c, Newest(keys));
  }

  lemma TailOf(m: Key, rest: seq<Key>, i: nat)
    requires 0 < i <= |rest| + 1
    ensures ([m] + rest)[i..] == rest[i - 1..]
  {
  }

  /** Listing what is older than the i-th key is the rest of the listing. */
  lemma {:induction false} ListingBelow(keys: set<Key>, i: nat)
    requires 0 < i <= |Listing(keys)|
    ensures Listing(Below(keys, Some(Listing(keys)[i - 1]))) == Listing(keys)[i..]
    decreases |keys|
  {
    var m := Newest(keys);
    var rest := keys - {m};
    TailOf(m, Listing(rest), i);
    if i == 1 {
      BelowNewest(keys);
    } else {
      var c := Listing(rest)[i - 2];
      ListingMeaning(rest);
      assert c in Listing(rest);
      BelowOther(keys, c);
      ListingBelow(rest, i - 1);
    }
  }

  // ---- pages ------------------------------------------------------------------------------

  datatype Page = Page(keys: seq<Key>, next: Option<Key>)

  function PageSize(limit: int): nat {
    if limit <= 0 || limit > 200 then 50 else limit
  }

  /** One row more than the page is asked for, to see whether another page exists. */
  ghost function PageOf(keys: set<Key>, cursor: Option<Key>, size: nat): Page
    requires size > 0
  {
    var rows := Listing(Below(keys, cursor));
    if |rows| > size then Page(rows[..size], Some(rows[size - 1])) else Page(rows, None)
  }

  lemma NextIsBelow(keys: set<Key>, cursor: Option<Key>, size: nat)
    requires size > 0 && PageOf(keys, cursor, size).next.Some?
    ensures var rows := Listing(Below(keys, cursor));
            Listing(Below(keys, PageOf(keys, cursor, size).next)) == rows[size..]
    ensures |Below(keys, PageOf(keys, cursor, size).next)| + size == |Below(keys, cursor)|
  {
    var below, next := Below(keys, cursor), PageOf(keys, cursor, size).next;
    var rows := Listing(below);
    ListingMeaning(below);
    assert next.value in rows;
    forall k | k in keys && Older(k, next.value) ensures k in below {
      if cursor.Some? {
        OlderIsTransitive(k, next.value, cursor.value);
      }
    }
    assert Below(keys, next) == Below(below, next);
    ListingBelow(below, size);
    ListingMeaning(Below(keys, next));
  }

  /** Following the cursors until there is none. */
  ghost function Walk(keys: set<Key>, cursor: Option<Key>, size: nat): seq<Page>
    requires size > 0
    decreases |Below(keys, cursor)|
  {
    var p := PageOf(keys, cursor, size);
    if p.next.None? then [p]
    else
      NextIsBelow(keys, cursor, size);
      [p] + Walk(keys, p.next, size)
  }

  function Joined(pages: seq<Page>): seq<Key> {
    if pages == [] then [] else pages[0].keys + Joined(pages[1..])
  }

  lemma {:induction false} WalkJoins(keys: set<Key>, cursor: Option<Key>, size: nat)
    requires size > 0
    ensures Joined(Walk(keys, cursor, size)) == Listing(Below(keys, cursor))
    decreases |Below(keys, cursor)|
  {
    var p := PageOf(keys, cursor, size);
    var rows := Listing(Below(keys, cursor));
    if p.next.Some? {
      NextIsBelow(keys, cursor, size);
      WalkJoins(keys, p.next, size);
      var rest := Walk(keys, p.next, size);
      assert ([p] + rest)[1..] == rest;
      assert rows[..size] + rows[size..] == rows;
    } else {
      assert Joined([p]) == p.keys + Joined([p][1..]);
    }
  }

  /** Full pages as long as there is more, then the last one, which may be empty. */
  function PageCount(n: nat, size: nat): nat
    requires size > 0
  {
    if n <= size then 1 else 1 + PageCount(n - size, size)
  }

  lemma {:induction false} PageCountIs(n: nat, size: nat)
    requires size > 0
    ensures PageCount(n, size) == if n == 0 then 1 else (n + size - 1) / size
  {
    if n > size {
      PageCountIs(n - size, size);
      DivideOff(n - 1, size);
    } else if n > 0 {
      Quotient(1, n - 1, size);
    }
  }

  lemma DivideOff(a: nat, size: nat)
    requires size > 0
    ensures (a + size) / size == a / size + 1
  {
    var q, r := a / size, a % size;
    assert a + size == (q + 1) * size + r;
    Quotient(q + 1, r, size);
  }

  lemma Quotient(q: nat, r: nat, size: nat)
    requires r < size
    ensures (q * size + r) / size == q
  {
    var d := (q * size + r) / size;
    var rest := (q * size + r) % size;
    assert (q - d) * size == rest - r;
    assert q - d >= 1 ==> (q - d) * size >= size;
    assert d - q >= 1 ==> (d - q) * size >= size;
    assert (q - d) * size == -((d - q) * size);
  }

  lemma NextLeavesFewer(keys: set<Key>, cursor: Option<Key>, size: nat)
    requires size > 0
    ensures var n := |Below(keys, cursor)|; var next := PageOf(keys, cursor, size).next;
            if next.None? then n <= size else n > size && |Below(keys, next)| == n - size
  {
    ListingMeaning(Below(keys, cursor));
    if PageOf(keys, cursor, size).next.Some? {
      NextIsBelow(keys, cursor, size);
    }
  }

  lemma {:induction false} WalkLength(keys: set<Key>, cursor: Option<Key>, size: nat)
    requires size > 0
    ensures |Walk(keys, cursor, size)| == PageCount(|Below(keys, cursor)|, size)
    decreases |Below(keys, cursor)|
  {
    NextLeavesFewer(keys, cursor, size);
    var next := PageOf(keys, cursor, size).next;
    if next.Some? {
      WalkLength(keys, next, size);
    }
  }

  /** Every page but the last is full. */
  ghost predicate Full(pages: seq<Page>, size: nat) {
    forall i | 0 <= i < |pages| :: |pages[i].keys| <= size && (i < |pages| - 1 ==> |pages[i].keys| == size)
  }

  lemma FullCons(p: Page, rest: seq<Page>, size: nat)
    requires Full(rest, size) && |p.keys| == size
    ensures Full([p] + rest, size)
  {
  }

  lemma {:induction false} WalkFills(keys: set<Key>, cursor: Option<Key>, size: nat)
    requires size > 0
    ensures Full(Walk(keys, cursor, size), size)
    decreases |Below(keys, cursor)|
  {
    NextLeavesFewer(keys, cursor, size);
    var p := PageOf(keys, cursor, size);
    if p.next.Some? {
      WalkFills(keys, p.next, size);
      FullCons(p, Walk(keys, p.next, size), size);
    }
  }

  /**
   A row passes the filter exactly when it is of the task asked for, in one of the
   statuses asked for, queued neither before since nor after until, both
   included, and found by the text search; what is not asked for lets all pass.
   */
  lemma MatchesIff(f: Filter, r: Row)
    ensures !Matches(f, r) <==>
              || (f.task.Some? && r.task != f.task)
              || (f.statuses != [] && forall i | 0 <= i < |f.statuses| :: f.statuses[i] != r.status)
              || (f.since.Some? && Less(r.key.at, f.since.value))
              || (f.until.Some? && Less(f.until.value, r.key.at))
              || !f.like(r)
  {
  }

  /** The keys of the rows a filter selects. */
  ghost function Selected(t: Table, f: Filter): set<Key> {
    set id | id in t && Matches(f, t[id]) :: t[id].key
  }

  /**
   Following the cursors from the first page returns every matching row exactly
   once, newest first, and takes as many pages as the rows fill, at least one.
   */
  lemma PagesAreTheListing(t: Table, f: Filter, limit: int)
    requires WellKeyed(t)
    ensures var pages, size := Walk(Selected(t, f), None, PageSize(limit)), if limit <= 0 || limit > 200 then 50 else limit;
            var all := Joined(pages);
            && all == Listing(Selected(t, f))
            && (forall i, j | 0 <= i < j < |all| :: Less(all[j].at, all[i].at) || (all[j].at == all[i].at && all[j].id < all[i].id))
            && (forall k :: k in all <==> k.id in t && t[k.id].key == k && Matches(f, t[k.id]))
            && |pages| == (if Selected(t, f) == {} then 1 else (|Selected(t, f)| + size - 1) / size)
            && forall i | 0 <= i < |pages| :: |pages[i].keys| <= size && (i < |pages| - 1 ==> |pages[i].keys| == size)
  {
    WalkFills(Selected(t, f), None, PageSize(limit));
    var keys, size := Selected(t, f), PageSize(limit);
    assert Below(keys, None) == keys;
    WalkJoins(keys, None, size);
    WalkLength(keys, None, size);
    PageCountIs(|keys|, size);
    ListingMeaning(keys);
  }

  // ---- pages while rows come and go ------------------------------------------------------------

  /** The i-th page is read from the i-th table, until a page has no cursor or the tables run out. */
  ghost function WalkOver(tables: seq<set<Key>>, cursor: Option<Key>, size: nat): seq<Key>
    requires size > 0
  {
    if tables == [] then []
    else
      var p := PageOf(tables[0], cursor, size);
      p.keys + if p.next.None? then [] else WalkOver(tables[1..], p.next, size)
  }

  ghost predicate Finishes(tables: seq<set<Key>>, cursor: Option<Key>, size: nat)
    requires size > 0
  {
    tables != [] &&
    var p := PageOf(tables[0], cursor, size);
    p.next.None? || Finishes(tables[1..], p.next, size)
  }

  lemma PageMeaning(keys: set<Key>, cursor: Option<Key>, size: nat)
    requires size > 0
    ensures var p := PageOf(keys, cursor, size);
            && Descending(p.keys)
            && (forall k | k in p.keys :: k in Below(keys, cursor) && (p.next.Some? ==> !Older(k, p.next.value)))
            && (forall k | k in Below(keys, cursor) :: k in p.keys || (p.next.Some? && Older(k, p.next.value)))
  {
    var rows, p := Listing(Below(keys, cursor)), PageOf(keys, cursor, size);
    ListingMeaning(Below(keys, cursor));
    forall i | 0 <= i < |rows| ensures |rows| > size ==> (i < size <==> !Older(rows[i], rows[size - 1])) {
      if |rows| > size {
        OlderIsTotal(rows[i], rows[size - 1]);
      }
    }
    forall k | k in Below(keys, cursor) ensures k in p.keys || (p.next.Some? && Older(k, p.next.value)) {
      assert k in rows;
      var i :| 0 <= i < |rows| && rows[i] == k;
      assert |rows| > size && i < size ==> p.keys[i] == k;
    }
  }

  /** No key twice, all below the cursor, whatever happens to the tables in between. */
  lemma {:induction false} WalkOverDescends(tables: seq<set<Key>>, cursor: Option<Key>, size: nat)
    requires size > 0
    ensures Descending(WalkOver(tables, cursor, size))
    ensures cursor.Some? ==> forall k | k in WalkOver(tables, cursor, size) :: Older(k, cursor.value)
  {
    if tables != [] {
      var p := PageOf(tables[0], cursor, size);
      PageMeaning(tables[0], cursor, size);
      if p.next.Some? {
        var rest := WalkOver(tables[1..], p.next, size);
        WalkOverDescends(tables[1..], p.next, size);
        DescendingConcat(p.keys, rest, p.next.value);
        if cursor.Some? {
          NextAtCursor(tables[0], cursor, size);
          forall k | k in rest ensures Older(k, cursor.value) {
            OlderIsTransitive(k, p.next.value, cursor.value);
          }
        }
      } else {
        assert p.keys + [] == p.keys;
      }
    }
  }

  lemma NextAtCursor(keys: set<Key>, cursor: Option<Key>, size: nat)
    requires size > 0 && cursor.Some? && PageOf(keys, cursor, size).next.Some?
    ensures Older(PageOf(keys, cursor, size).next.value, cursor.value)
  {
    ListingMeaning(Below(keys, cursor));
    assert PageOf(keys, cursor, size).next.value in Listing(Below(keys, cursor));
  }

  lemma DescendingConcat(a: seq<Key>, b: seq<Key>, c: Key)
    requires Descending(a) && Descending(b)
    requires (forall k | k in a :: !Older(k, c)) && (forall k | k in b :: Older(k, c))
    ensures Descending(a + b)
  {
    forall i, j | 0 <= i < j < |a + b| ensures Older((a + b)[j], (a + b)[i]) {
      if i < |a| <= j {
        assert a[i] in a && b[j - |a|] in b;
        OlderIsTotal(a[i], c);
        if a[i] != c {
          OlderIsTransitive(b[j - |a|], c, a[i]);
        }
      }
    }
  }

  lemma {:induction false} StaysVisible(tables: seq<set<Key>>, cursor: Option<Key>, size: nat, k: Key)
    requires size > 0 && Finishes(tables, cursor, size)
    requires (forall i | 0 <= i < |tables| :: k in tables[i]) && (cursor.Some? ==> Older(k, cursor.value))
    ensures k in WalkOver(tables, cursor, size)
  {
    var p := PageOf(tables[0], cursor, size);
    PageMeaning(tables[0], cursor, size);
    assert k in Below(tables[0], cursor);
    if k !in p.keys {
      StaysVisible(tables[1..], p.next, size, k);
    }
  }

  ghost function Occurrences(s: seq<Key>, k: Key): nat {
    |set i | 0 <= i < |s| && s[i] == k|
  }

  /**
   Pages read from a table that changes between them: no row is listed twice,
   and a row that is there and matches all along is listed exactly once.
   */
  lemma PagesUnderChange(tables: seq<Table>, f: Filter, limit: int, id: int, key: Key)
    requires forall i | 0 <= i < |tables| :: WellKeyed(tables[i])
    requires Finishes(SelectedEach(tables, f), None, PageSize(limit))
    requires forall i | 0 <= i < |tables| :: id in tables[i] && tables[i][id].key == key && Matches(f, tables[i][id])
    ensures Descending(WalkOver(SelectedEach(tables, f), None, PageSize(limit)))
    ensures Occurrences(WalkOver(SelectedEach(tables, f), None, PageSize(limit)), key) == 1
  {
    var each, size := SelectedEach(tables, f), PageSize(limit);
    var all := WalkOver(each, None, size);
    WalkOverDescends(each, None, size);
    forall i | 0 <= i < |each| ensures key in each[i] {
      assert Matches(f, tables[i][id]);
    }
    StaysVisible(each, None, size, key);
    OccursOnce(all, key);
  }

  lemma DescendingDistinct(s: seq<Key>, i: nat, j: nat)
    requires Descending(s) && i < j < |s|
    ensures s[i] != s[j]
  {
    OlderIsTotal(s[i], s[i]);
  }

  lemma OccursOnce(s: seq<Key>, k: Key)
    requires Descending(s) && k in s
    ensures Occurrences(s, k) == 1
  {
    var i: nat :| i < |s| && s[i] == k;
    forall j: nat | j < |s| && s[j] == k ensures j == i {
      if j < i {
        DescendingDistinct(s, j, i);
      } else if i < j {
        DescendingDistinct(s, i, j);
      }
    }
    assert (set j | 0 <= j < |s| && s[j] == k) == {i};
  }

  ghost function SelectedEach(tables: seq<Table>, f: Filter): seq<set<Key>> {
    seq(|tables|, i requires 0 <= i < |tables| => Selected(tables[i], f))
  }

  // ---- the cursor as text -------------------------------------------------------------------------

  /** The URL-safe armour around a cursor: an injective code that never gives an empty text. */
  datatype Armour = Armour(wrap: string -> string, unwrap: string -> Option<string>)

  ghost predicate Undoes(a: Armour) {
    forall s :: a.unwrap(a.wrap(s)) == Some(s) && a.wrap(s) != ""
  }

  function EncodeCursor(a: Armour, k: Key): string {
    a.wrap(k.at + "|" + FormatInt(k.id))
  }

  function DecodeCursor(a: Armour, cursor: string): Option<Key> {
    match a.unwrap(cursor)
    case None => None
    case Some(raw) =>
      match CutAt(raw, '|') {
        case None => None
        case Some((at, id)) => match ParseInt(id) {
          case None => None
          case Some(n) => Some(Key(at, n))
        }
      }
  }

  /** A cursor means the row it was made from; timestamps as text hold no bar. */
  lemma CursorRoundTrip(a: Armour, k: Key)
    requires Undoes(a) && '|' !in k.at && -MAX_INT64 - 1 <= k.id <= MAX_INT64
    ensures DecodeCursor(a, EncodeCursor(a, k)) == Some(k) && EncodeCursor(a, k) != ""
  {
    CutFinds(k.at, '|', FormatInt(k.id));
    ParseUndoesFormat(k.id);
  }

  /** A cursor is refused exactly when its armour, its bar or its number is broken. */
  lemma CursorRefused(a: Armour, cursor: string)
    ensures DecodeCursor(a, cursor).None? <==>
              a.unwrap(cursor).None? || CutAt(a.unwrap(cursor).value, '|').None?
              || ParseInt(CutAt(a.unwrap(cursor).value, '|').value.1).None?
    ensures a.unwrap(cursor).Some? ==> (CutAt(a.unwrap(cursor).value, '|').None? <==> '|' !in a.unwrap(cursor).value)
  {
    if a.unwrap(cursor).Some? {
      CutJoins(a.unwrap(cursor).value, '|');
    }
  }

  // ---- the query --------------------------------------------------------------------------------------

  /** The newest row not yet taken: the next one of the descending order. */
  method NextRow(t: Table, f: Filter, cursor: Option<Key>) returns (r: Option<Row>)
    requires WellKeyed(t)
    ensures r.None? <==> Below(Selected(t, f), cursor) == {}
    ensures r.Some? ==> r.value in t.Values && r.value.key == Newest(Below(Selected(t, f), cursor))
  {
    r := None;
    var todo := t.Keys;
    while todo != {}
      invariant r.Some? ==> r.value.key.id in t && t[r.value.key.id] == r.value && Takes(f, cursor, r.value)
      invariant NewestOfDone(t, f, cursor, todo, r)
      decreases todo
    {
      HasMember(todo);
      var id :| id in todo;
      OneMoreDone(t, f, cursor, todo, r, id);
      if Takes(f, cursor, t[id]) {
        if r.None? || Older(r.value.key, t[id].key) {
          r := Some(t[id]);
        }
      }
      todo := todo - {id};
    }
    assert forall k :: k in Below(Selected(t, f), cursor) <==> k.id in t && t[k.id].key == k && Takes(f, cursor, t[k.id]);
    if r.Some? {
      var below := Below(Selected(t, f), cursor);
      assert r.value.key in below;
      OlderIsTotal(r.value.key, Newest(below));
    }
  }

  /** The page as the database gives it: rows in order, one more than asked for. */
  method Query(t: Table, f: Filter, cursor: Option<Key>, n: nat) returns (rows: seq<Row>)
    requires WellKeyed(t)
    ensures Keys(rows) == Prefix(Listing(Below(Selected(t, f), cursor)), n)
    ensures forall r | r in rows :: r in t.Values
  {
    rows := [];
    ghost var keys := Selected(t, f);
    ghost var all := Listing(Below(keys, cursor));
    var at := cursor;
    while |rows| < n
      invariant |rows| <= n
      invariant forall r | r in rows :: r in t.Values
      invariant Reached(keys, all, rows, at)
      decreases n - |rows|
    {
      var r := NextRow(t, f, at);
      if r.None? {
        return;
      }
      OneRowMore(keys, all, rows, at, r.value);
      rows := rows + [r.value];
      at := Some(r.value.key);
    }
  }

  /** The rows so far are a prefix of the listing, and below at stands the rest of it. */
  ghost predicate Reached(keys: set<Key>, all: seq<Key>, rows: seq<Row>, at: Option<Key>) {
    |rows| <= |all| && Keys(rows) == all[..|rows|] && Listing(Below(keys, at)) == all[|rows|..]
  }

  lemma OneRowMore(keys: set<Key>, all: seq<Key>, rows: seq<Row>, at: Option<Key>, r: Row)
    requires Reached(keys, all, rows, at) && Below(keys, at) != {} && r.key == Newest(Below(keys, at))
    ensures Reached(keys, all, rows + [r], Some(r.key))
  {
    StepDown(keys, at);
    TailNext(all, |rows|, r.key, Listing(Below(keys, Some(r.key))));
    assert Keys(rows + [r]) == Keys(rows) + [r.key];
  }

  lemma TailNext(all: seq<Key>, i: nat, m: Key, rest: seq<Key>)
    requires i <= |all| && all[i..] == [m] + rest
    ensures i < |all| && all[i + 1..] == rest && all[..i + 1] == all[..i] + [m]
  {
    assert all[i..][0] == m && all[i..][1..] == rest;
  }

  /** The page of executions and the cursor of the following page, empty when there is none. */
  method ListExecutions(t: Table, f: Filter, limit: int, a: Armour, cursor: string) returns (result: Result<(seq<Row>, string), string>)
    requires WellKeyed(t)
    ensures cursor != "" && DecodeCursor(a, cursor).None? <==> result.Err?
    ensures result.Ok? ==>
              var at := if cursor == "" then None else DecodeCursor(a, cursor);
              var p := PageOf(Selected(t, f), at, PageSize(limit));
              && Keys(result.value.0) == p.keys && (forall r | r in result.value.0 :: r in t.Values)
              && result.value.1 == if p.next.None? then "" else EncodeCursor(a, p.next.value)
  {
    var at: Option<Key> := None;
    if cursor != "" {
      at := DecodeCursor(a, cursor);
      if at.None? {
        return Err(cursor);
      }
    }
    var size := PageSize(limit);
    var rows := Query(t, f, at, size + 1);
    if |rows| > size {
      ghost var all := rows;
      rows := rows[..size];
      assert Keys(rows) == Keys(all)[..size];
      assert rows[size - 1].key == Keys(all)[size - 1];
      return Ok((rows, EncodeCursor(a, rows[size - 1].key)));
    }
    return Ok((rows, ""));
  }

  function Keys(rows: seq<Row>): seq<Key> {
    seq(|rows|, i requires 0 <= i < |rows| => rows[i].key)
  }

  function Prefix(s: seq<Key>, n: nat): seq<Key> {
    if |s| > n then s[..n] else s
  }

  /** Below the newest key stands the rest of the listing. */
  lemma StepDown(keys: set<Key>, cursor: Option<Key>)
    requires Below(keys, cursor) != {}
    ensures var below := Below(keys, cursor);
            Listing(below) == [Newest(below)] + Listing(Below(keys, Some(Newest(below))))
  {
    var below := Below(keys, cursor);
    var m := Newest(below);
    OlderIsTotal(m, m);
    forall k | k in keys ensures k in below && k != m <==> Older(k, m) {
      OlderIsTotal(k, m);
      if Older(k, m) && cursor.Some? {
        OlderIsTransitive(k, m, cursor.value);
      }
    }
    assert Below(keys, Some(m)) == below - {m};
  }

  lemma HasMember(s: set<int>)
    ensures s == {} || exists x :: x in s
  {
    if forall x :: x !in s {
      assert s == {};
    }
  }

  predicate Takes(f: Filter, cursor: Option<Key>, r: Row) {
    Matches(f, r) && (cursor.None? || Older(r.key, cursor.value))
  }

  /** r is the newest of the rows already looked at. */
  ghost predicate NewestOfDone(t: Table, f: Filter, cursor: Option<Key>, todo: set<int>, r: Option<Row>) {
    forall id | id in t && id !in todo && Takes(f, cursor, t[id]) ::
      r.Some? && (t[id].key == r.value.key || Older(t[id].key, r.value.key))
  }

  lemma OneMoreDone(t: Table, f: Filter, cursor: Option<Key>, todo: set<int>, r: Option<Row>, id: int)
    requires id in t && NewestOfDone(t, f, cursor, todo, r)
    ensures !Takes(f, cursor, t[id]) ==> NewestOfDone(t, f, cursor, todo - {id}, r)
    ensures r.None? || Older(r.value.key, t[id].key) ==> NewestOfDone(t, f, cursor, todo - {id}, Some(t[id]))
    ensures r.Some? && !Older(r.value.key, t[id].key) ==> NewestOfDone(t, f, cursor, todo - {id}, r)
  {
    if r.Some? {
      OlderIsTotal(r.value.key, t[id].key);
      forall j | j in t && j !in todo && Takes(f, cursor, t[j]) && Older(r.value.key, t[id].key) ensures Older(t[j].key, t[id].key) {
        if t[j].key != r.value.key {
          OlderIsTransitive(t[j].key, r.value.key, t[id].key);
        }
      }
    }
  }

  // ---- the latest rows of every task ---------------------------------------------------------------

  function OfTask(task: int): Filter {
    Filter(Some(task), [], None, None, r => true)
  }

  function TaskIds(t: Table): set<int> {
    set id | id in t && t[id].task.Some? :: t[id].task.value
  }

  /** For every task that has rows, and no other, its newest n rows, newest first. */
  method LastExecutionsByTask(t: Table, n: int) returns (byTask: map<int, seq<Row>>)
    requires WellKeyed(t)
    ensures byTask.Keys == TaskIds(t)
    ensures forall k | k in byTask :: Keys(byTask[k]) == Prefix(Listing(Selected(t, OfTask(k))), if n <= 0 then 5 else n)
    ensures forall k, r | k in byTask && r in byTask[k] :: r in t.Values && r.task == Some(k)
  {
    var size := if n <= 0 then 5 else n;
    byTask := map[];
    var todo := TaskIds(t);
    while todo != {}
      invariant todo !! byTask.Keys && todo + byTask.Keys == TaskIds(t)
      invariant forall k | k in byTask :: Keys(byTask[k]) == Prefix(Listing(Selected(t, OfTask(k))), size)
      invariant forall k, r | k in byTask && r in byTask[k] :: r in t.Values && r.task == Some(k)
      decreases todo
    {
      HasMember(todo);
      var k :| k in todo;
      var rows := Query(t, OfTask(k), None, size);
      assert Below(Selected(t, OfTask(k)), None) == Selected(t, OfTask(k));
      forall r | r in rows ensures r.task == Some(k) {
        OfItsTask(t, k, size, rows, r);
      }
      byTask := byTask[k := rows];
      todo := todo - {k};
    }
  }

  lemma OfTaskIs(t: Table, task: int)
    ensures Selected(t, OfTask(task)) == set id | id in t && t[id].task == Some(task) :: t[id].key
  {
  }

  lemma KeyTells(t: Table, task: int, r: Row)
    requires WellKeyed(t) && r in t.Values && r.key in Selected(t, OfTask(task))
    ensures r.task == Some(task)
  {
    forall id | id in t && t[id] == r ensures id == r.key.id {
    }
    OfTaskIs(t, task);
  }

  lemma OfItsTask(t: Table, task: int, n: nat, rows: seq<Row>, r: Row)
    requires WellKeyed(t) && Keys(rows) == Prefix(Listing(Selected(t, OfTask(task))), n) && r in rows && r in t.Values
    ensures r.task == Some(task)
  {
    var keys := Selected(t, OfTask(task));
    ListingMeaning(keys);
    var i :| 0 <= i < |rows| && rows[i] == r;
    assert Keys(rows)[i] == r.key;
    assert r.key in Listing(keys);
    KeyTells(t, task, r);
  }

  /** It is the first page of the task's own listing. */
  lemma LastIsFirstPage(t: Table, task: int, n: nat)
    requires 0 < n <= 200
    ensures PageOf(Selected(t, OfTask(task)), None, PageSize(n)).keys == Prefix(Listing(Selected(t, OfTask(task))), n)
  {
    assert Below(Selected(t, OfTask(task)), None) == Selected(t, OfTask(task));
  }

  /** Asking for one row of a task gives its latest one: no row of the task was queued later. */
  lemma LastRunIsNewest(t: Table, task: int)
    requires exists id :: id in t && t[id].task == Some(task)
    ensures var keys := set id | id in t && t[id].task == Some(task) :: t[id].key;
            var page := PageOf(Selected(t, OfTask(task)), None, 1).keys;
            |page| == 1 && page[0] in keys && forall k | k in keys && k != page[0] ::
              Less(k.at, page[0].at) || (k.at == page[0].at && k.id < page[0].id)
  {
    OfTaskIs(t, task);
    var id :| id in t && t[id].task == Some(task);
    assert t[id].key in Selected(t, OfTask(task));
    var keys := Selected(t, OfTask(task));
    assert Below(keys, None) == keys;
    StepDown(keys, None);
  }

  // ---- following the cursors as texts ----------------------------------------------------------------

  /** Every row's cursor means the row: no bar in its time, a number of 64 bits. */
  predicate Encodable(t: Table) {
    forall id | id in t :: '|' !in t[id].key.at && -MAX_INT64 - 1 <= t[id].key.id <= MAX_INT64
  }

  /** A client that lists from the empty cursor until a page gives none, passing on the cursors it is given. */
  method ListAll(t: Table, f: Filter, limit: int, a: Armour) returns (rows: seq<Row>, pages: nat)
    requires WellKeyed(t) && Encodable(t) && Undoes(a)
    ensures Keys(rows) == Listing(Selected(t, f)) && (forall r | r in rows :: r in t.Values)
    ensures pages == PageCount(|Selected(t, f)|, PageSize(limit))
  {
    ghost var size := PageSize(limit);
    ghost var at: Option<Key> := None;
    var cursor := "";
    rows, pages := [], 0;
    assert Below(Selected(t, f), None) == Selected(t, f);
    while true
      invariant Partway(t, f, size, a, rows, pages, at, cursor)
      decreases |Below(Selected(t, f), at)|
    {
      var result := ListExecutions(t, f, limit, a, cursor);
      var (page, next) := result.value;
      OnePageOn(t, f, size, a, rows, pages, at, cursor, page, next);
      rows, pages := rows + page, pages + 1;
      if next == "" {
        return;
      }
      at := PageOf(Selected(t, f), at, size).next;
      cursor := next;
    }
  }

  /** The rows so far and the listing below the cursor make up the whole; so do the pages. */
  ghost predicate Partway(t: Table, f: Filter, size: nat, a: Armour, rows: seq<Row>, pages: nat, at: Option<Key>, cursor: string)
    requires size > 0
  {
    var keys := Selected(t, f);
    && (cursor == "" <==> at.None?) && (at.Some? ==> DecodeCursor(a, cursor) == at)
    && Keys(rows) + Listing(Below(keys, at)) == Listing(keys) && (forall r | r in rows :: r in t.Values)
    && pages + PageCount(|Below(keys, at)|, size) == PageCount(|keys|, size)
  }

  lemma OnePageOn(t: Table, f: Filter, size: nat, a: Armour, rows: seq<Row>, pages: nat, at: Option<Key>, cursor: string,
                  page: seq<Row>, next: string)
    requires WellKeyed(t) && Encodable(t) && Undoes(a) && size > 0 && Partway(t, f, size, a, rows, pages, at, cursor)
    requires Keys(page) == PageOf(Selected(t, f), at, size).keys && forall r | r in page :: r in t.Values
    requires var p := PageOf(Selected(t, f), at, size); next == if p.next.None? then "" else EncodeCursor(a, p.next.value)
    ensures var keys := Selected(t, f); var p := PageOf(keys, at, size);
            if next == "" then Keys(rows + page) == Listing(keys) && pages + 1 == PageCount(|keys|, size)
            else Partway(t, f, size, a, rows + page, pages + 1, p.next, next) && |Below(keys, p.next)| < |Below(keys, at)|
  {
    var keys := Selected(t, f);
    KeysAppend(rows, page);
    RestOn(keys, at, size, Keys(rows));
    NextLeavesFewer(keys, at, size);
    if PageOf(keys, at, size).next.Some? {
      NextDecodes(t, f, size, a, at);
    }
  }

  /** A page and what is listed after it, after what was there before. */
  lemma RestOn(keys: set<Key>, at: Option<Key>, size: nat, before: seq<Key>)
    requires size > 0
    ensures var p := PageOf(keys, at, size);
            before + Listing(Below(keys, at)) == (before + p.keys) + if p.next.None? then [] else Listing(Below(keys, p.next))
  {
    var p := PageOf(keys, at, size);
    if p.next.Some? {
      PageAndRest(keys, at, size);
      KeysRegroup(before, p.keys, Listing(Below(keys, p.next)));
    }
  }

  lemma NextDecodes(t: Table, f: Filter, size: nat, a: Armour, at: Option<Key>)
    requires WellKeyed(t) && Encodable(t) && Undoes(a) && size > 0 && PageOf(Selected(t, f), at, size).next.Some?
    ensures var next := PageOf(Selected(t, f), at, size).next;
            EncodeCursor(a, next.value) != "" && DecodeCursor(a, EncodeCursor(a, next.value)) == next
  {
    NextKeyed(t, f, at, size);
    CursorRoundTrip(a, PageOf(Selected(t, f), at, size).next.value);
  }

  lemma KeysRegroup(x: seq<Key>, y: seq<Key>, z: seq<Key>)
    ensures x + (y + z) == (x + y) + z
  {
  }

  lemma KeysAppend(a: seq<Row>, b: seq<Row>)
    ensures Keys(a + b) == Keys(a) + Keys(b)
  {
  }

  lemma PageAndRest(keys: set<Key>, cursor: Option<Key>, size: nat)
    requires size > 0 && PageOf(keys, cursor, size).next.Some?
    ensures var p := PageOf(keys, cursor, size);
            Listing(Below(keys, cursor)) == p.keys + Listing(Below(keys, p.next))
  {
    NextIsBelow(keys, cursor, size);
    var rows := Listing(Below(keys, cursor));
    assert rows == rows[..size] + rows[size..];
  }

  lemma NextKeyed(t: Table, f: Filter, cursor: Option<Key>, size: nat)
    requires WellKeyed(t) && size > 0 && PageOf(Selected(t, f), cursor, size).next.Some?
    ensures exists id :: id in t && t[id].key == PageOf(Selected(t, f), cursor, size).next.value
  {
    var below := Below(Selected(t, f), cursor);
    ListingMeaning(below);
    assert Listing(below)[size - 1] in below;
  }

  // ---- how many pages a changing table can take ------------------------------------------------------------

  /** How many pages are read. */
  ghost function PagesRead(tables: seq<set<Key>>, cursor: Option<Key>, size: nat): nat
    requires size > 0
  {
    if tables == [] then 0
    else
      var p := PageOf(tables[0], cursor, size);
      1 + if p.next.None? then 0 else PagesRead(tables[1..], p.next, size)
  }

  /** Every row that is there at some time. */
  ghost function Ever(tables: seq<set<Key>>): set<Key> {
    if tables == [] then {} else tables[0] + Ever(tables[1..])
  }

  lemma {:induction false} ReadEver(tables: seq<set<Key>>, cursor: Option<Key>, size: nat)
    requires size > 0
    ensures forall k | k in WalkOver(tables, cursor, size) :: k in Ever(tables)
  {
    if tables != [] {
      PageMeaning(tables[0], cursor, size);
      ReadEver(tables[1..], PageOf(tables[0], cursor, size).next, size);
    }
  }

  lemma FullPage(keys: set<Key>, cursor: Option<Key>, size: nat)
    requires size > 0 && PageOf(keys, cursor, size).next.Some?
    ensures |PageOf(keys, cursor, size).keys| == size
  {
  }

  lemma {:induction false} PagesAreFull(tables: seq<set<Key>>, cursor: Option<Key>, size: nat)
    requires size > 0 && tables != []
    ensures (PagesRead(tables, cursor, size) - 1) * size <= |WalkOver(tables, cursor, size)|
  {
    var next := PageOf(tables[0], cursor, size).next;
    if next.Some? {
      FullPage(tables[0], cursor, size);
      if tables[1..] != [] {
        PagesAreFull(tables[1..], next, size);
        OneMoreTime(PagesRead(tables[1..], next, size), size);
      }
    }
  }

  lemma OneMoreTime(n: nat, size: nat)
    ensures n * size == (if n > 0 then (n - 1) * size + size else 0)
  {
  }

  /** However the table changes between pages, all but the last page are full of rows not seen before: so many rows, so many pages. */
  lemma PagesAreBounded(tables: seq<set<Key>>, size: nat)
    requires size > 0 && tables != []
    ensures (PagesRead(tables, None, size) - 1) * size <= |Ever(tables)|
  {
    var all := WalkOver(tables, None, size);
    ReadEver(tables, None, size);
    PagesAreFull(tables, None, size);
    WalkOverDescends(tables, None, size);
    DescendingCount(all, Ever(tables));
  }

  lemma {:induction false} DescendingCount(s: seq<Key>, keys: set<Key>)
    requires Descending(s) && forall k | k in s :: k in keys
    ensures |s| <= |keys|
  {
    if s != [] {
      var n := |s| - 1;
      forall k | k in s[..n] ensures k in keys - {s[n]} {
        var i :| 0 <= i < n && s[i] == k;
        DescendingDistinct(s, i, n);
      }
      DescendingCount(s[..n], keys - {s[n]});
      assert s[n] in keys;
    }
  }
}
