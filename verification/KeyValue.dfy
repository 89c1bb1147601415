/**
 The key/value table: prefix search as a range of keys, and values that expire.
 A key is a sequence of bytes, written as characters below 256; times are whole
 milliseconds, as the table's text timestamps order them.
 */
module KeyValue {
  import opened Common
  import opened Texts

  type Byte = c: char | c as int < 256

  type Bytes = seq<Byte>

  const TOP: Byte := 255 as char

  // ---- prefix search as a range ------------------------------------------------------------

  predicate StartsWith(prefix: Bytes, k: Bytes) {
    |prefix| <= |k| && k[..|prefix|] == prefix
  }

  function Incremented(c: Byte): Byte
    requires c < TOP
  {
    (c as int + 1) as char
  }

  /** Trailing top bytes carry into the byte before them; all of them leave no bound. */
  function UpperBound(prefix: Bytes): Option<Bytes> {
    if prefix == [] then None
    else
      var n := |prefix| - 1;
      if prefix[n] < TOP then Some(prefix[..n] + [Incremented(prefix[n])]) else UpperBound(prefix[..n])
  }

  /** Scans from the end, incrementing the last byte that can be, in place. */
  method PrefixUpperBound(prefix: Bytes) returns (r: Option<Bytes>)
    ensures r == UpperBound(prefix)
  {
    var b := new Byte[|prefix|](i requires 0 <= i < |prefix| => prefix[i]);
    var i := b.Length - 1;
    assert prefix[..|prefix|] == prefix;
    while i >= 0
      invariant -1 <= i < b.Length && b[..] == prefix
      invariant UpperBound(prefix[..i + 1]) == UpperBound(prefix)
      decreases i
    {
      assert prefix[..i + 1][..i] == prefix[..i];
      if b[i] < TOP {
        b[i] := Incremented(b[i]);
        assert b[..i + 1] == prefix[..i] + [Incremented(prefix[i])];
        return Some(b[..i + 1]);
      }
      i := i - 1;
    }
    return None;
  }

  /** The bound seen from the front: the first byte changes only when the rest is all top. */
  lemma {:induction false} UpperBoundFront(c: Byte, rest: Bytes)
    ensures UpperBound([c] + rest) ==
              match UpperBound(rest)
              case Some(u) => Some([c] + u)
              case None => if c < TOP then Some([Incremented(c)]) else None
  {
    var p := [c] + rest;
    if rest == [] {
      assert p == [c] && p[..0] == [];
      assert UpperBound(rest) == None;
      if c < TOP {
        assert UpperBound(p) == Some(p[..0] + [Incremented(c)]);
        assert p[..0] + [Incremented(c)] == [Incremented(c)];
      } else {
        assert UpperBound(p) == UpperBound(p[..0]);
      }
    } else {
      var n := |rest| - 1;
      assert p[..n + 1] == [c] + rest[..n];
      if rest[n] < TOP {
        assert [c] + rest[..n] + [Incremented(rest[n])] == [c] + (rest[..n] + [Incremented(rest[n])]);
      } else {
        UpperBoundFront(c, rest[..n]);
      }
    }
  }

  predicate InRange(prefix: Bytes, k: Bytes) {
    !Less(k, prefix) && (UpperBound(prefix).Some? ==> Less(k, UpperBound(prefix).value))
  }

  lemma StartsWithRest(c: Byte, rest: Bytes, k: Bytes)
    ensures StartsWith([c] + rest, [c] + k) <==> StartsWith(rest, k)
  {
    if |rest| <= |k| {
      assert ([c] + k)[..|rest| + 1] == [c] + k[..|rest|];
      assert ([c] + k[..|rest|])[1..] == k[..|rest|] && ([c] + rest)[1..] == rest;
    }
  }

  /** The range from the prefix to its bound holds exactly the keys that start with the prefix. */
  lemma {:induction false} RangeIsPrefix(prefix: Bytes, k: Bytes)
    ensures InRange(prefix, k) <==> StartsWith(prefix, k)
  {
    if prefix != [] && k != [] {
      var c, rest := prefix[0], prefix[1..];
      assert prefix == [c] + rest;
      UpperBoundFront(c, rest);
      if k[0] == c {
        RangeIsPrefix(rest, k[1..]);
        assert InRange(prefix, k) <==> InRange(rest, k[1..]);
        StartsWithRest(c, rest, k[1..]);
        assert k == [c] + k[1..];
      } else {
        assert |prefix| <= |k| ==> k[..|prefix|][0] == k[0];
        assert c < TOP ==> [Incremented(c)][1..] == [] && !Less(k[1..], []);
      }
    }
  }

  // ---- the table ---------------------------------------------------------------------------------

  datatype Row = Row(value: Bytes, created: int, updated: int, expires: Option<int>)

  type Rows = map<Bytes, Row>

  predicate Live(r: Row, now: int) {
    r.expires.None? || r.expires.value > now
  }

  /** What a reader is told about a key; a listing leaves the value empty. */
  datatype Entry = Entry(key: Bytes, size: nat, created: int, updated: int, expires: Option<int>, value: Bytes)

  function EntryOf(k: Bytes, r: Row): Entry {
    Entry(k, |r.value|, r.created, r.updated, r.expires, r.value)
  }

  function MetaOf(k: Bytes, r: Row): Entry {
    EntryOf(k, r).(value := [])
  }

  function Read(rows: Rows, k: Bytes, now: int): Option<Entry> {
    if k in rows && Live(rows[k], now) then Some(EntryOf(k, rows[k])) else None
  }

  /** A write to a key that is there, even an expired one, keeps only its creation time. */
  function Written(rows: Rows, k: Bytes, value: Bytes, expires: Option<int>, now: int): Rows {
    rows[k := Row(value, if k in rows then rows[k].created else now, now, expires)]
  }

  function Purged(rows: Rows, now: int): Rows {
    map k | k in rows && Live(rows[k], now) :: rows[k]
  }

  function Deleted(rows: Rows, k: Bytes): Rows {
    rows - {k}
  }

  function KeysOf(entries: seq<Entry>): seq<Bytes> {
    seq(|entries|, i requires 0 <= i < |entries| => entries[i].key)
  }

  /** Ascending, exactly the live keys that start with the prefix, each with its size and times. */
  ghost predicate IsListing(rows: Rows, prefix: Bytes, now: int, entries: seq<Entry>) {
    && Ascending(KeysOf(entries))
    && (forall k :: k in KeysOf(entries) <==> k in rows && Live(rows[k], now) && StartsWith(prefix, k))
    && (forall i | 0 <= i < |entries| :: entries[i].key in rows && entries[i] == MetaOf(entries[i].key, rows[entries[i].key]))
  }

  class Store {
    var rows: Rows

    constructor ()
      ensures rows == map[]
    {
      rows := map[];
    }

    /** Refuses only the empty key; no expiry clears an earlier one. */
    method SetKV(key: Bytes, value: Bytes, expires: Option<int>, now: int) returns (ok: bool)
      modifies this
      ensures ok <==> key != []
      ensures rows == if ok then Written(old(rows), key, value, expires, now) else old(rows)
    {
      if key == [] {
        return false;
      }
      if key in rows {
        rows := rows[key := rows[key].(value := value, updated := now, expires := expires)];
      } else {
        rows := rows[key := Row(value, now, now, expires)];
      }
      ok := true;
    }

    method GetKV(key: Bytes, now: int) returns (e: Option<Entry>)
      ensures e == Read(rows, key, now)
    {
      if key in rows && (rows[key].expires.None? || rows[key].expires.value > now) {
        var row := rows[key];
        return Some(Entry(key, |row.value|, row.created, row.updated, row.expires, row.value));
      }
      return None;
    }

    method DeleteKV(key: Bytes) returns (ok: bool)
      modifies this
      ensures ok <==> key in old(rows)
      ensures rows == Deleted(old(rows), key)
    {
      ok := key in rows;
      rows := rows - {key};
    }

    method PurgeExpiredKV(now: int)
      modifies this
      ensures rows == Purged(old(rows), now)
    {
      var todo := rows.Keys;
      while todo != {}
        invariant todo <= rows.Keys <= old(rows).Keys
        invariant forall k | k in rows :: rows[k] == old(rows)[k]
        invariant forall k | k in old(rows) && k !in todo :: k in rows <==> Live(old(rows)[k], now)
        decreases todo
      {
        var k :| k in todo;
        if rows[k].expires.Some? && rows[k].expires.value <= now {
          rows := rows - {k};
        }
        todo := todo - {k};
      }
    }

    /** The smallest live key of the range above a key already listed. */
    method NextKey(prefix: Bytes, upper: Option<Bytes>, after: Option<Bytes>, now: int) returns (k: Option<Bytes>)
      ensures k.Some? ==> Wanted(rows, prefix, upper, after, now, k.value)
      ensures forall j: Bytes | Wanted(rows, prefix, upper, after, now, j) :: k.Some? && (j == k.value || Less(k.value, j))
    {
      k := None;
      var todo := rows.Keys;
      while todo != {}
        invariant todo <= rows.Keys
        invariant k.Some? ==> Wanted(rows, prefix, upper, after, now, k.value)
        invariant forall j: Bytes | Wanted(rows, prefix, upper, after, now, j) && j !in todo :: k.Some? && (j == k.value || Less(k.value, j))
        decreases todo
      {
        var j :| j in todo;
        if !Less(j, prefix) && (upper.None? || Less(j, upper.value)) && Live(rows[j], now) && (after.None? || Less(after.value, j)) {
          if k.None? || Less(j, k.value) {
            SmallerForAll(rows, prefix, upper, after, now, todo, k, j);
            k := Some(j);
          } else {
            LessIsTotal(j, k.value);
          }
        }
        todo := todo - {j};
      }
    }

    /** The live keys of the range in ascending order. */
    method RangeKeys(prefix: Bytes, upper: Option<Bytes>, now: int) returns (keys: seq<Bytes>)
      ensures Ascending(keys) && forall k: Bytes :: k in keys <==> Wanted(rows, prefix, upper, None, now, k)
    {
      keys := [];
      var after: Option<Bytes> := None;
      ghost var left := rows.Keys;
      while true
        invariant after == if keys == [] then None else Some(keys[|keys| - 1])
        invariant Ascending(keys)
        invariant forall k | k in keys :: Wanted(rows, prefix, upper, None, now, k)
        invariant forall k: Bytes | Wanted(rows, prefix, upper, None, now, k) && !Wanted(rows, prefix, upper, after, now, k) :: k in keys
        invariant left == set k | k in rows && k !in keys
        decreases |left|
      {
        var next := NextKey(prefix, upper, after, now);
        if next.None? {
          return;
        }
        ListedOneMore(rows, prefix, upper, now, keys, after, next.value);
        keys := keys + [next.value];
        after := next;
        ghost var rest := set k | k in rows && k !in keys;
        assert next.value in left && rest == left - {next.value};
        left := rest;
      }
    }

    method ListKV(prefix: Bytes, now: int) returns (entries: seq<Entry>)
      ensures IsListing(rows, prefix, now, entries)
    {
      var upper := PrefixUpperBound(prefix);
      var keys := RangeKeys(prefix, upper, now);
      entries := [];
      for n := 0 to |keys|
        invariant |entries| == n
        invariant forall i | 0 <= i < n :: keys[i] in rows && entries[i] == MetaOf(keys[i], rows[keys[i]])
      {
        assert keys[n] in keys;
        var row := rows[keys[n]];
        entries := entries + [Entry(keys[n], |row.value|, row.created, row.updated, row.expires, [])];
      }
      assert KeysOf(entries) == keys;
      forall k ensures k in keys <==> k in rows && Live(rows[k], now) && StartsWith(prefix, k) {
        RangeIsPrefix(prefix, k);
      }
    }
  }

  predicate Wanted(rows: Rows, prefix: Bytes, upper: Option<Bytes>, after: Option<Bytes>, now: int, k: Bytes) {
    && k in rows && Live(rows[k], now) && !Less(k, prefix) && (upper.Some? ==> Less(k, upper.value))
    && (after.Some? ==> Less(after.value, k))
  }

  ghost predicate Ascending(keys: seq<Bytes>) {
    forall i, j | 0 <= i < j < |keys| :: Less(keys[i], keys[j])
  }

  lemma SmallerForAll(rows: Rows, prefix: Bytes, upper: Option<Bytes>, after: Option<Bytes>, now: int, todo: set<Bytes>, k: Option<Bytes>, j: Bytes)
    requires k.None? || Less(j, k.value)
    requires forall i: Bytes | Wanted(rows, prefix, upper, after, now, i) && i !in todo :: k.Some? && (i == k.value || Less(k.value, i))
    ensures forall i: Bytes | Wanted(rows, prefix, upper, after, now, i) && i !in todo :: Less(j, i)
  {
    forall i: Bytes | Wanted(rows, prefix, upper, after, now, i) && i !in todo ensures Less(j, i) {
      if i != k.value {
        LessIsTransitive(j, k.value, i);
      }
    }
  }

  /** Taking the smallest key above the last one keeps the listing ascending and complete so far. */
  lemma ListedOneMore(rows: Rows, prefix: Bytes, upper: Option<Bytes>, now: int, keys: seq<Bytes>, after: Option<Bytes>, next: Bytes)
    requires after == if keys == [] then None else Some(keys[|keys| - 1])
    requires Ascending(keys) && Wanted(rows, prefix, upper, after, now, next)
    requires forall k: Bytes | Wanted(rows, prefix, upper, None, now, k) && !Wanted(rows, prefix, upper, after, now, k) :: k in keys
    requires forall k: Bytes | Wanted(rows, prefix, upper, after, now, k) :: k == next || Less(next, k)
    ensures Ascending(keys + [next]) && next !in keys
    ensures forall k: Bytes | Wanted(rows, prefix, upper, None, now, k) && !Wanted(rows, prefix, upper, Some(next), now, k) :: k in keys + [next]
  {
    forall i | 0 <= i < |keys| ensures Less(keys[i], next) && keys[i] != next {
      if i < |keys| - 1 {
        LessIsTransitive(keys[i], after.value, next);
      }
      LessIsIrreflexive(next);
    }
    forall k: Bytes | Wanted(rows, prefix, upper, None, now, k) && !Wanted(rows, prefix, upper, Some(next), now, k) ensures k in keys + [next] {
      if k in keys {
      } else {
        assert Wanted(rows, prefix, upper, after, now, k);
      }
    }
  }

  /** There is only one such listing. */
  lemma ListingIsUnique(rows: Rows, prefix: Bytes, now: int, a: seq<Entry>, b: seq<Entry>)
    requires IsListing(rows, prefix, now, a) && IsListing(rows, prefix, now, b)
    ensures a == b
  {
    SameMembers(KeysOf(a), KeysOf(b));
    forall i | 0 <= i < |a| ensures i < |b| && a[i] == b[i] {
      assert KeysOf(a)[i] == KeysOf(b)[i];
    }
  }

  lemma {:induction false} SameMembers(a: seq<Bytes>, b: seq<Bytes>)
    requires Ascending(a) && Ascending(b) && forall k :: k in a <==> k in b
    ensures a == b
  {
    EmptyTogether(a, b);
    if a != [] {
      FirstIsSmallest(a, b);
      forall k ensures k in a[1..] <==> k in b[1..] {
        RestWithoutFirst(a, k);
        RestWithoutFirst(b, k);
      }
      SameMembers(a[1..], b[1..]);
      assert a == [a[0]] + a[1..] && b == [b[0]] + b[1..];
    }
  }

  lemma EmptyTogether(a: seq<Bytes>, b: seq<Bytes>)
    requires forall k :: k in a <==> k in b
    ensures a == [] <==> b == []
  {
    assert a != [] ==> a[0] in a;
    assert b != [] ==> b[0] in b;
  }

  lemma RestWithoutFirst(a: seq<Bytes>, k: Bytes)
    requires Ascending(a) && a != []
    ensures k in a[1..] <==> k in a && k != a[0]
  {
    LessIsIrreflexive(a[0]);
    assert a == [a[0]] + a[1..];
    forall i | 0 <= i < |a[1..]| ensures a[1..][i] != a[0] {
      assert Less(a[0], a[i + 1]);
    }
  }

  lemma FirstIsSmallest(a: seq<Bytes>, b: seq<Bytes>)
    requires Ascending(a) && Ascending(b) && a != [] && b != [] && forall k :: k in a <==> k in b
    ensures a[0] == b[0]
  {
    assert a[0] in b && b[0] in a;
    var i :| 0 <= i < |b| && b[i] == a[0];
    var j :| 0 <= j < |a| && a[j] == b[0];
    LessIsTotal(a[0], b[0]);
  }

  // ---- purging is invisible --------------------------------------------------------------------------

  /** An operation and the time at which it runs. */
  datatype Op =
    | Set(at: int, key: Bytes, value: Bytes, expires: Option<int>)
    | Get(at: int, key: Bytes)
    | List(at: int, prefix: Bytes)
    | Delete(at: int, key: Bytes)
    | Purge(at: int)

  /** Everything a reader is told but the creation time. */
  function Undated(e: Entry): Entry {
    e.(created := 0)
  }

  function Told(rows: Rows, k: Bytes, now: int): Option<Entry> {
    match Read(rows, k, now)
    case None => None
    case Some(e) => Some(Undated(e))
  }

  /** What a caller sees of it; whether a Delete found its key is left out, as is the creation time. */
  datatype Seen = Nothing | Got(entry: Option<Entry>) | Listed(entries: map<Bytes, Entry>)

  function After(rows: Rows, op: Op): Rows {
    match op
    case Set(at, k, value, expires) => if k == [] then rows else Written(rows, k, value, expires, at)
    case Delete(_, k) => Deleted(rows, k)
    case Purge(at) => Purged(rows, at)
    case _ => rows
  }

  function See(rows: Rows, op: Op): Seen {
    match op
    case Get(at, k) => Got(Told(rows, k, at))
    case List(at, prefix) => 
      Listed(map k | k in rows && Live(rows[k], at) && StartsWith(prefix, k) :: Undated(MetaOf(k, rows[k])))
    case _ => Nothing
  }

  /** What is seen over a history, purges not counted. */
  function Seeing(rows: Rows, ops: seq<Op>): seq<Seen>
    decreases |ops|
  {
    if ops == [] then []
    else (if ops[0].Purge? then [] else [See(rows, ops[0])]) + Seeing(After(rows, ops[0]), ops[1..])
  }

  function WithoutPurges(ops: seq<Op>): seq<Op> {
    if ops == [] then []
    else (if ops[0].Purge? then [] else [ops[0]]) + WithoutPurges(ops[1..])
  }

  predicate Monotone(ops: seq<Op>, from: int) {
    ops == [] || (from <= ops[0].at && Monotone(ops[1..], ops[0].at))
  }

  /** Nobody who reads at now or later can tell the two tables apart. */
  ghost predicate Alike(a: Rows, b: Rows, now: int) {
    forall k, t | now <= t :: Told(a, k, t) == Told(b, k, t)
  }

  lemma AlikeAfter(a: Rows, b: Rows, now: int, op: Op)
    requires Alike(a, b, now) && now <= op.at && !op.Purge?
    ensures Alike(After(a, op), After(b, op), op.at) && See(a, op) == See(b, op)
  {
    forall k, t | op.at <= t ensures Told(After(a, op), k, t) == Told(After(b, op), k, t) {
      assert Told(a, k, t) == Told(b, k, t);
    }
    if op.List? {
      forall k ensures k in a && Live(a[k], op.at) <==> k in b && Live(b[k], op.at) {
        assert Told(a, k, op.at) == Told(b, k, op.at);
      }
      forall k | k in a && Live(a[k], op.at) ensures Undated(MetaOf(k, a[k])) == Undated(MetaOf(k, b[k])) {
        assert Told(a, k, op.at) == Told(b, k, op.at);
      }
    }
  }

  lemma AlikePurged(a: Rows, b: Rows, now: int, at: int)
    requires Alike(a, b, now) && now <= at
    ensures Alike(Purged(a, at), b, at)
  {
    forall k, t | at <= t ensures Told(Purged(a, at), k, t) == Told(b, k, t) {
      assert Told(a, k, t) == Told(b, k, t);
    }
  }

  lemma {:induction false} SameSeeing(a: Rows, b: Rows, ops: seq<Op>, now: int)
    requires Alike(a, b, now) && Monotone(ops, now)
    ensures Seeing(a, ops) == Seeing(b, WithoutPurges(ops))
    decreases |ops|
  {
    if ops != [] {
      if ops[0].Purge? {
        AlikePurged(a, b, now, ops[0].at);
        SameSeeing(After(a, ops[0]), b, ops[1..], ops[0].at);
        assert WithoutPurges(ops) == WithoutPurges(ops[1..]);
        assert Seeing(a, ops) == Seeing(After(a, ops[0]), ops[1..]);
      } else {
        AlikeAfter(a, b, now, ops[0]);
        SameSeeing(After(a, ops[0]), After(b, ops[0]), ops[1..], ops[0].at);
        assert WithoutPurges(ops)[1..] == WithoutPurges(ops[1..]);
      }
    }
  }

  /** With a clock that never goes back, purging at any points of any history changes nothing that is read. */
  lemma PurgingIsInvisible(rows: Rows, ops: seq<Op>, start: int)
    requires Monotone(ops, start)
    ensures Seeing(rows, ops) == Seeing(rows, WithoutPurges(ops))
  {
    SameSeeing(rows, rows, ops, start);
  }

  /** One purge shows to one read exactly when the read's clock stands before an expiry the purge's clock has passed. */
  lemma PurgeShowsIff(rows: Rows, k: Bytes, purge: int, read: int)
    ensures Read(Purged(rows, purge), k, read) != Read(rows, k, read) <==>
              k in rows && rows[k].expires.Some? && read < rows[k].expires.value <= purge
  {
  }

  /** One purge shows to the next write exactly when it took the row away: a new creation time, or nothing to delete. */
  lemma PurgeShowsToWritersIff(rows: Rows, k: Bytes, purge: int, value: Bytes, expires: Option<int>, now: int)
    ensures Written(Purged(rows, purge), k, value, expires, now)[k].created != Written(rows, k, value, expires, now)[k].created <==>
              k in rows && rows[k].expires.Some? && rows[k].expires.value <= purge && rows[k].created != now
    ensures (k in Purged(rows, purge)) != (k in rows) <==> k in rows && rows[k].expires.Some? && rows[k].expires.value <= purge
  {
  }

  /** A key is touched by writing or deleting it. */
  predicate Touches(op: Op, k: Bytes) {
    (op.Set? || op.Delete?) && op.key == k
  }

  function RunAll(rows: Rows, ops: seq<Op>): Rows
    decreases |ops|
  {
    if ops == [] then rows else RunAll(After(rows, ops[0]), ops[1..])
  }

  /** Until its key is touched a row stays as it is, unless it is purged after its expiry. */
  lemma {:induction false} StaysOrPurged(rows: Rows, k: Bytes, ops: seq<Op>, later: int)
    requires k in rows && (forall op | op in ops :: !Touches(op, k)) && forall op | op in ops && op.Purge? :: op.at <= later
    ensures if k in RunAll(rows, ops) then RunAll(rows, ops)[k] == rows[k] else rows[k].expires.Some? && rows[k].expires.value <= later
    ensures k !in RunAll(rows, ops) ==> Read(RunAll(rows, ops), k, later) == None
    decreases |ops|
  {
    if ops != [] {
      assert ops[0] in ops;
      if k in After(rows, ops[0]) {
        StaysOrPurged(After(rows, ops[0]), k, ops[1..], later);
      } else {
        forall op | op in ops[1..] ensures !(op.Set? && op.key == k) {
          assert op in ops && !Touches(op, k);
        }
        Absent(After(rows, ops[0]), k, ops[1..]);
      }
    }
  }

  /**
   What is set is read, by whoever reads before it expires, until its key is
   touched; from its expiry on it is not. No other key is affected.
   */
  lemma SetThenRead(rows: Rows, k: Bytes, value: Bytes, expires: Option<int>, at: int, ops: seq<Op>, later: int)
    requires k != [] && (forall op | op in ops :: !Touches(op, k)) && forall op | op in ops && op.Purge? :: op.at <= later
    ensures Read(RunAll(After(rows, Set(at, k, value, expires)), ops), k, later) ==
              if expires == None || later < expires.value
              then Some(Entry(k, |value|, if k in rows then rows[k].created else at, at, expires, value))
              else None
    ensures forall j, t | j != k :: Read(After(rows, Set(at, k, value, expires)), j, t) == Read(rows, j, t)
  {
    StaysOrPurged(After(rows, Set(at, k, value, expires)), k, ops, later);
  }

  /** A value set without an expiry stays until its key is touched, whatever expiry the key had before. */
  lemma {:induction false} SetWithoutExpiryStays(rows: Rows, k: Bytes, value: Bytes, at: int, ops: seq<Op>, later: int)
    requires k != [] && forall op | op in ops :: !Touches(op, k)
    ensures Read(RunAll(Written(rows, k, value, None, at), ops), k, later) ==
              Some(Entry(k, |value|, if k in rows then rows[k].created else at, at, None, value))
  {
    Untouched(Written(rows, k, value, None, at), k, ops);
  }

  lemma {:induction false} Untouched(rows: Rows, k: Bytes, ops: seq<Op>)
    requires k in rows && rows[k].expires.None? && forall op | op in ops :: !Touches(op, k)
    ensures k in RunAll(rows, ops) && RunAll(rows, ops)[k] == rows[k]
    decreases |ops|
  {
    if ops != [] {
      assert ops[0] in ops;
      Untouched(After(rows, ops[0]), k, ops[1..]);
    }
  }

  /** A deleted key stays away until it is set again, whatever else happens. */
  lemma {:induction false} DeletedStaysAway(rows: Rows, k: Bytes, ops: seq<Op>, later: int)
    requires forall op | op in ops :: !(op.Set? && op.key == k)
    ensures Read(RunAll(Deleted(rows, k), ops), k, later) == None
  {
    Absent(Deleted(rows, k), k, ops);
  }

  lemma {:induction false} Absent(rows: Rows, k: Bytes, ops: seq<Op>)
    requires k !in rows && forall op | op in ops :: !(op.Set? && op.key == k)
    ensures k !in RunAll(rows, ops)
    decreases |ops|
  {
    if ops != [] {
      assert ops[0] in ops;
      Absent(After(rows, ops[0]), k, ops[1..]);
    }
  }
}
