/**
 The stored transcript of one execution: rows keyed by sequence number,
 appended once each and listed in pages.
 */
module EventTable {
  import opened Common
  import opened Messages

  /** A stored event with its sequence number. */
  datatype Stored = Stored(seqno: nat, event: Event)

  type Rows = map<nat, Event>

  /** The rows after a position in ascending order, as many as fit, none left out in between. */
  ghost predicate IsPage(rows: Rows, after: nat, limit: nat, page: seq<Stored>) {
    && |page| <= limit
    && (forall i | 0 <= i < |page| :: page[i].seqno > after && page[i].seqno in rows && rows[page[i].seqno] == page[i].event)
    && Ascending(page)
    && (forall n | n in rows && n > after ::
          (exists i :: 0 <= i < |page| && page[i].seqno == n) ||
          (|page| == limit && (limit > 0 ==> page[limit - 1].seqno < n)))
  }

  /** The rows hold exactly the first m events, numbered from 1. */
  ghost predicate HoldsFirst(rows: Rows, events: seq<Event>, m: nat) {
    && m <= |events|
    && (forall n :: n in rows <==> 1 <= n <= m)
    && (forall n | n in rows :: rows[n] == events[n - 1])
  }

  ghost predicate Ascending(page: seq<Stored>) {
    forall i, j | 0 <= i < j < |page| :: page[i].seqno < page[j].seqno
  }

  /** Strictly between two neighbours of an ascending page there is nothing of it, nor is its end before it. */
  lemma NothingBetween(page: seq<Stored>, i: nat, n: nat)
    requires Ascending(page) && i < |page| && (i > 0 ==> page[i - 1].seqno < n) && n < page[i].seqno
    ensures n < page[|page| - 1].seqno && forall j | 0 <= j < |page| :: page[j].seqno != n
  {
    forall j | 0 <= j < |page| ensures page[j].seqno != n {
      if j > i {
        assert page[i].seqno < page[j].seqno;
      } else if j < i - 1 {
        assert page[j].seqno < page[i - 1].seqno;
      }
    }
  }

  /** A stored row between two neighbours of a page is the second of them. */
  lemma NextInPage(rows: Rows, after: nat, limit: nat, page: seq<Stored>, i: nat, n: nat)
    requires IsPage(rows, after, limit, page) && i < |page| && n in rows
    requires after < n <= page[i].seqno && (i > 0 ==> page[i - 1].seqno < n)
    ensures page[i].seqno == n
  {
    if n < page[i].seqno {
      NothingBetween(page, i, n);
    }
  }

  lemma {:induction false} Consecutive(rows: Rows, events: seq<Event>, m: nat, after: nat, limit: nat, page: seq<Stored>, i: nat)
    requires HoldsFirst(rows, events, m) && IsPage(rows, after, limit, page) && i < |page|
    ensures page[i].seqno == after + i + 1
  {
    if i > 0 {
      Consecutive(rows, events, m, after, limit, page, i - 1);
      assert page[i - 1].seqno < page[i].seqno;
    }
    assert page[i].seqno in rows;
    NextInPage(rows, after, limit, page, i, after + i + 1);
  }

  /** A page of consecutively numbered rows is the next stretch of the events. */
  lemma PageOfNumbered(rows: Rows, events: seq<Event>, m: nat, after: nat, limit: nat, page: seq<Stored>)
    requires HoldsFirst(rows, events, m) && IsPage(rows, after, limit, page) && limit > 0
    ensures after + |page| == (if after + limit <= m then after + limit else if after <= m then m else after)
    ensures forall i | 0 <= i < |page| :: after + i < m && page[i] == Stored(after + i + 1, events[after + i])
  {
    forall i: nat | i < |page| ensures page[i].seqno == after + i + 1 {
      Consecutive(rows, events, m, after, limit, page, i);
    }
    assert |page| > 0 ==> page[|page| - 1].seqno in rows;
    assert |page| < limit ==> after + |page| + 1 !in rows;
  }

  /** A number that is already stored keeps its event. */
  function Appended(rows: Rows, seqno: nat, event: Event): Rows {
    if seqno in rows then rows else rows[seqno := event]
  }

  /** Appending the next event extends the prefix stored; replaying a stored number, whatever it carries, is harmless. */
  lemma AppendExtends(rows: Rows, events: seq<Event>, m: nat, n: nat, event: Event)
    requires HoldsFirst(rows, events, m) && 1 <= n
    ensures n <= m ==> Appended(rows, n, event) == rows
    ensures n == m + 1 && m < |events| && event == events[m] ==> HoldsFirst(Appended(rows, n, event), events, m + 1)
  {
    assert n in rows <==> n <= m;
  }

  /** Everything above after and up to the cursor, in ascending order. */
  ghost predicate PageSoFar(rows: Rows, after: nat, cursor: nat, page: seq<Stored>) {
    && cursor == (if page == [] then after else page[|page| - 1].seqno)
    && (forall i | 0 <= i < |page| :: after < page[i].seqno <= cursor && page[i].seqno in rows && rows[page[i].seqno] == page[i].event)
    && Ascending(page)
    && (forall k | k in rows && after < k <= cursor :: exists i :: 0 <= i < |page| && page[i].seqno == k)
  }

  lemma PageGrows(rows: Rows, after: nat, cursor: nat, page: seq<Stored>, next: nat)
    requires PageSoFar(rows, after, cursor, page) && next in rows && next > cursor
    requires forall k | k in rows && k > cursor :: k >= next
    ensures PageSoFar(rows, after, next, page + [Stored(next, rows[next])])
  {
    var grown := page + [Stored(next, rows[next])];
    forall k | k in rows && after < k <= next ensures exists i :: 0 <= i < |grown| && grown[i].seqno == k {
      if k <= cursor {
        var i :| 0 <= i < |page| && page[i].seqno == k;
        assert grown[i].seqno == k;
      } else {
        assert grown[|page|].seqno == k;
      }
    }
  }

  class Table {
    var rows: Rows

    constructor ()
      ensures rows == map[]
    {
      rows := map[];
    }

    /** A sequence number already stored is left as it is. */
    method AppendEvent(seqno: nat, event: Event)
      modifies this
      ensures rows == Appended(old(rows), seqno, event)
    {
      if seqno !in rows {
        rows := rows[seqno := event];
      }
    }

    /** The smallest stored number above cursor, if any. */
    method Above(cursor: nat) returns (n: Option<nat>)
      ensures n.Some? ==> n.value in rows && n.value > cursor && forall k | k in rows && k > cursor :: k >= n.value
      ensures n.None? ==> forall k | k in rows :: k <= cursor
    {
      n := None;
      var todo := rows.Keys;
      while todo != {}
        invariant todo <= rows.Keys
        invariant n.Some? ==> n.value in rows && n.value > cursor
        invariant forall k | k in rows && k !in todo && k > cursor :: n.Some? && k >= n.value
        decreases todo
      {
        var k :| k in todo;
        if k > cursor && (n.None? || k < n.value) {
          n := Some(k);
        }
        todo := todo - {k};
      }
    }

    method ListEvents(afterSeq: nat, limit: int) returns (page: seq<Stored>)
      ensures IsPage(rows, afterSeq, if limit <= 0 || limit > 2000 then 500 else limit, page)
    {
      var n := if limit <= 0 || limit > 2000 then 500 else limit;
      page := [];
      var cursor := afterSeq;
      while |page| < n
        invariant |page| <= n && PageSoFar(rows, afterSeq, cursor, page)
        decreases n - |page|
      {
        var next := Above(cursor);
        if next.None? {
          return;
        }
        PageGrows(rows, afterSeq, cursor, page, next.value);
        page := page + [Stored(next.value, rows[next.value])];
        cursor := next.value;
      }
    }

    /**
     A handler's backfill of a table that nobody appends to meanwhile: page by
     page until one is empty, every event after the position, each once.
     */
    method Backfill(after: nat, ghost events: seq<Event>, ghost m: nat) returns (wire: seq<Message>, last: nat)
      requires HoldsFirst(rows, events, m)
      ensures last == if after <= m then m else after
      ensures |wire| == last - after && forall i | 0 <= i < |wire| :: wire[i] == EventFrame(after + i + 1, events[after + i])
    {
      wire, last := [], after;
      while true
        invariant after <= last && (last <= m || last == after) && |wire| == last - after
        invariant forall i | 0 <= i < |wire| :: wire[i] == EventFrame(after + i + 1, events[after + i])
        decreases if last <= m then m - last else 0
      {
        var page := ListEvents(last, 500);
        PageOfNumbered(rows, events, m, last, 500, page);
        if |page| == 0 {
          return;
        }
        ghost var start := last;
        for k := 0 to |page|
          invariant last == start + k && |wire| == last - after
          invariant forall i | 0 <= i < |wire| :: wire[i] == EventFrame(after + i + 1, events[after + i])
        {
          wire := wire + [EventFrame(page[k].seqno, page[k].event)];
          last := page[k].seqno;
        }
      }
    }
  }
}
