/**
 Fire times of a parsed schedule: the next few, and the latest one missed. The
 cron library's own search is a parameter: the least fire time strictly after a
 given time, if there is one.
 */
module Schedule {
  import opened Common

  datatype Calendar = Calendar(fires: int -> bool, next: int -> Option<int>)

  /** Next is the least fire time strictly after t. */
  ghost predicate Honest(c: Calendar) {
    forall t :: match c.next(t)
                case None => forall f :: f > t ==> !c.fires(f)
                case Some(n) => n > t && c.fires(n) && forall f :: t < f < n ==> !c.fires(f)
  }

  const BOUND := 100_000

  /** The fire times in (since, now]. */
  function Fires(c: Calendar, since: int, now: int): set<int> {
    set f | since < f <= now && c.fires(f)
  }

  /** How a bounded walk over the fire times ends: at the last one it reached. A next that stands still cannot happen. */
  function Walk(c: Calendar, since: int, now: int, bound: nat): Option<int>
    decreases if since < now then now - since else 0
  {
    if bound == 0 then None
    else match c.next(since)
      case None => None
      case Some(n) =>
        if n > now || n <= since then None
        else match Walk(c, n, now, bound - 1) {
          case None => Some(n)
          case Some(last) => Some(last)
        }
  }

  /** The most recent fire time in (since, now]; a schedule that was never parsed, or a zero since, has none. */
  method MissedSince(schedule: Option<Calendar>, since: Option<int>, now: int) returns (missed: Option<int>)
    requires schedule.Some? ==> Honest(schedule.value)
    ensures missed == if schedule.None? || since.None? || since.value >= now then None
                      else Walk(schedule.value, since.value, now, BOUND)
  {
    if schedule.None? || since.None? || !(since.value < now) {
      return None;
    }
    var c := schedule.value;
    var last: Option<int> := None;
    var cursor := since.value;
    var i := 0;
    while i < BOUND
      invariant 0 <= i <= BOUND && last == if i == 0 then None else Some(cursor)
      invariant Walk(c, since.value, now, BOUND) == match Walk(c, cursor, now, BOUND - i) case None => last case Some(l) => Some(l)
    {
      var next := c.next(cursor);
      if next.None? || next.value > now {
        return last;
      }
      last, cursor := next, next.value;
      i := i + 1;
    }
    missed := last;
  }

  lemma FiresAfterNext(c: Calendar, since: int, now: int)
    requires Honest(c)
    ensures c.next(since).None? || c.next(since).value > now ==> Fires(c, since, now) == {}
    ensures c.next(since).Some? && c.next(since).value <= now ==>
              var n := c.next(since).value;
              n !in Fires(c, n, now) && Fires(c, since, now) == {n} + Fires(c, n, now)
  {
    if c.next(since).Some? {
      var n := c.next(since).value;
      if n <= now {
        forall f ensures f in Fires(c, since, now) <==> f == n || f in Fires(c, n, now) {
        }
      }
    }
  }

  /** Up to and including a fire time there are, among those missed, as many as the walk took steps. */
  lemma {:induction false} WalkCounts(c: Calendar, since: int, now: int, bound: nat)
    requires Honest(c) && bound > 0
    ensures Walk(c, since, now, bound).None? <==> Fires(c, since, now) == {}
    ensures Walk(c, since, now, bound).Some? ==>
              var m := Walk(c, since, now, bound).value; var all := Fires(c, since, now);
              m in all && |Fires(c, since, m)| == if |all| <= bound then |all| else bound
    decreases bound
  {
    FiresAfterNext(c, since, now);
    if c.next(since).Some? && c.next(since).value <= now {
      var n := c.next(since).value;
      FiresAfterNext(c, since, n);
      assert Fires(c, n, n) == {};
      if bound > 1 {
        WalkCounts(c, n, now, bound - 1);
        if Walk(c, n, now, bound - 1).Some? {
          FiresAfterNext(c, since, Walk(c, n, now, bound - 1).value);
        }
      }
    }
  }

  predicate Greatest(m: int, s: set<int>) {
    m in s && forall f | f in s :: f <= m
  }

  /**
   What MissedSince answers for a parsed schedule: nothing exactly when nothing
   was missed; otherwise a missed fire time, the greatest one exactly when at
   most 100000 were missed, and the 100000th of them when there were more.
   */
  lemma MissedIsGreatest(c: Calendar, since: int, now: int)
    requires Honest(c) && since < now
    ensures var r := Walk(c, since, now, BOUND); var all := Fires(c, since, now);
            && (r.None? <==> all == {})
            && (r.Some? ==> r.value in all)
            && (r.Some? ==> (Greatest(r.value, all) <==> |all| <= 100_000))
            && (r.Some? && |all| > 100_000 ==> |Fires(c, since, r.value)| == 100_000)
  {
    WalkCounts(c, since, now, BOUND);
    var r, all := Walk(c, since, now, BOUND), Fires(c, since, now);
    if r.Some? {
      var upTo := Fires(c, since, r.value);
      assert upTo <= all;
      if |all| <= BOUND {
        SameSize(upTo, all);
      }
      assert Greatest(r.value, all) ==> upTo == all;
    }
  }

  /** The missed fire time to answer with: the greatest, or the 100000th when there are more. */
  predicate IsMissed(c: Calendar, since: int, now: int, m: int) {
    var all := set f | since < f <= now && c.fires(f);
    m in all && if |all| <= 100_000 then forall f | f in all :: f <= m else |set f | since < f <= m && c.fires(f)| == 100_000
  }

  lemma UpToTells(c: Calendar, since: int, now: int, l: int, m: int)
    requires l in Fires(c, since, now) && m in Fires(c, since, now) && |Fires(c, since, l)| == |Fires(c, since, m)| && l <= m
    ensures l == m
  {
    assert Fires(c, since, l) <= Fires(c, since, m);
    SameSize(Fires(c, since, l), Fires(c, since, m));
    assert m in Fires(c, since, m);
  }

  /** Of the missed fire times exactly one is the answer, and the walk finds it. */
  lemma WalkIff(c: Calendar, since: int, now: int, m: int)
    requires Honest(c)
    ensures Walk(c, since, now, BOUND) == Some(m) <==> IsMissed(c, since, now, m)
  {
    if since < now {
      var all := Fires(c, since, now);
      assert all == set f | since < f <= now && c.fires(f);
      assert Fires(c, since, m) == set f | since < f <= m && c.fires(f);
      MissedIsGreatest(c, since, now);
      var r := Walk(c, since, now, BOUND);
      if r.Some? && IsMissed(c, since, now, m) && |all| > 100_000 {
        if r.value <= m {
          UpToTells(c, since, now, r.value, m);
        } else {
          UpToTells(c, since, now, m, r.value);
        }
      }
    } else {
      assert Walk(c, since, now, BOUND).None?;
    }
  }

  lemma SameSize(a: set<int>, b: set<int>)
    requires a <= b && |a| == |b|
    ensures a == b
  {
    var rest := b - a;
    assert b == a + rest;
    assert |rest| == 0;
  }

  // ---- the next few fire times -----------------------------------------------------------------

  ghost predicate IsNext(c: Calendar, t: int, n: int, out: seq<int>) {
    && |out| <= (if n > 0 then n else 0)
    && (forall i | 0 <= i < |out| :: out[i] > t && c.fires(out[i]))
    && (forall i, j | 0 <= i < j < |out| :: out[i] < out[j])
    && (forall f | f > t && c.fires(f) :: f in out || (|out| == n && (out != [] ==> f > out[|out| - 1])))
  }

  /** The first n fire times after t in order, fewer only when there are no more. */
  method NextN(schedule: Option<Calendar>, t: int, n: int) returns (out: seq<int>)
    requires schedule.Some? ==> Honest(schedule.value)
    ensures schedule.Some? && n > 0 ==> IsNext(schedule.value, t, n, out)
    ensures schedule.None? || n <= 0 ==> out == []
  {
    out := [];
    if schedule.None? || n <= 0 {
      return;
    }
    var c := schedule.value;
    var cursor := t;
    for i := 0 to n
      invariant |out| == i && cursor == if out == [] then t else out[|out| - 1]
      invariant forall k | 0 <= k < |out| :: t < out[k] <= cursor && c.fires(out[k])
      invariant forall k, j | 0 <= k < j < |out| :: out[k] < out[j]
      invariant forall f | t < f <= cursor && c.fires(f) :: f in out
    {
      var next := c.next(cursor);
      if next.None? {
        return;
      }
      cursor := next.value;
      out := out + [cursor];
    }
  }
}
