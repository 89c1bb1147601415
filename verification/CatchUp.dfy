/**
 Catching up after downtime: at each start, a task whose last run lies before a
 missed fire time runs once, if the fire time is recent enough. One task is
 followed over any number of starts, kills and other triggers; time is in whole
 milliseconds and never goes back.
 */
module CatchUp {
  import opened Common
  import opened Schedule

  datatype Task = Task(id: int, enabled: bool, paused: bool, schedule: Option<Calendar>)

  /** The fire time to catch up on, if there is one: a task that never ran has none. */
  function Due(schedule: Option<Calendar>, last: Option<int>, now: int, grace: int): Option<int> {
    if schedule.None? || last.None? || last.value >= now then None
    else match Walk(schedule.value, last.value, now, BOUND)
      case None => None
      case Some(m) => if now - m > grace then None else Some(m)
  }

  /** The tasks to run and for which fire time, in the order of the list. */
  function DueRuns(tasks: seq<Task>, last: map<int, int>, now: int, grace: int): seq<(int, int)> {
    if tasks == [] then []
    else
      var t := tasks[|tasks| - 1];
      var due := DueNow(t, last, now, grace);
      DueRuns(tasks[..|tasks| - 1], last, now, grace) + if due.Some? then [(t.id, due.value)] else []
  }

  function DueNow(t: Task, last: map<int, int>, now: int, grace: int): Option<int> {
    if t.enabled && !t.paused then Due(t.schedule, LastRun(last, t.id), now, grace) else None
  }

  function LastRun(last: map<int, int>, id: int): Option<int> {
    if id in last then Some(last[id]) else None
  }

  /**
   One pass over the tasks at start. last holds the newest row of every task that
   has one; the service stops listening after stopAfter tasks.
   */
  method Pass(tasks: seq<Task>, last: map<int, int>, now: int, grace: int, stopAfter: nat) returns (runs: seq<(int, int)>)
    requires forall i | 0 <= i < |tasks| && tasks[i].schedule.Some? :: Honest(tasks[i].schedule.value)
    ensures runs == if grace <= 0 then [] else DueRuns(tasks[..if stopAfter < |tasks| then stopAfter else |tasks|], last, now, grace)
    ensures forall id, m :: (id, m) in runs <==>
              grace > 0 && exists i :: 0 <= i < |tasks| && i < stopAfter && tasks[i].id == id && RunsFor(tasks[i], last, now, grace, m)
  {
    runs := [];
    if grace <= 0 {
      return;
    }
    ghost var n := if stopAfter < |tasks| then stopAfter else |tasks|;
    var i := 0;
    while i < |tasks| && i < stopAfter
      invariant 0 <= i <= |tasks| && i <= stopAfter
      invariant runs == DueRuns(tasks[..i], last, now, grace)
    {
      var t := tasks[i];
      assert tasks[..i + 1][..i] == tasks[..i];
      i := i + 1;
      if !t.enabled || t.paused || t.schedule.None? || t.id !in last {
        continue;
      }
      var missed := MissedSince(t.schedule, Some(last[t.id]), now);
      if missed.None? || now - missed.value > grace {
        continue;
      }
      runs := runs + [(t.id, missed.value)];
    }
    PassOf(tasks, n, last, now, grace);
  }

  /**
   The task runs for fire time m: it is enabled and not paused, has run before,
   and m, the one it missed last, is at most the grace old. Beyond 100000 missed
   ones m is the 100000th.
   */
  predicate RunsFor(t: Task, last: map<int, int>, now: int, grace: int, m: int) {
    && t.enabled && !t.paused && t.schedule.Some? && t.id in last && now - m <= grace
    && IsMissed(t.schedule.value, last[t.id], now, m)
  }

  lemma DueIff(t: Task, last: map<int, int>, now: int, grace: int, m: int)
    requires t.schedule.Some? ==> Honest(t.schedule.value)
    ensures DueNow(t, last, now, grace) == Some(m) <==> RunsFor(t, last, now, grace, m)
  {
    if t.schedule.Some? && t.id in last {
      WalkIff(t.schedule.value, last[t.id], now, m);
    }
  }

  /** A run is in the pass exactly when it is some task's. */
  lemma {:induction false} DueRunsHas(tasks: seq<Task>, last: map<int, int>, now: int, grace: int, id: int, m: int)
    requires forall i | 0 <= i < |tasks| && tasks[i].schedule.Some? :: Honest(tasks[i].schedule.value)
    ensures (id, m) in DueRuns(tasks, last, now, grace) <==>
              exists i :: 0 <= i < |tasks| && tasks[i].id == id && RunsFor(tasks[i], last, now, grace, m)
  {
    if tasks != [] {
      var n := |tasks| - 1;
      var t := tasks[n];
      DueRunsHas(tasks[..n], last, now, grace, id, m);
      DueIff(t, last, now, grace, m);
      var due := DueNow(t, last, now, grace);
      var mine := if due.Some? then [(t.id, due.value)] else [];
      assert DueRuns(tasks, last, now, grace) == DueRuns(tasks[..n], last, now, grace) + mine;
      assert (id, m) in mine <==> t.id == id && due == Some(m);
      OneMoreOf(tasks, last, now, grace, id, m);
    }
  }

  lemma OneMoreOf(tasks: seq<Task>, last: map<int, int>, now: int, grace: int, id: int, m: int)
    requires tasks != []
    ensures var n := |tasks| - 1;
            (exists i :: 0 <= i < |tasks| && tasks[i].id == id && RunsFor(tasks[i], last, now, grace, m)) <==>
            (exists i :: 0 <= i < n && tasks[..n][i].id == id && RunsFor(tasks[..n][i], last, now, grace, m))
            || (tasks[n].id == id && RunsFor(tasks[n], last, now, grace, m))
  {
    var n := |tasks| - 1;
    assert forall i | 0 <= i < n :: tasks[..n][i] == tasks[i];
  }

  lemma PassOf(tasks: seq<Task>, n: nat, last: map<int, int>, now: int, grace: int)
    requires n <= |tasks| && forall i | 0 <= i < |tasks| && tasks[i].schedule.Some? :: Honest(tasks[i].schedule.value)
    ensures forall id, m :: (id, m) in DueRuns(tasks[..n], last, now, grace) <==>
              exists i :: 0 <= i < n && tasks[i].id == id && RunsFor(tasks[i], last, now, grace, m)
  {
    forall id, m ensures (id, m) in DueRuns(tasks[..n], last, now, grace) <==>
              exists i :: 0 <= i < n && tasks[i].id == id && RunsFor(tasks[i], last, now, grace, m)
    {
      DueRunsHas(tasks[..n], last, now, grace, id, m);
      assert forall i | 0 <= i < n :: tasks[..n][i] == tasks[i];
    }
  }

  /**
   A pass runs exactly what is due: every task that is enabled, not paused and
   has run before, for the fire time it missed last if that is within the grace,
   and nothing else; each task once, in the order of the list.
   */
  lemma {:induction false} PassMeaning(tasks: seq<Task>, last: map<int, int>, now: int, grace: int) returns (ran: seq<Task>, idx: seq<nat>)
    requires forall i | 0 <= i < |tasks| && tasks[i].schedule.Some? :: Honest(tasks[i].schedule.value)
    ensures Picks(tasks, ran, idx) && forall i: nat {:trigger i in idx} | i < |tasks| :: i in idx <==> exists m :: RunsFor(tasks[i], last, now, grace, m)
    ensures |DueRuns(tasks, last, now, grace)| == |ran|
    ensures forall j | 0 <= j < |ran| :: var (id, m) := DueRuns(tasks, last, now, grace)[j]; id == ran[j].id && RunsFor(ran[j], last, now, grace, m)
  {
    ran, idx := [], [];
    if tasks != [] {
      var n := |tasks| - 1;
      var t := tasks[n];
      var before, places := PassMeaning(tasks[..n], last, now, grace);
      var due := DueNow(t, last, now, grace);
      PicksMore(tasks[..n], before, places, t, due.Some?);
      PlacedHas(places, n, due.Some?);
      BackTogether(tasks);
      RunsForOne(t, last, now, grace);
      ran, idx := before + (if due.Some? then [t] else []), Placed(places, n, due.Some?);
    }
  }

  lemma RunsForOne(t: Task, last: map<int, int>, now: int, grace: int)
    requires t.schedule.Some? ==> Honest(t.schedule.value)
    ensures DueNow(t, last, now, grace).Some? <==> exists m :: RunsFor(t, last, now, grace, m)
    ensures DueNow(t, last, now, grace).Some? ==> RunsFor(t, last, now, grace, DueNow(t, last, now, grace).value)
  {
    forall m ensures DueNow(t, last, now, grace) == Some(m) <==> RunsFor(t, last, now, grace, m) {
      DueIff(t, last, now, grace, m);
    }
  }

  // ---- one task over any number of starts -------------------------------------------------------

  /** One catch-up: begun at now, when there were seen rows, and about to run for a fire time. */
  datatype Hand = Hand(now: int, seen: nat, fire: Option<int>)

  /** A catch-up that ran: it left row number row. */
  datatype Caught = Caught(fire: int, now: int, seen: nat, row: nat)

  /** rows: when each execution of the task was queued, oldest first. */
  datatype State = State(clock: int, rows: seq<int>, hands: seq<Option<Hand>>, caught: seq<Caught>)

  datatype Action =
    | Tick(d: nat)
    | Other                // a timer or a user triggers the task
    | Begin                // a daemon starts its pass
    | Read(h: nat)         // it reads the task's last run and decides
    | Run(h: nat)          // it triggers the run
    | Die(h: nat)          // the daemon is gone

  predicate Holds(s: State, h: nat) {
    h < |s.hands| && s.hands[h].Some?
  }

  predicate Enabled(s: State, a: Action) {
    match a
    case Read(h) => Holds(s, h) && s.hands[h].value.fire.None?
    case Run(h) => Holds(s, h) && s.hands[h].value.fire.Some?
    case Die(h) => Holds(s, h)
    case _ => true
  }

  /** With a clock that never goes back, the newest row is the last one. */
  function Newest(rows: seq<int>): Option<int> {
    if rows == [] then None else Some(rows[|rows| - 1])
  }

  function Step(s: State, a: Action, c: Calendar, grace: int): State
    requires Enabled(s, a)
  {
    match a
    case Tick(d) => s.(clock := s.clock + d)
    case Other => s.(rows := s.rows + [s.clock])
    case Begin => s.(hands := s.hands + [Some(Hand(s.clock, 0, None))])
    case Read(h) =>
      var now := s.hands[h].value.now;
      var due := if grace <= 0 then None else Due(Some(c), Newest(s.rows), now, grace);
      s.(hands := s.hands[h := if due.None? then None else Some(Hand(now, |s.rows|, due))])
    case Run(h) =>
      var hand := s.hands[h].value;
      s.(rows := s.rows + [s.clock], hands := s.hands[h := None],
         caught := s.caught + [Caught(hand.fire.value, hand.now, hand.seen, |s.rows|)])
    case Die(h) => s.(hands := s.hands[h := None])
  }

  /** A step that cannot be taken is passed over. */
  function Do(s: State, a: Action, c: Calendar, grace: int): State {
    if Enabled(s, a) then Step(s, a, c, grace) else s
  }

  function RunAll(s: State, actions: seq<Action>, c: Calendar, grace: int): State
    decreases |actions|
  {
    if actions == [] then s
    else RunAll(Do(s, actions[0], c, grace), actions[1..], c, grace)
  }

  predicate Initial(s: State) {
    s.rows == [] && s.hands == [] && s.caught == []
  }

  /** A decision to run: a fire time after every row read, at most the grace old when the pass began. */
  predicate Justified(s: State, c: Calendar, grace: int, fire: int, now: int, seen: nat) {
    && 0 < seen <= |s.rows| && s.rows[seen - 1] < fire <= now && c.fires(fire) && now - fire <= grace && now <= s.clock
    && Walk(c, s.rows[seen - 1], now, BOUND) == Some(fire)
  }

  ghost predicate RowsFine(s: State) {
    && (forall i, j | 0 <= i < j < |s.rows| :: s.rows[i] <= s.rows[j])
    && (forall i | 0 <= i < |s.rows| :: s.rows[i] <= s.clock)
  }

  predicate HandFine(s: State, c: Calendar, grace: int, h: Hand) {
    h.now <= s.clock && (h.fire.Some? ==> Justified(s, c, grace, h.fire.value, h.now, h.seen))
  }

  ghost predicate HandsFine(s: State, c: Calendar, grace: int) {
    forall h | 0 <= h < |s.hands| && s.hands[h].Some? :: HandFine(s, c, grace, s.hands[h].value)
  }

  ghost predicate CaughtsFine(s: State, c: Calendar, grace: int) {
    && (forall i | 0 <= i < |s.caught| :: CaughtFine(s, c, grace, s.caught[i]))
    && (forall i, j | 0 <= i < j < |s.caught| :: s.caught[i].row < s.caught[j].row)
  }

  ghost predicate Inv(s: State, c: Calendar, grace: int) {
    RowsFine(s) && HandsFine(s, c, grace) && CaughtsFine(s, c, grace)
  }

  /** Rows are only added, and the clock only goes on. */
  predicate Later(s: State, t: State) {
    s.clock <= t.clock && |s.rows| <= |t.rows| && t.rows[..|s.rows|] == s.rows
  }

  lemma JustifiedLater(s: State, t: State, c: Calendar, grace: int, fire: int, now: int, seen: nat)
    requires Later(s, t) && Justified(s, c, grace, fire, now, seen)
    ensures Justified(t, c, grace, fire, now, seen)
  {
    assert t.rows[..|s.rows|][seen - 1] == t.rows[seen - 1];
  }

  lemma CaughtLater(s: State, t: State, c: Calendar, grace: int, k: Caught)
    requires Later(s, t) && CaughtFine(s, c, grace, k)
    ensures CaughtFine(t, c, grace, k)
  {
    JustifiedLater(s, t, c, grace, k.fire, k.now, k.seen);
    assert t.rows[..|s.rows|][k.row] == t.rows[k.row];
  }

  lemma AllLater(s: State, t: State, c: Calendar, grace: int)
    requires Inv(s, c, grace) && Later(s, t)
    ensures forall h | 0 <= h < |s.hands| && s.hands[h].Some? :: HandFine(t, c, grace, s.hands[h].value)
    ensures forall i | 0 <= i < |s.caught| :: CaughtFine(t, c, grace, s.caught[i])
  {
    forall h | 0 <= h < |s.hands| && s.hands[h].Some? ensures HandFine(t, c, grace, s.hands[h].value) {
      var hand := s.hands[h].value;
      if hand.fire.Some? {
        JustifiedLater(s, t, c, grace, hand.fire.value, hand.now, hand.seen);
      }
    }
    forall i | 0 <= i < |s.caught| ensures CaughtFine(t, c, grace, s.caught[i]) {
      CaughtLater(s, t, c, grace, s.caught[i]);
    }
  }

  predicate CaughtFine(s: State, c: Calendar, grace: int, k: Caught) {
    && Justified(s, c, grace, k.fire, k.now, k.seen)
    && k.seen <= k.row < |s.rows| && s.rows[k.row] >= k.now
  }

  lemma DueIsJustified(c: Calendar, last: int, now: int, grace: int)
    requires Honest(c) && Due(Some(c), Some(last), now, grace).Some?
    ensures var m := Due(Some(c), Some(last), now, grace).value;
            last < m <= now && c.fires(m) && now - m <= grace && Walk(c, last, now, BOUND) == Some(m)
  {
    MissedIsGreatest(c, last, now);
  }

  lemma ReadKeeps(s: State, h: nat, c: Calendar, grace: int)
    requires Inv(s, c, grace) && Enabled(s, Read(h)) && Honest(c)
    ensures Inv(Step(s, Read(h), c, grace), c, grace)
  {
    var now := s.hands[h].value.now;
    if s.rows != [] && Due(Some(c), Newest(s.rows), now, grace).Some? {
      DueIsJustified(c, s.rows[|s.rows| - 1], now, grace);
    }
    AllLater(s, Step(s, Read(h), c, grace), c, grace);
  }

  /** Catching up is allowed, the task has run before, and m, the fire time it missed last, is at most the grace old. */
  predicate CatchesUp(rows: seq<int>, c: Calendar, now: int, grace: int, m: int) {
    grace > 0 && rows != [] && now - m <= grace && IsMissed(c, rows[|rows| - 1], now, m)
  }

  /**
   Over every run: having read, a pass goes on to run the task exactly when
   catching up is allowed, the task has run before, and the fire time it missed
   last is at most the grace old; and it runs it for that one.
   */
  lemma ReadDecides(s: State, actions: seq<Action>, h: nat, c: Calendar, grace: int)
    requires Honest(c) && Enabled(RunAll(s, actions, c, grace), Read(h))
    ensures var r := RunAll(s, actions, c, grace); var now := r.hands[h].value.now;
            var t := Step(r, Read(h), c, grace);
            && (t.hands[h].Some? <==> exists m :: CatchesUp(r.rows, c, now, grace, m))
            && (t.hands[h].Some? ==> t.hands[h].value.now == now && t.hands[h].value.seen == |r.rows| && t.hands[h].value.fire.Some?
                                     && CatchesUp(r.rows, c, now, grace, t.hands[h].value.fire.value))
  {
    var r := RunAll(s, actions, c, grace);
    var now := r.hands[h].value.now;
    if r.rows != [] {
      var since := r.rows[|r.rows| - 1];
      forall m ensures Walk(c, since, now, BOUND) == Some(m) <==> IsMissed(c, since, now, m) {
        WalkIff(c, since, now, m);
      }
      if grace > 0 && Due(Some(c), Some(since), now, grace).Some? {
        assert CatchesUp(r.rows, c, now, grace, Due(Some(c), Some(since), now, grace).value);
      }
    }
  }

  lemma RunsCaught(s: State, h: nat, c: Calendar, grace: int)
    requires Inv(s, c, grace) && Enabled(s, Run(h))
    ensures var hand := s.hands[h].value;
            CaughtFine(Step(s, Run(h), c, grace), c, grace, Caught(hand.fire.value, hand.now, hand.seen, |s.rows|))
  {
    var t, hand := Step(s, Run(h), c, grace), s.hands[h].value;
    assert HandFine(s, c, grace, hand);
    JustifiedLater(s, t, c, grace, hand.fire.value, hand.now, hand.seen);
  }

  lemma RunsKeeps(s: State, h: nat, c: Calendar, grace: int)
    requires Inv(s, c, grace) && Enabled(s, Run(h))
    ensures Inv(Step(s, Run(h), c, grace), c, grace)
  {
    RunsCaught(s, h, c, grace);
    AllLater(s, Step(s, Run(h), c, grace), c, grace);
    assert forall i | 0 <= i < |s.caught| :: s.caught[i].row < |s.rows| by {
      assert forall i | 0 <= i < |s.caught| :: CaughtFine(s, c, grace, s.caught[i]);
    }
  }

  lemma StepKeeps(s: State, a: Action, c: Calendar, grace: int)
    requires Inv(s, c, grace) && Enabled(s, a) && Honest(c)
    ensures Inv(Step(s, a, c, grace), c, grace)
  {
    match a {
      case Read(h) => ReadKeeps(s, h, c, grace);
      case Run(h) => RunsKeeps(s, h, c, grace);
      case _ => AllLater(s, Step(s, a, c, grace), c, grace);
    }
  }

  lemma {:induction false} RunKeeps(s: State, actions: seq<Action>, c: Calendar, grace: int)
    requires Inv(s, c, grace) && Honest(c)
    ensures Inv(RunAll(s, actions, c, grace), c, grace)
    decreases |actions|
  {
    if actions != [] {
      if Enabled(s, actions[0]) {
        StepKeeps(s, actions[0], c, grace);
        RunKeeps(Step(s, actions[0], c, grace), actions[1..], c, grace);
      } else {
        RunKeeps(s, actions[1..], c, grace);
      }
    }
  }

  /** Every catch-up is for a fire time inside the grace window, of a task that had run before, and later than all its runs. */
  lemma CatchUpIsDue(s: State, actions: seq<Action>, c: Calendar, grace: int, i: nat)
    requires Initial(s) && Honest(c) && i < |RunAll(s, actions, c, grace).caught|
    ensures var r := RunAll(s, actions, c, grace); var k := r.caught[i];
            && 0 < k.seen <= |r.rows| && c.fires(k.fire) && 0 <= k.now - k.fire <= grace
            && forall j | 0 <= j < k.seen :: r.rows[j] < k.fire
  {
    RunKeeps(s, actions, c, grace);
    var r := RunAll(s, actions, c, grace);
    var k := r.caught[i];
    assert CaughtFine(r, c, grace, k);
    forall j | 0 <= j < k.seen ensures r.rows[j] < k.fire {
      assert r.rows[j] <= r.rows[k.seen - 1];
    }
  }

  /**
   Two catch-ups for one fire time are possible only if the later one had read
   the task's last run before the earlier one left its row. A daemon that starts
   after the one before is gone never repeats a fire time: its own is later.
   */
  lemma OncePerFireTime(s: State, actions: seq<Action>, c: Calendar, grace: int, i: nat, j: nat)
    requires Initial(s) && Honest(c) && i < j < |RunAll(s, actions, c, grace).caught|
    ensures var r := RunAll(s, actions, c, grace);
            r.caught[j].seen > r.caught[i].row ==> r.caught[i].fire < r.caught[j].fire
    ensures var r := RunAll(s, actions, c, grace);
            r.caught[i].fire == r.caught[j].fire ==> r.caught[j].seen <= r.caught[i].row
  {
    RunKeeps(s, actions, c, grace);
    var r := RunAll(s, actions, c, grace);
    assert CaughtFine(r, c, grace, r.caught[i]) && CaughtFine(r, c, grace, r.caught[j]);
    if r.caught[j].seen > r.caught[i].row {
      assert r.rows[r.caught[i].row] <= r.rows[r.caught[j].seen - 1];
    }
  }

  /** The greatest fire times of two windows agree exactly when no fire time lies between the windows' ends. */
  lemma GreatestAgree(c: Calendar, a: int, x: int, m: int, b: int, y: int, n: int)
    requires Greatest(m, Fires(c, a, x)) && Greatest(n, Fires(c, b, y)) && x <= y
    ensures m == n <==> Fires(c, x, y) == {}
  {
    assert m > b ==> m in Fires(c, b, y);
    assert n > x ==> n in Fires(c, x, y);
    assert a < n <= x ==> n in Fires(c, a, x);
    if m == n {
      forall f ensures f !in Fires(c, x, y) {
        assert f in Fires(c, x, y) ==> f in Fires(c, b, y);
      }
    }
  }

  /** The pass had at most 100000 fire times to catch up on. */
  predicate FewMissed(s: State, c: Calendar, k: Caught) {
    0 < k.seen <= |s.rows| && |Fires(c, s.rows[k.seen - 1], k.now)| <= BOUND
  }

  /**
   Any two catch-ups, of any daemons in any interleaving, are for one and the
   same fire time if and only if no fire time lies between the instants at which
   their passes began.
   */
  lemma SameFireIff(s: State, actions: seq<Action>, c: Calendar, grace: int, i: nat, j: nat)
    requires Initial(s) && Honest(c) && i < |RunAll(s, actions, c, grace).caught| && j < |RunAll(s, actions, c, grace).caught|
    requires FewMissed(RunAll(s, actions, c, grace), c, RunAll(s, actions, c, grace).caught[i])
    requires FewMissed(RunAll(s, actions, c, grace), c, RunAll(s, actions, c, grace).caught[j])
    ensures var k, l := RunAll(s, actions, c, grace).caught[i], RunAll(s, actions, c, grace).caught[j];
            k.fire == l.fire <==> Fires(c, k.now, l.now) == {} && Fires(c, l.now, k.now) == {}
  {
    RunKeeps(s, actions, c, grace);
    var r := RunAll(s, actions, c, grace);
    var k, l := r.caught[i], r.caught[j];
    CaughtGreatest(r, c, grace, k);
    CaughtGreatest(r, c, grace, l);
    if k.now <= l.now {
      GreatestAgree(c, r.rows[k.seen - 1], k.now, k.fire, r.rows[l.seen - 1], l.now, l.fire);
    } else {
      GreatestAgree(c, r.rows[l.seen - 1], l.now, l.fire, r.rows[k.seen - 1], k.now, k.fire);
    }
  }

  lemma CaughtGreatest(s: State, c: Calendar, grace: int, k: Caught)
    requires Inv(s, c, grace) && Honest(c) && k in s.caught && FewMissed(s, c, k)
    ensures Greatest(k.fire, Fires(c, s.rows[k.seen - 1], k.now))
  {
    assert CaughtFine(s, c, grace, k);
    MissedIsGreatest(c, s.rows[k.seen - 1], k.now);
  }

  /** One daemon at a time: no pass begins while another is in hand. */
  predicate Serial(s: State, actions: seq<Action>, c: Calendar, grace: int)
    decreases |actions|
  {
    actions == [] ||
    ((actions[0].Begin? ==> NoHand(s)) &&
     Serial(Do(s, actions[0], c, grace), actions[1..], c, grace))
  }

  predicate NoHand(s: State) {
    forall h | 0 <= h < |s.hands| :: s.hands[h].None?
  }

  /** At most one pass is in hand, and what it has read is newer than every catch-up. */
  ghost predicate OneHand(s: State) {
    && (forall h, g | 0 <= h < g < |s.hands| :: s.hands[h].None? || s.hands[g].None?)
    && (forall h, i | 0 <= h < |s.hands| && s.hands[h].Some? && s.hands[h].value.fire.Some? && 0 <= i < |s.caught| ::
          s.caught[i].row < s.hands[h].value.seen)
    && (forall i, j | 0 <= i < j < |s.caught| :: s.caught[i].row < s.caught[j].seen)
  }

  lemma StepOneHand(s: State, a: Action, c: Calendar, grace: int)
    requires Inv(s, c, grace) && OneHand(s) && Enabled(s, a) && (a.Begin? ==> NoHand(s))
    ensures OneHand(Step(s, a, c, grace))
  {
    assert forall i | 0 <= i < |s.caught| :: CaughtFine(s, c, grace, s.caught[i]);
  }

  lemma {:induction false} RunOneHand(s: State, actions: seq<Action>, c: Calendar, grace: int)
    requires Inv(s, c, grace) && Honest(c) && OneHand(s) && Serial(s, actions, c, grace)
    ensures OneHand(RunAll(s, actions, c, grace))
    decreases |actions|
  {
    if actions != [] {
      if Enabled(s, actions[0]) {
        StepKeeps(s, actions[0], c, grace);
        StepOneHand(s, actions[0], c, grace);
        RunOneHand(Step(s, actions[0], c, grace), actions[1..], c, grace);
      } else {
        RunOneHand(s, actions[1..], c, grace);
      }
    }
  }

  /** With one daemon at a time, each fire time is caught up on at most once, over any number of restarts. */
  lemma SerialCatchesOnce(s: State, actions: seq<Action>, c: Calendar, grace: int, i: nat, j: nat)
    requires Initial(s) && Honest(c) && Serial(s, actions, c, grace)
    requires i < j < |RunAll(s, actions, c, grace).caught|
    ensures var r := RunAll(s, actions, c, grace); r.caught[i].fire < r.caught[j].fire
  {
    RunOneHand(s, actions, c, grace);
    OncePerFireTime(s, actions, c, grace, i, j);
  }

  lemma RunFour(s: State, a: Action, b: Action, d: Action, e: Action, c: Calendar, grace: int)
    ensures RunAll(s, [a, b, d, e], c, grace) == Do(Do(Do(Do(s, a, c, grace), b, c, grace), d, c, grace), e, c, grace)
  {
    assert [a, b, d, e][1..] == [b, d, e] && [b, d, e][1..] == [d, e] && [d, e][1..] == [e] && [e][1..] == [];
    var s1 := Do(s, a, c, grace);
    var s2 := Do(s1, b, c, grace);
    assert RunAll(s, [a, b, d, e], c, grace) == RunAll(s1, [b, d, e], c, grace) == RunAll(s2, [d, e], c, grace);
    var s3 := Do(s2, d, c, grace);
    assert RunAll(s2, [d, e], c, grace) == RunAll(s3, [e], c, grace) == RunAll(Do(s3, e, c, grace), [], c, grace);
  }

  /** Two passes begun after a fire time that was missed by one millisecond. */
  function BothBegun(fire: int): State {
    var begun := Some(Hand(fire + 1, 0, None));
    State(fire + 1, [fire - 1], [begun, begun], [])
  }

  lemma BothRead(c: Calendar, fire: int, grace: int)
    requires Honest(c) && c.fires(fire) && Fires(c, fire - 1, fire + 1) == {fire} && grace > 0
    ensures var read := Some(Hand(fire + 1, 1, Some(fire)));
            Do(Do(BothBegun(fire), Read(0), c, grace), Read(1), c, grace) == BothBegun(fire).(hands := [read, read])
  {
    MissedIsGreatest(c, fire - 1, fire + 1);
    assert Due(Some(c), Some(fire - 1), fire + 1, grace) == Some(fire);
    var read := Some(Hand(fire + 1, 1, Some(fire)));
    var s1 := Step(BothBegun(fire), Read(0), c, grace);
    assert s1.hands == [read, BothBegun(fire).hands[1]];
    assert Step(s1, Read(1), c, grace).hands == [read, read];
  }

  /** Two daemons that begin together, which their lock on the socket comes too late to prevent, both catch up. */
  lemma TogetherTwice(c: Calendar, fire: int, grace: int)
    requires Honest(c) && c.fires(fire) && Fires(c, fire - 1, fire + 1) == {fire} && grace > 0
    ensures RunAll(State(fire - 1, [], [], []), [Other, Tick(2), Begin, Begin], c, grace) == BothBegun(fire)
    ensures var r := RunAll(BothBegun(fire), [Read(0), Read(1), Run(0), Run(1)], c, grace);
            |r.caught| == 2 && r.caught[0].fire == r.caught[1].fire == fire
  {
    BothBegin(c, fire, grace);
    RunFour(BothBegun(fire), Read(0), Read(1), Run(0), Run(1), c, grace);
    BothRead(c, fire, grace);
    BothRun(c, fire, grace);
  }

  lemma BothBegin(c: Calendar, fire: int, grace: int)
    ensures RunAll(State(fire - 1, [], [], []), [Other, Tick(2), Begin, Begin], c, grace) == BothBegun(fire)
  {
    RunFour(State(fire - 1, [], [], []), Other, Tick(2), Begin, Begin, c, grace);
  }

  lemma BothRun(c: Calendar, fire: int, grace: int)
    ensures var read := Some(Hand(fire + 1, 1, Some(fire)));
            var r := Do(Do(BothBegun(fire).(hands := [read, read]), Run(0), c, grace), Run(1), c, grace);
            |r.caught| == 2 && r.caught[0].fire == r.caught[1].fire == fire
  {
  }
}
