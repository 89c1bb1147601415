/**
 Triggering: the dependency gate, the overlap check and the row every trigger
 leaves behind. First what one trigger decides, then the executor's methods,
 then any number of triggers, scheduled or asked for, taking their steps in
 any order.
 */
module Gating {
  import opened Common
  import opened Checks
  import opened Lifecycle

  datatype Requirement = Requirement(kind: string, target: string, required: bool)

  datatype CheckResult = CheckResult(kind: string, target: string, state: CheckState)

  /** Any policy the database holds besides the two named ones fails fast. */
  datatype GatingPolicy = FailFast | SkipRun | PauseSchedule

  datatype Task = Task(id: int, requirements: seq<Requirement>, gating: GatingPolicy, skipOverlap: bool,
                       enabled: bool, paused: bool, pausedFor: seq<CheckResult>)

  datatype Trigger = Cron | Manual | Retry

  /** Why a row was suppressed. */
  datatype Reason = NoReason | Dependencies(failing: seq<CheckResult>) | InFlight(n: nat)

  /** A row of the executions table; preflight is its outcome column, checks the results attached to it. */
  datatype Row = Row(task: int, trigger: Trigger, status: Status, preflight: string, reason: Reason,
                     checks: seq<CheckResult>)

  // ---- what one trigger decides ------------------------------------------------------

  /** The results that stop the run: required, and in a state that gates. */
  function Failing(reqs: seq<Requirement>, results: seq<CheckResult>): seq<CheckResult>
    requires |reqs| == |results|
  {
    if reqs == [] then []
    else
      var n := |reqs| - 1;
      Failing(reqs[..n], results[..n]) + if reqs[n].required && Gates(results[n].state) then [results[n]] else []
  }

  /** The result at i stops the run. */
  predicate Stops(reqs: seq<Requirement>, results: seq<CheckResult>, i: nat)
    requires i < |reqs| == |results|
  {
    reqs[i].required && (results[i].state == NeedsLogin || results[i].state == Misconfigured)
  }

  /**
   Exactly the required dependencies that need a person stop a run, in their
   order; nothing optional, unavailable or unknown does. idx are their places.
   */
  lemma {:induction false} FailingMeaning(reqs: seq<Requirement>, results: seq<CheckResult>) returns (idx: seq<nat>)
    requires |reqs| == |results|
    ensures Picks(results, Failing(reqs, results), idx)
    ensures forall i: nat {:trigger i in idx} | i < |reqs| :: i in idx <==>
              reqs[i].required && (results[i].state == NeedsLogin || results[i].state == Misconfigured)
  {
    idx := [];
    if reqs != [] {
      var n := |reqs| - 1;
      var before := FailingMeaning(reqs[..n], results[..n]);
      idx := Placed(before, n, Stops(reqs, results, n));
      PicksMore(results[..n], Failing(reqs[..n], results[..n]), before, results[n], Stops(reqs, results, n));
      PlacedHas(before, n, Stops(reqs, results, n));
      BackTogether(results);
      forall i: nat | i < |reqs| ensures i in idx <==> Stops(reqs, results, i) {
        if i < n {
          assert i in before <==> Stops(reqs[..n], results[..n], i);
        }
      }
    }
  }

  lemma {:induction false} FailsIff(reqs: seq<Requirement>, results: seq<CheckResult>)
    requires |reqs| == |results|
    ensures Failing(reqs, results) != [] <==>
              exists i :: 0 <= i < |reqs| && reqs[i].required && (results[i].state == NeedsLogin || results[i].state == Misconfigured)
  {
    if reqs != [] {
      var n := |reqs| - 1;
      FailsIff(reqs[..n], results[..n]);
      if i :| 0 <= i < |reqs| && reqs[i].required && Gates(results[i].state) {
        if i < n {
          assert reqs[..n][i].required && Gates(results[..n][i].state);
        }
      }
    }
  }

  predicate IsInFlight(r: Row) {
    r.status.Pending? || r.status.Running?
  }

  /** How many of a task's rows are still in flight. */
  function InFlightOf(rows: seq<Row>, task: int): nat {
    if rows == [] then 0
    else
      var last := rows[|rows| - 1];
      InFlightOf(rows[..|rows| - 1], task) + if last.task == task && IsInFlight(last) then 1 else 0
  }

  /** The places of the task's rows that are pending or running. */
  ghost function Places(rows: seq<Row>, task: int): set<nat> {
    set i | 0 <= i < |rows| && rows[i].task == task && (rows[i].status == Pending || rows[i].status == Running)
  }

  lemma PlacesLast(rows: seq<Row>, task: int)
    requires rows != []
    ensures var n := |rows| - 1; var last := rows[n];
            Places(rows, task) == Places(rows[..n], task) +
              if last.task == task && (last.status == Pending || last.status == Running) then {n} else {}
  {
    var n := |rows| - 1;
    assert forall i | 0 <= i < n :: rows[..n][i] == rows[i];
  }

  lemma {:induction false} InFlightIs(rows: seq<Row>, task: int)
    ensures InFlightOf(rows, task) == |Places(rows, task)|
  {
    if rows == [] {
      assert Places(rows, task) == {};
    } else {
      InFlightIs(rows[..|rows| - 1], task);
      PlacesLast(rows, task);
    }
  }

  datatype Verdict = Proceed | Overlapping(n: nat) | Failed(failing: seq<CheckResult>)

  /** The gate comes first, the overlap check second. */
  function Judge(t: Task, failing: seq<CheckResult>, inFlight: nat): Verdict {
    if failing != [] then Failed(failing)
    else if t.skipOverlap && inFlight > 0 then Overlapping(inFlight)
    else Proceed
  }

  /** The row a verdict leaves behind. A run skipped by policy keeps no check results. */
  function RowFor(t: Task, trigger: Trigger, v: Verdict): Row {
    match v
    case Proceed => Row(t.id, trigger, Pending, "ok", NoReason, [])
    case Overlapping(n) => Row(t.id, trigger, Skipped, "skipped", InFlight(n), [])
    case Failed(failing) =>
      if t.gating.SkipRun? then Row(t.id, trigger, Skipped, "skipped", Dependencies(failing), [])
      else Row(t.id, trigger, Blocked, "blocked", Dependencies(failing), failing)
  }

  /** The check results saved with the row, one by one, between its two writes. */
  function Kept(t: Task, v: Verdict): seq<CheckResult> {
    if v.Failed? && !t.gating.SkipRun? then v.failing else []
  }

  /** A suppressed row on its way: created like any other, with the results saved so far. */
  function HalfRow(t: Task, trigger: Trigger, v: Verdict, saved: nat): Row
    requires saved <= |Kept(t, v)|
  {
    RowFor(t, trigger, Proceed).(checks := Kept(t, v)[..saved])
  }

  predicate Pauses(t: Task, v: Verdict) {
    v.Failed? && t.gating.PauseSchedule?
  }

  function WithPause(tasks: map<int, Task>, id: int, failing: seq<CheckResult>): map<int, Task> {
    if id in tasks then tasks[id := tasks[id].(paused := true, pausedFor := failing)] else tasks
  }

  lemma FailingMore(reqs: seq<Requirement>, results: seq<CheckResult>, i: nat)
    requires |reqs| == |results| && i < |reqs|
    ensures Failing(reqs[..i + 1], results[..i + 1]) ==
              Failing(reqs[..i], results[..i]) + if reqs[i].required && Gates(results[i].state) then [results[i]] else []
  {
    assert reqs[..i + 1][..i] == reqs[..i] && results[..i + 1][..i] == results[..i];
  }

  // ---- the executor's methods ------------------------------------------------------------

  /** Probes every requirement in order; results holds what the registry answers for each. */
  method CheckRequirements(reqs: seq<Requirement>, results: seq<CheckResult>) returns (all: seq<CheckResult>, failing: seq<CheckResult>)
    requires |reqs| == |results|
    ensures all == results
    ensures failing == Failing(reqs, results)
  {
    all, failing := [], [];
    for i := 0 to |reqs|
      invariant all == results[..i]
      invariant failing == Failing(reqs[..i], results[..i])
    {
      all := all + [results[i]];
      FailingMore(reqs, results, i);
      if reqs[i].required && Gates(results[i].state) {
        failing := failing + [results[i]];
      }
    }
    assert reqs[..|reqs|] == reqs && results[..|reqs|] == results;
  }

  /** The executor with the tables it writes; launched lists the rows handed to a background run. */
  class Executor {
    var tasks: map<int, Task>
    var rows: seq<Row>
    var launched: seq<nat>
    var preflight: bool

    constructor (tasks: map<int, Task>, preflight: bool)
      ensures this.tasks == tasks && rows == [] && launched == [] && this.preflight == preflight
    {
      this.tasks, rows, launched, this.preflight := tasks, [], [], preflight;
    }

    method CreateExecution(t: Task, trigger: Trigger) returns (id: nat)
      modifies `rows
      ensures id == |old(rows)| && rows == old(rows) + [RowFor(t, trigger, Proceed)]
    {
      id := |rows|;
      rows := rows + [Row(t.id, trigger, Pending, "ok", NoReason, [])];
    }

    /** The terminal write: the row's status, outcome and message. */
    method FinishExecution(id: nat, status: Status, preflight: string, reason: Reason)
      requires id < |rows|
      modifies `rows
      ensures rows == old(rows)[id := old(rows)[id].(status := status, preflight := preflight, reason := reason)]
    {
      rows := rows[id := rows[id].(status := status, preflight := preflight, reason := reason)];
    }

    method RecordSkipped(t: Task, trigger: Trigger, reason: Reason) returns (id: nat)
      modifies `rows
      ensures id == |old(rows)| && rows == old(rows) + [Row(t.id, trigger, Skipped, "skipped", reason, [])]
    {
      id := CreateExecution(t, trigger);
      FinishExecution(id, Skipped, "skipped", reason);
    }

    method RecordBlocked(t: Task, trigger: Trigger, failing: seq<CheckResult>) returns (id: nat)
      modifies `rows
      ensures id == |old(rows)|
      ensures rows == old(rows) + [Row(t.id, trigger, Blocked, "blocked", Dependencies(failing), failing)]
    {
      id := CreateExecution(t, trigger);
      ghost var created := rows;
      for i := 0 to |failing|
        invariant rows == created[id := created[id].(checks := failing[..i])]
      {
        rows := rows[id := rows[id].(checks := rows[id].checks + [failing[i]])];
        assert failing[..i] + [failing[i]] == failing[..i + 1];
      }
      assert failing[..|failing|] == failing;
      FinishExecution(id, Blocked, "blocked", Dependencies(failing));
    }

    method SetTaskPaused(id: int, failing: seq<CheckResult>)
      modifies `tasks
      ensures tasks == WithPause(old(tasks), id, failing)
    {
      if id in tasks {
        tasks := tasks[id := tasks[id].(paused := true, pausedFor := failing)];
      }
    }

    /** Without an evaluator, or without requirements, nothing is asked. */
    function Asked(t: Task, results: seq<CheckResult>): (r: seq<CheckResult>)
      reads this
      requires |results| == |t.requirements|
    {
      if preflight then Failing(t.requirements, results) else []
    }

    method Gate(t: Task, trigger: Trigger, results: seq<CheckResult>) returns (suppressed: Option<nat>)
      requires |results| == |t.requirements|
      modifies `rows, `tasks
      ensures suppressed.Some? <==> old(Asked(t, results)) != []
      ensures suppressed.None? ==> rows == old(rows) && tasks == old(tasks)
      ensures suppressed.Some? ==>
                && suppressed.value == |old(rows)|
                && rows == old(rows) + [RowFor(t, trigger, Failed(Failing(t.requirements, results)))]
                && tasks == if t.gating.PauseSchedule? then WithPause(old(tasks), t.id, Failing(t.requirements, results))
                            else old(tasks)
    {
      if !preflight || |t.requirements| == 0 {
        return None;
      }
      var all, failing := CheckRequirements(t.requirements, results);
      if |failing| == 0 {
        return None;
      }
      var id;
      match t.gating {
        case SkipRun =>
          id := RecordSkipped(t, trigger, Dependencies(failing));
        case PauseSchedule =>
          id := RecordBlocked(t, trigger, failing);
          SetTaskPaused(t.id, failing);
        case FailFast =>
          id := RecordBlocked(t, trigger, failing);
      }
      suppressed := Some(id);
    }

    method RunningExecutionsForTask(task: int) returns (n: nat)
      ensures n == InFlightOf(rows, task)
      ensures n == |set i | 0 <= i < |rows| && rows[i].task == task && (rows[i].status == Pending || rows[i].status == Running)|
    {
      n := 0;
      for i := 0 to |rows|
        invariant n == InFlightOf(rows[..i], task)
      {
        assert rows[..i + 1][..i] == rows[..i];
        if rows[i].task == task && (rows[i].status.Pending? || rows[i].status.Running?) {
          n := n + 1;
        }
      }
      assert rows[..|rows|] == rows;
      InFlightIs(rows, task);
      assert Places(rows, task) == set i | 0 <= i < |rows| && rows[i].task == task && (rows[i].status == Pending || rows[i].status == Running);
    }

    /**
     One row, whatever happens: the verdict's row is appended, the run is started
     only on Proceed, and the task is paused only by its own policy.
     */
    method Trigger(t: Task, trigger: Trigger, results: seq<CheckResult>) returns (id: nat)
      requires |results| == |t.requirements|
      modifies this
      ensures var v := Judge(t, old(Asked(t, results)), InFlightOf(old(rows), t.id));
              && id == |old(rows)| && rows == old(rows) + [RowFor(t, trigger, v)]
              && launched == old(launched) + (if v.Proceed? then [id] else [])
              && tasks == if Pauses(t, v) then WithPause(old(tasks), t.id, v.failing) else old(tasks)
      ensures var failing := old(Asked(t, results));
              var running := set i | 0 <= i < |old(rows)| && old(rows)[i].task == t.id && (old(rows)[i].status == Pending || old(rows)[i].status == Running);
              rows[id] ==
                if failing != [] then
                  (if t.gating == SkipRun then Row(t.id, trigger, Skipped, "skipped", Dependencies(failing), [])
                   else Row(t.id, trigger, Blocked, "blocked", Dependencies(failing), failing))
                else if t.skipOverlap && running != {} then Row(t.id, trigger, Skipped, "skipped", InFlight(|running|), [])
                else Row(t.id, trigger, Pending, "ok", NoReason, [])
    {
      InFlightIs(rows, t.id);
      assert Places(rows, t.id) == set i | 0 <= i < |rows| && rows[i].task == t.id && (rows[i].status == Pending || rows[i].status == Running);
      var suppressed := Gate(t, trigger, results);
      if suppressed.Some? {
        return suppressed.value;
      }
      if t.skipOverlap {
        var n := RunningExecutionsForTask(t.id);
        if n > 0 {
          id := RecordSkipped(t, trigger, InFlight(n));
          return;
        }
      }
      id := CreateExecution(t, trigger);
      launched := launched + [id];
    }
  }

  // ---- triggers taking their steps in any order --------------------------------------------

  /**
   How far one trigger has come. A suppressed one has created its row and has
   yet to save its check results and to write the row's end; a settled one is
   through with its row.
   */
  datatype Phase =
    | Asking | Passed | Clear
    | Halfway(row: nat, verdict: Verdict, saved: nat)
    | Pausing(row: nat, failing: seq<CheckResult>)
    | Settled(row: nat)

  /** One trigger: the copy of the task it read, what its gate saw, and how many runs its overlap check found. */
  datatype Attempt = Attempt(task: Task, trigger: Trigger, phase: Phase, results: seq<CheckResult>, busy: nat)

  datatype World = World(tasks: map<int, Task>, rows: seq<Row>, launched: set<nat>, attempts: seq<Attempt>)

  datatype Action =
    | Due(id: int)                                  // a timer or the catch-up reads the task
    | Ask(id: int, trigger: Trigger)                // a user asks for a run, paused or not
    | Check(k: nat, results: seq<CheckResult>)
    | SaveCheck(k: nat)
    | Finish(k: nat)
    | Pause(k: nat)
    | CheckOverlap(k: nat)
    | Launch(k: nat)
    | Advance(row: nat, status: Status)            // the background run moves its row
    | Resume(id: int)
    | PauseByHand(id: int)
    | Edit(task: Task)                              // a whole task written back, its paused column included

  predicate InPhase(w: World, k: nat, p: Phase) {
    k < |w.attempts| && w.attempts[k].phase == p
  }

  predicate IsHalfway(w: World, k: nat) {
    k < |w.attempts| && w.attempts[k].phase.Halfway? && w.attempts[k].phase.row < |w.rows|
  }

  predicate Enabled(w: World, a: Action) {
    match a
    case Due(id) => id in w.tasks && w.tasks[id].enabled && !w.tasks[id].paused
    case Ask(id, trigger) => id in w.tasks && !trigger.Cron?
    case Check(k, results) => InPhase(w, k, Asking) && |results| == |w.attempts[k].task.requirements|
    case SaveCheck(k) => IsHalfway(w, k) && w.attempts[k].phase.saved < |Kept(w.attempts[k].task, w.attempts[k].phase.verdict)|
    case Finish(k) => IsHalfway(w, k) && w.attempts[k].phase.saved == |Kept(w.attempts[k].task, w.attempts[k].phase.verdict)|
    case Pause(k) => k < |w.attempts| && w.attempts[k].phase.Pausing?
    case CheckOverlap(k) => InPhase(w, k, Passed)
    case Launch(k) => InPhase(w, k, Clear)
    case Advance(row, status) =>
      row in w.launched && row < |w.rows| && IsInFlight(w.rows[row]) && !status.Pending? && !status.Blocked? && !status.Skipped?
    case Resume(id) => id in w.tasks
    case PauseByHand(id) => id in w.tasks
    case Edit(task) => task.id in w.tasks
  }

  function NewAttempt(t: Task, trigger: Trigger): Attempt {
    Attempt(t, trigger, Asking, [], 0)
  }

  function SetAttempt(w: World, k: nat, at: Attempt): World
    requires k < |w.attempts|
  {
    w.(attempts := w.attempts[k := at])
  }

  /** Attempt k creates its row, pending like every row that is created. */
  function Opened(w: World, k: nat, at: Attempt): World
    requires k < |w.attempts|
  {
    SetAttempt(w, k, at).(rows := w.rows + [RowFor(at.task, at.trigger, Proceed)])
  }

  function Checked(w: World, k: nat, results: seq<CheckResult>): World
    requires k < |w.attempts| && |results| == |w.attempts[k].task.requirements|
  {
    var at := w.attempts[k].(results := results);
    var failing := Failing(at.task.requirements, results);
    if failing == [] then SetAttempt(w, k, at.(phase := Passed))
    else Opened(w, k, at.(phase := Halfway(|w.rows|, Failed(failing), 0)))
  }

  function OverlapChecked(w: World, k: nat): World
    requires k < |w.attempts|
  {
    var at := w.attempts[k];
    var n := InFlightOf(w.rows, at.task.id);
    if at.task.skipOverlap && n > 0 then Opened(w, k, at.(phase := Halfway(|w.rows|, Overlapping(n), 0), busy := n))
    else SetAttempt(w, k, at.(phase := Clear, busy := n))
  }

  function CheckSaved(w: World, k: nat): World
    requires Enabled(w, SaveCheck(k))
  {
    var at := w.attempts[k];
    var g := at.phase;
    SetAttempt(w, k, at.(phase := g.(saved := g.saved + 1)))
      .(rows := w.rows[g.row := w.rows[g.row].(checks := w.rows[g.row].checks + [Kept(at.task, g.verdict)[g.saved]])])
  }

  /** The terminal write of a suppressed row; then perhaps the pause. */
  function Finished(w: World, k: nat): World
    requires Enabled(w, Finish(k))
  {
    var at := w.attempts[k];
    var g := at.phase;
    var end := RowFor(at.task, at.trigger, g.verdict);
    SetAttempt(w, k, at.(phase := if Pauses(at.task, g.verdict) then Pausing(g.row, g.verdict.failing) else Settled(g.row)))
      .(rows := w.rows[g.row := w.rows[g.row].(status := end.status, preflight := end.preflight, reason := end.reason)])
  }

  function Launched(w: World, k: nat): World
    requires k < |w.attempts|
  {
    Opened(w, k, w.attempts[k].(phase := Settled(|w.rows|))).(launched := w.launched + {|w.rows|})
  }

  function Step(w: World, a: Action): World
    requires Enabled(w, a)
  {
    match a
    case Due(id) => w.(attempts := w.attempts + [NewAttempt(w.tasks[id], Cron)])
    case Ask(id, trigger) => w.(attempts := w.attempts + [NewAttempt(w.tasks[id], trigger)])
    case Check(k, results) => Checked(w, k, results)
    case SaveCheck(k) => CheckSaved(w, k)
    case Finish(k) => Finished(w, k)
    case Pause(k) =>
      var at := w.attempts[k];
      SetAttempt(w, k, at.(phase := Settled(at.phase.row))).(tasks := WithPause(w.tasks, at.task.id, at.phase.failing))
    case CheckOverlap(k) => OverlapChecked(w, k)
    case Launch(k) => Launched(w, k)
    case Advance(row, status) => w.(rows := w.rows[row := w.rows[row].(status := status)])
    case Resume(id) => w.(tasks := w.tasks[id := w.tasks[id].(paused := false, pausedFor := [])])
    case PauseByHand(id) => w.(tasks := WithPause(w.tasks, id, []))
    case Edit(task) => w.(tasks := w.tasks[task.id := task])
  }

  /** A step that cannot be taken is passed over. */
  function Do(w: World, a: Action): World {
    if Enabled(w, a) then Step(w, a) else w
  }

  function Run(w: World, actions: seq<Action>): World
    decreases |actions|
  {
    if actions == [] then w else Run(Do(w, actions[0]), actions[1..])
  }

  predicate Initial(w: World) {
    w.rows == [] && w.launched == {} && w.attempts == []
  }

  // ---- every trigger leaves exactly one row, and the right one -------------------------------

  /** The row an attempt has created, if any. */
  function RowOf(at: Attempt): Option<nat> {
    match at.phase
    case Settled(row) => Some(row)
    case Pausing(row, _) => Some(row)
    case Halfway(row, _, _) => Some(row)
    case _ => None
  }

  /** What the attempt saw decides its row; only the status of a launched row moves on. */
  predicate Justified(w: World, at: Attempt, row: nat) {
    && row < |w.rows| && |at.results| == |at.task.requirements|
    && var v := Judge(at.task, Failing(at.task.requirements, at.results), at.busy);
       && w.rows[row].(status := Pending) == RowFor(at.task, at.trigger, v).(status := Pending)
       && (row in w.launched <==> v.Proceed?)
       && (if v.Proceed? then !w.rows[row].status.Blocked? && !w.rows[row].status.Skipped?
           else w.rows[row].status == RowFor(at.task, at.trigger, v).status)
  }

  /** What a row on its way to suppression looks like. */
  predicate LooksHalfway(w: World, at: Attempt, row: nat, v: Verdict, saved: nat) {
    && row < |w.rows| && row !in w.launched && |at.results| == |at.task.requirements|
    && v == Judge(at.task, Failing(at.task.requirements, at.results), at.busy) && !v.Proceed?
    && saved <= |Kept(at.task, v)| && w.rows[row] == HalfRow(at.task, at.trigger, v, saved)
  }

  predicate Sound(w: World, at: Attempt) {
    match at.phase
    case Halfway(row, v, saved) => LooksHalfway(w, at, row, v, saved)
    case Asking => at.busy == 0
    case Passed => at.busy == 0 && |at.results| == |at.task.requirements| && Failing(at.task.requirements, at.results) == []
    case Clear => !(at.task.skipOverlap && at.busy > 0) && |at.results| == |at.task.requirements| && Failing(at.task.requirements, at.results) == []
    case Pausing(row, failing) =>
      Justified(w, at, row) && at.task.gating.PauseSchedule? && failing == Failing(at.task.requirements, at.results) && failing != []
    case Settled(row) => Justified(w, at, row)
  }

  predicate Owner(w: World, k: nat, r: nat) {
    k < |w.attempts| && RowOf(w.attempts[k]) == Some(r)
  }

  ghost predicate Owned(w: World, r: nat) {
    exists k :: Owner(w, k, r)
  }

  ghost predicate Inv(w: World) {
    && (forall k | 0 <= k < |w.attempts| :: Sound(w, w.attempts[k]))
    && (forall r: nat | r < |w.rows| :: Owned(w, r))
    && (forall j, k, r | Owner(w, j, r) && Owner(w, k, r) :: j == k)
    && (forall r | r in w.launched :: r < |w.rows|)
  }

  /** Steps that leave every attempt's row alone keep the owners. */
  lemma SameOwners(w: World, t: World)
    requires Inv(w) && |t.rows| == |w.rows| && t.launched == w.launched && |t.attempts| >= |w.attempts|
    requires forall k: nat | k < |t.attempts| :: RowOf(t.attempts[k]) == (if k < |w.attempts| then RowOf(w.attempts[k]) else None)
    requires forall k: nat | k < |t.attempts| :: Sound(t, t.attempts[k])
    ensures Inv(t)
  {
    forall r: nat | r < |t.rows| ensures Owned(t, r) {
      assert Owned(w, r);
      var k :| Owner(w, k, r);
      assert Owner(t, k, r);
    }
    forall j, k, r | Owner(t, j, r) && Owner(t, k, r) ensures j == k {
      assert Owner(w, j, r) && Owner(w, k, r);
    }
  }

  /** Moving one attempt without a new row keeps every row's owner. */
  lemma MoveKeeps(w: World, k: nat, at: Attempt, tasks: map<int, Task>)
    requires Inv(w) && k < |w.attempts| && RowOf(at) == RowOf(w.attempts[k]) && Sound(w, at)
    ensures Inv(SetAttempt(w, k, at).(tasks := tasks))
  {
    var t := SetAttempt(w, k, at).(tasks := tasks);
    forall j: nat | j < |t.attempts| ensures Sound(t, t.attempts[j]) {
      assert Sound(w, w.attempts[j]);
    }
    SameOwners(w, t);
  }

  /** An attempt that creates a row owns it alone. */
  lemma OpenKeeps(w: World, k: nat, at: Attempt, t: World)
    requires Inv(w) && k < |w.attempts| && RowOf(w.attempts[k]).None? && RowOf(at) == Some(|w.rows|)
    requires t == Opened(w, k, at) || t == Opened(w, k, at).(launched := w.launched + {|w.rows|})
    requires Sound(t, at)
    ensures Inv(t)
  {
    forall j: nat | j < |w.attempts| ensures Sound(t, t.attempts[j]) && !Owner(w, j, |w.rows|) {
      assert Sound(w, w.attempts[j]);
    }
    forall j: nat, r: nat ensures Owner(t, j, r) <==> if j == k then r == |w.rows| else Owner(w, j, r) {
    }
    forall r: nat | r < |t.rows| ensures Owned(t, r) {
      if r < |w.rows| {
        assert Owned(w, r);
        var j :| Owner(w, j, r);
        assert Owner(t, j, r);
      } else {
        assert Owner(t, k, r);
      }
    }
  }

  /** An attempt that writes its own row disturbs nobody else's. */
  lemma TouchKeeps(w: World, k: nat, at: Attempt, row: nat, r: Row)
    requires Inv(w) && Owner(w, k, row) && RowOf(at) == Some(row) && row < |w.rows|
    requires Sound(SetAttempt(w, k, at).(rows := w.rows[row := r]), at)
    ensures Inv(SetAttempt(w, k, at).(rows := w.rows[row := r]))
  {
    var t := SetAttempt(w, k, at).(rows := w.rows[row := r]);
    forall j: nat | j < |t.attempts| ensures Sound(t, t.attempts[j]) {
      if j != k {
        assert Sound(w, w.attempts[j]);
        assert Owner(w, j, row) ==> j == k;
      }
    }
    SameOwners(w, t);
  }

  lemma SaveKeeps(w: World, k: nat)
    requires Inv(w) && Enabled(w, SaveCheck(k))
    ensures Inv(CheckSaved(w, k))
  {
    var at := w.attempts[k];
    var g := at.phase;
    assert Sound(w, at) && Owner(w, k, g.row);
    var kept := Kept(at.task, g.verdict);
    assert kept[..g.saved + 1] == kept[..g.saved] + [kept[g.saved]];
    TouchKeeps(w, k, at.(phase := g.(saved := g.saved + 1)), g.row,
               w.rows[g.row].(checks := w.rows[g.row].checks + [kept[g.saved]]));
  }

  lemma FinishKeeps(w: World, k: nat)
    requires Inv(w) && Enabled(w, Finish(k))
    ensures Inv(Finished(w, k))
  {
    var at := w.attempts[k];
    var g := at.phase;
    assert Sound(w, at) && Owner(w, k, g.row);
    var kept, end := Kept(at.task, g.verdict), RowFor(at.task, at.trigger, g.verdict);
    assert kept[..g.saved] == kept;
    TouchKeeps(w, k, at.(phase := if Pauses(at.task, g.verdict) then Pausing(g.row, g.verdict.failing) else Settled(g.row)), g.row,
               w.rows[g.row].(status := end.status, preflight := end.preflight, reason := end.reason));
  }

  lemma ArriveKeeps(w: World, t: Task, trigger: Trigger)
    requires Inv(w)
    ensures Inv(w.(attempts := w.attempts + [NewAttempt(t, trigger)]))
  {
    var u := w.(attempts := w.attempts + [NewAttempt(t, trigger)]);
    forall j: nat | j < |u.attempts| ensures Sound(u, u.attempts[j]) {
      assert j < |w.attempts| ==> Sound(w, w.attempts[j]);
    }
    SameOwners(w, u);
  }

  lemma AdvanceKeeps(w: World, row: nat, status: Status)
    requires Inv(w) && Enabled(w, Advance(row, status))
    ensures Inv(Step(w, Advance(row, status)))
  {
    var t := Step(w, Advance(row, status));
    forall k: nat | k < |t.attempts| ensures Sound(t, t.attempts[k]) {
      assert Sound(w, w.attempts[k]);
    }
    SameOwners(w, t);
  }

  lemma TasksDoNotMatter(w: World, tasks: map<int, Task>)
    requires Inv(w)
    ensures Inv(w.(tasks := tasks))
  {
    forall k: nat | k < |w.attempts| ensures Sound(w.(tasks := tasks), w.attempts[k]) {
      assert Sound(w, w.attempts[k]);
    }
    SameOwners(w, w.(tasks := tasks));
  }

  lemma StepKeeps(w: World, a: Action)
    requires Inv(w) && Enabled(w, a)
    ensures Inv(Step(w, a))
  {
    match a {
      case Due(id) => ArriveKeeps(w, w.tasks[id], Cron);
      case Ask(id, trigger) => ArriveKeeps(w, w.tasks[id], trigger);
      case Check(k, results) =>
        var at := w.attempts[k].(results := results);
        var failing := Failing(at.task.requirements, results);
        assert Sound(w, w.attempts[k]);
        if failing == [] {
          MoveKeeps(w, k, at.(phase := Passed), w.tasks);
        } else {
          OpenKeeps(w, k, at.(phase := Halfway(|w.rows|, Failed(failing), 0)), Step(w, a));
        }
      case SaveCheck(k) => SaveKeeps(w, k);
      case Finish(k) => FinishKeeps(w, k);
      case Pause(k) =>
        var at := w.attempts[k];
        assert Sound(w, at);
        MoveKeeps(w, k, at.(phase := Settled(at.phase.row)), WithPause(w.tasks, at.task.id, at.phase.failing));
      case CheckOverlap(k) =>
        var at := w.attempts[k];
        var n := InFlightOf(w.rows, at.task.id);
        assert Sound(w, at);
        if at.task.skipOverlap && n > 0 {
          OpenKeeps(w, k, at.(phase := Halfway(|w.rows|, Overlapping(n), 0), busy := n), Step(w, a));
        } else {
          MoveKeeps(w, k, at.(phase := Clear, busy := n), w.tasks);
        }
      case Launch(k) =>
        var at := w.attempts[k];
        assert Sound(w, at);
        OpenKeeps(w, k, at.(phase := Settled(|w.rows|)), Step(w, a));
      case Advance(row, status) => AdvanceKeeps(w, row, status);
      case Resume(_) => TasksDoNotMatter(w, Step(w, a).tasks);
      case PauseByHand(_) => TasksDoNotMatter(w, Step(w, a).tasks);
      case Edit(_) => TasksDoNotMatter(w, Step(w, a).tasks);
    }
  }

  lemma {:induction false} RunKeeps(w: World, actions: seq<Action>)
    requires Inv(w)
    ensures Inv(Run(w, actions))
    decreases |actions|
  {
    if actions != [] {
      if Enabled(w, actions[0]) {
        StepKeeps(w, actions[0]);
        RunKeeps(Step(w, actions[0]), actions[1..]);
      } else {
        RunKeeps(w, actions[1..]);
      }
    }
  }

  /** Every row belongs to exactly one trigger, and no trigger leaves two. */
  lemma OneRowPerTrigger(w: World, actions: seq<Action>, r: nat)
    requires Initial(w) && r < |Run(w, actions).rows|
    ensures exists k :: Owner(Run(w, actions), k, r) && forall j | Owner(Run(w, actions), j, r) :: j == k
  {
    RunKeeps(w, actions);
    assert Owned(Run(w, actions), r);
    var k :| Owner(Run(w, actions), k, r);
  }

  /** A required dependency needs a person. */
  predicate Broken(at: Attempt)
    requires |at.results| == |at.task.requirements|
  {
    exists i :: 0 <= i < |at.results| && at.task.requirements[i].required &&
                (at.results[i].state == NeedsLogin || at.results[i].state == Misconfigured)
  }

  /** The trigger is through with its row. */
  predicate IsSettled(at: Attempt) {
    at.phase.Settled? || at.phase.Pausing?
  }

  /**
   A settled trigger's row: with a broken required dependency it is blocked, or
   skipped under that policy, and is never run; otherwise the only thing that
   can suppress the run is an overlap, and the row is run.
   */
  lemma GatedExactly(w: World, actions: seq<Action>, k: nat)
    requires Initial(w) && k < |Run(w, actions).attempts| && IsSettled(Run(w, actions).attempts[k])
    ensures var u := Run(w, actions); var at := u.attempts[k]; var r := RowOf(at).value;
            && r < |u.rows| && u.rows[r].task == at.task.id && u.rows[r].trigger == at.trigger
            && |at.results| == |at.task.requirements|
            && var failing := Failing(at.task.requirements, at.results);
            && (Broken(at) ==> r !in u.launched && u.rows[r].reason == Dependencies(failing)
                               && (if at.task.gating == SkipRun then u.rows[r].status == Skipped && u.rows[r].checks == []
                                   else u.rows[r].status == Blocked && u.rows[r].checks == failing))
            && (!Broken(at) ==> !u.rows[r].reason.Dependencies? && !u.rows[r].status.Blocked?)
            && (!Broken(at) ==> (r in u.launched <==> !(at.task.skipOverlap && at.busy > 0)))
            && (!Broken(at) && r !in u.launched ==> u.rows[r].status == Skipped && u.rows[r].reason == InFlight(at.busy) && u.rows[r].checks == [])
            && (r in u.launched ==> u.rows[r].status != Blocked && u.rows[r].status != Skipped)
  {
    RunKeeps(w, actions);
    var u := Run(w, actions);
    var at := u.attempts[k];
    assert Sound(u, at);
    FailsIff(at.task.requirements, at.results);
  }

  // ---- a paused schedule stays quiet ------------------------------------------------------------

  /** The only ways out of a pause: resuming, and writing back a copy of the task that was not paused. */
  predicate Unpauses(a: Action, id: int) {
    a == Resume(id) || (a.Edit? && a.task.id == id && !a.task.paused)
  }

  /** Every scheduled trigger of the task from attempt n on. */
  predicate Quiet(w: World, id: int, n: nat) {
    forall k | n <= k < |w.attempts| :: w.attempts[k].trigger.Cron? ==> w.attempts[k].task.id != id
  }

  predicate OwnIds(w: World) {
    forall id | id in w.tasks :: w.tasks[id].id == id
  }

  lemma StepStaysQuiet(w: World, a: Action, id: int, n: nat)
    requires Enabled(w, a) && OwnIds(w) && id in w.tasks && w.tasks[id].paused && n <= |w.attempts| && Quiet(w, id, n)
    requires !Unpauses(a, id)
    ensures var t := Step(w, a);
            OwnIds(t) && id in t.tasks && t.tasks[id].paused && n <= |t.attempts| && Quiet(t, id, n)
  {
  }

  lemma {:induction false} PausedFrom(w: World, actions: seq<Action>, id: int, n: nat)
    requires OwnIds(w) && id in w.tasks && w.tasks[id].paused && n <= |w.attempts| && Quiet(w, id, n)
    requires forall a | a in actions :: !Unpauses(a, id)
    ensures Quiet(Run(w, actions), id, n)
    decreases |actions|
  {
    if actions != [] {
      if Enabled(w, actions[0]) {
        assert actions[0] in actions;
        StepStaysQuiet(w, actions[0], id, n);
        PausedFrom(Step(w, actions[0]), actions[1..], id, n);
      } else {
        PausedFrom(w, actions[1..], id, n);
      }
    }
  }

  lemma QuietRows(w: World, id: int, n: nat, r: nat)
    requires Inv(w) && Quiet(w, id, n) && r < |w.rows| && w.rows[r].task == id && w.rows[r].trigger.Cron?
    ensures exists j: nat :: j < n && Owner(w, j, r)
  {
    assert Owned(w, r);
    var j: nat :| Owner(w, j, r);
    assert Sound(w, w.attempts[j]);
  }

  /**
   Once the pause_schedule policy has paused a task, every row a timer or a
   catch-up creates for it comes from a trigger that had read the task before,
   until the pause is taken back.
   */
  lemma PauseHolds(w: World, before: seq<Action>, k: nat, after: seq<Action>, r: nat)
    requires Initial(w) && OwnIds(w)
    requires Enabled(Run(w, before), Pause(k))
    requires var at := Run(w, before).attempts[k];
             && at.task.id in Run(w, before).tasks && OwnIds(Run(w, before))
             && forall a | a in after :: !Unpauses(a, at.task.id)
    requires var u := Run(Step(Run(w, before), Pause(k)), after);
             r < |u.rows| && u.rows[r].task == Run(w, before).attempts[k].task.id && u.rows[r].trigger.Cron?
    ensures exists j: nat :: j < |Run(w, before).attempts| && Owner(Run(Step(Run(w, before), Pause(k)), after), j, r)
  {
    var v := Run(w, before);
    RunKeeps(w, before);
    StepKeeps(v, Pause(k));
    var paused := Step(v, Pause(k));
    RunKeeps(paused, after);
    var u := Run(paused, after);
    PausedFrom(paused, after, v.attempts[k].task.id, |v.attempts|);
    QuietRows(u, v.attempts[k].task.id, |v.attempts|, r);
  }

  /** Over every run: a timer or a catch-up triggers a task only as it read it, enabled and not paused. */
  lemma {:induction false} ScheduledWereOn(w: World, actions: seq<Action>, k: nat)
    requires forall j | 0 <= j < |w.attempts| && w.attempts[j].trigger == Cron :: w.attempts[j].task.enabled && !w.attempts[j].task.paused
    requires k < |Run(w, actions).attempts| && Run(w, actions).attempts[k].trigger == Cron
    ensures Run(w, actions).attempts[k].task.enabled && !Run(w, actions).attempts[k].task.paused
    decreases |actions|
  {
    if actions != [] {
      StepWereOn(w, actions[0]);
      ScheduledWereOn(Do(w, actions[0]), actions[1..], k);
    }
  }

  lemma StepWereOn(w: World, a: Action)
    requires forall j | 0 <= j < |w.attempts| && w.attempts[j].trigger == Cron :: w.attempts[j].task.enabled && !w.attempts[j].task.paused
    ensures forall j | 0 <= j < |Do(w, a).attempts| && Do(w, a).attempts[j].trigger == Cron ::
              Do(w, a).attempts[j].task.enabled && !Do(w, a).attempts[j].task.paused
  {
  }

  /**
   While a task is paused, by policy or by hand, no timer triggers it, but a user
   still can; resuming takes the pause back.
   */
  lemma PausedOnlyForTimers(w: World, id: int, failing: seq<CheckResult>)
    requires id in w.tasks
    ensures !Enabled(Step(w, PauseByHand(id)), Due(id)) && Enabled(Step(w, PauseByHand(id)), Ask(id, Manual))
    ensures var t := w.(tasks := WithPause(w.tasks, id, failing)); !Enabled(t, Due(id)) && Enabled(t, Ask(id, Manual)) && Enabled(t, Ask(id, Retry))
    ensures Enabled(Step(w, Resume(id)), Due(id)) <==> w.tasks[id].enabled
  {
  }

  // ---- when the overlap policy holds ----------------------------------------------------------

  function One(r: Row, task: int): nat {
    if r.task == task && IsInFlight(r) then 1 else 0
  }

  /** How many of a task's launched runs are in flight. */
  function LaunchedOf(rows: seq<Row>, launched: set<nat>, task: int): nat {
    if rows == [] then 0
    else
      var n := |rows| - 1;
      LaunchedOf(rows[..n], launched, task) + if n in launched then One(rows[n], task) else 0
  }

  lemma {:induction false} LaunchedAtMost(rows: seq<Row>, launched: set<nat>, task: int)
    ensures LaunchedOf(rows, launched, task) <= InFlightOf(rows, task)
  {
    if rows != [] {
      LaunchedAtMost(rows[..|rows| - 1], launched, task);
    }
  }

  /** Numbers beyond the rows do not matter. */
  lemma {:induction false} LaunchedBeyond(rows: seq<Row>, launched: set<nat>, n: nat, task: int)
    requires n >= |rows|
    ensures LaunchedOf(rows, launched + {n}, task) == LaunchedOf(rows, launched, task)
  {
    if rows != [] {
      LaunchedBeyond(rows[..|rows| - 1], launched, n, task);
    }
  }

  lemma LaunchedPush(rows: seq<Row>, launched: set<nat>, r: Row, task: int)
    ensures |rows| !in launched ==> LaunchedOf(rows + [r], launched, task) == LaunchedOf(rows, launched, task)
    ensures LaunchedOf(rows + [r], launched + {|rows|}, task) == LaunchedOf(rows, launched, task) + One(r, task)
  {
    assert (rows + [r])[..|rows|] == rows;
    LaunchedBeyond(rows, launched, |rows|, task);
  }

  lemma {:induction false} LaunchedUpdate(rows: seq<Row>, launched: set<nat>, i: nat, r: Row, task: int)
    requires i < |rows| && One(r, task) <= One(rows[i], task)
    ensures LaunchedOf(rows[i := r], launched, task) <= LaunchedOf(rows, launched, task)
  {
    var n := |rows| - 1;
    if i < n {
      LaunchedUpdate(rows[..n], launched, i, r, task);
      assert rows[i := r][..n] == rows[..n][i := r];
    } else {
      assert rows[i := r][..n] == rows[..n];
    }
  }

  /** Attempt k has passed the overlap check of the task and has not created its row yet. */
  predicate ClearOf(w: World, k: nat, id: int) {
    k < |w.attempts| && w.attempts[k].phase.Clear? && w.attempts[k].task.id == id
  }

  ghost predicate NoOtherClear(w: World, k: nat, id: int) {
    forall j: nat | j != k :: !ClearOf(w, j, id)
  }

  /** The task skips overlaps, in the table and in every copy that was read. */
  ghost predicate Skips(w: World, id: int) {
    && OwnIds(w)
    && (id in w.tasks ==> w.tasks[id].skipOverlap)
    && (forall k | 0 <= k < |w.attempts| :: w.attempts[k].task.id == id ==> w.attempts[k].task.skipOverlap)
  }

  function RunsOf(w: World, id: int): nat {
    LaunchedOf(w.rows, w.launched, id)
  }

  /** The launched runs of a task that are in flight. */
  ghost function Runs(w: World, id: int): set<nat> {
    set r | r in w.launched && r < |w.rows| && w.rows[r].task == id && (w.rows[r].status == Pending || w.rows[r].status == Running)
  }

  lemma OneMoreOf(p: set<nat>, n: nat, launched: set<nat>)
    requires n !in p
    ensures |(p + {n}) * launched| == |p * launched| + if n in launched then 1 else 0
  {
    assert (p + {n}) * launched == (p * launched) + if n in launched then {n} else {};
  }

  lemma {:induction false} LaunchedIs(rows: seq<Row>, launched: set<nat>, task: int)
    ensures LaunchedOf(rows, launched, task) == |Places(rows, task) * launched|
  {
    if rows == [] {
      assert Places(rows, task) * launched == {};
    } else {
      var n := |rows| - 1;
      LaunchedIs(rows[..n], launched, task);
      PlacesLast(rows, task);
      OneMoreOf(Places(rows[..n], task), n, launched);
      assert Places(rows[..n], task) + {} == Places(rows[..n], task);
    }
  }

  lemma RunsCounted(w: World, id: int)
    ensures RunsOf(w, id) == |Runs(w, id)|
  {
    LaunchedIs(w.rows, w.launched, id);
    assert Runs(w, id) == Places(w.rows, id) * w.launched;
  }

  /** At most one run in flight, and none while a trigger is about to start one; at most one such trigger. */
  ghost predicate Alone(w: World, id: int) {
    && (forall r | r in w.launched :: r < |w.rows|)
    && RunsOf(w, id) <= 1
    && (forall k: nat | ClearOf(w, k, id) :: RunsOf(w, id) == 0 && NoOtherClear(w, k, id))
  }

  /** A check that finds nothing in flight is made only while no other trigger of the task has passed it; the policy is not edited away. */
  ghost predicate SeparateStep(w: World, a: Action, id: int) {
    && (a.CheckOverlap? && a.k < |w.attempts| && w.attempts[a.k].task.id == id && InFlightOf(w.rows, id) == 0 ==> NoOtherClear(w, a.k, id))
    && (a.Edit? && a.task.id == id ==> a.task.skipOverlap)
  }

  ghost predicate Separate(w: World, actions: seq<Action>, id: int)
    decreases |actions|
  {
    actions == [] || (SeparateStep(w, actions[0], id) && Separate(Do(w, actions[0]), actions[1..], id))
  }

  lemma StepSkips(w: World, a: Action, id: int)
    requires Skips(w, id) && Enabled(w, a) && SeparateStep(w, a, id)
    ensures Skips(Step(w, a), id)
  {
  }

  /** A step that launches nothing and makes no attempt clear. */
  lemma SameAlone(w: World, t: World, id: int)
    requires Alone(w, id) && t.launched == w.launched && |t.rows| >= |w.rows| && RunsOf(t, id) <= RunsOf(w, id)
    requires forall k: nat | ClearOf(t, k, id) :: ClearOf(w, k, id)
    ensures Alone(t, id)
  {
  }

  lemma CheckAlone(w: World, k: nat, results: seq<CheckResult>, id: int)
    requires Alone(w, id) && Enabled(w, Check(k, results))
    ensures Alone(Step(w, Check(k, results)), id)
  {
    LaunchedPush(w.rows, w.launched, RowFor(w.attempts[k].task, w.attempts[k].trigger, Proceed), id);
    SameAlone(w, Step(w, Check(k, results)), id);
  }

  lemma RowAlone(w: World, k: nat, a: Action, id: int)
    requires Alone(w, id) && Enabled(w, a) && (a == SaveCheck(k) || a == Finish(k))
    requires w.rows[w.attempts[k].phase.row].status.Pending?
    ensures Alone(Step(w, a), id)
  {
    var t, row := Step(w, a), w.attempts[k].phase.row;
    assert t.rows == w.rows[row := t.rows[row]];
    LaunchedUpdate(w.rows, w.launched, row, t.rows[row], id);
    SameAlone(w, t, id);
  }

  lemma OverlapAlone(w: World, k: nat, id: int)
    requires Alone(w, id) && Skips(w, id) && Enabled(w, CheckOverlap(k)) && SeparateStep(w, CheckOverlap(k), id)
    ensures Alone(Step(w, CheckOverlap(k)), id)
  {
    var t, at := Step(w, CheckOverlap(k)), w.attempts[k];
    LaunchedPush(w.rows, w.launched, RowFor(at.task, at.trigger, Proceed), id);
    LaunchedAtMost(w.rows, w.launched, id);
    assert forall j: nat | ClearOf(t, j, id) :: j == k || ClearOf(w, j, id);
    if at.task.id != id || !ClearOf(t, k, id) {
      SameAlone(w, t, id);
    }
  }

  lemma LaunchAlone(w: World, k: nat, id: int)
    requires Alone(w, id) && Enabled(w, Launch(k))
    ensures Alone(Step(w, Launch(k)), id)
  {
    var t, at := Step(w, Launch(k)), w.attempts[k];
    LaunchedPush(w.rows, w.launched, RowFor(at.task, at.trigger, Proceed), id);
    assert forall j: nat | ClearOf(t, j, id) :: j != k && ClearOf(w, j, id);
    assert at.task.id == id ==> ClearOf(w, k, id);
  }

  lemma StepAlone(w: World, a: Action, id: int)
    requires Inv(w) && Alone(w, id) && Skips(w, id) && Enabled(w, a) && SeparateStep(w, a, id)
    ensures Alone(Step(w, a), id)
  {
    match a {
      case Check(k, results) => CheckAlone(w, k, results, id);
      case SaveCheck(k) =>
        assert Sound(w, w.attempts[k]);
        RowAlone(w, k, a, id);
      case Finish(k) =>
        assert Sound(w, w.attempts[k]);
        RowAlone(w, k, a, id);
      case CheckOverlap(k) => OverlapAlone(w, k, id);
      case Launch(k) => LaunchAlone(w, k, id);
      case Advance(row, status) =>
        LaunchedUpdate(w.rows, w.launched, row, w.rows[row].(status := status), id);
        SameAlone(w, Step(w, a), id);
      case _ => SameAlone(w, Step(w, a), id);
    }
  }

  lemma {:induction false} RunAlone(w: World, actions: seq<Action>, id: int)
    requires Inv(w) && Alone(w, id) && Skips(w, id) && Separate(w, actions, id)
    ensures Alone(Run(w, actions), id)
    decreases |actions|
  {
    if actions != [] {
      if Enabled(w, actions[0]) {
        StepAlone(w, actions[0], id);
        StepSkips(w, actions[0], id);
        StepKeeps(w, actions[0]);
        RunAlone(Step(w, actions[0]), actions[1..], id);
      } else {
        RunAlone(w, actions[1..], id);
      }
    }
  }

  /**
   Over any run in which no trigger of the task passes its overlap check between
   another one's check and row, a task that skips overlaps never has two runs
   in flight. Rows of triggers that are being suppressed are not runs, though
   the check counts them.
   */
  lemma OverlapHonoured(w: World, actions: seq<Action>, id: int)
    requires Initial(w) && Skips(w, id) && Separate(w, actions, id)
    ensures var u := Run(w, actions);
            && |Runs(u, id)| <= 1
            && (forall k | 0 <= k < |u.attempts| && u.attempts[k].phase == Clear && u.attempts[k].task.id == id ::
                  Runs(u, id) == {} && forall j | 0 <= j < |u.attempts| && u.attempts[j].phase == Clear && u.attempts[j].task.id == id :: j == k)
  {
    RunAlone(w, actions, id);
    var u := Run(w, actions);
    RunsCounted(u, id);
    forall k | 0 <= k < |u.attempts| && u.attempts[k].phase == Clear && u.attempts[k].task.id == id
      ensures Runs(u, id) == {} && forall j | 0 <= j < |u.attempts| && u.attempts[j].phase == Clear && u.attempts[j].task.id == id :: j == k
    {
      assert ClearOf(u, k, id);
      forall j | 0 <= j < |u.attempts| && u.attempts[j].phase == Clear && u.attempts[j].task.id == id ensures j == k {
        assert ClearOf(u, j, id);
      }
    }
  }

  /** Two triggers that have both passed the check put two more runs in flight. */
  lemma TwoClearsRun(w: World, j: nat, k: nat, id: int)
    requires j != k && ClearOf(w, j, id) && ClearOf(w, k, id)
    ensures |Runs(Run(w, [Launch(j), Launch(k)]), id)| == |Runs(w, id)| + 2
  {
    RunsCounted(w, id);
    RunsCounted(Run(w, [Launch(j), Launch(k)]), id);
    var u := Step(w, Launch(j));
    assert [Launch(j), Launch(k)][1..] == [Launch(k)] && [Launch(k)][1..] == [];
    assert Run(w, [Launch(j), Launch(k)]) == Run(u, [Launch(k)]) == Run(Step(u, Launch(k)), []);
    LaunchedPush(w.rows, w.launched, RowFor(w.attempts[j].task, w.attempts[j].trigger, Proceed), id);
    LaunchedPush(u.rows, u.launched, RowFor(w.attempts[k].task, w.attempts[k].trigger, Proceed), id);
  }

  /** However the run goes on with separate checks, the task has at most one run in flight. */
  ghost predicate StaysSingle(w: World, id: int) {
    forall actions | Separate(w, actions, id) :: |Runs(Run(w, actions), id)| <= 1
  }

  /**
   As long as the policy has held, one more overlap check keeps it for good if
   and only if it finds something in flight, or no other trigger of the task
   stands between its check and its row.
   */
  lemma OverlapHoldsIff(w: World, k: nat, id: int)
    requires Inv(w) && Alone(w, id) && Skips(w, id) && InPhase(w, k, Passed) && w.attempts[k].task.id == id
    ensures StaysSingle(Step(w, CheckOverlap(k)), id) <==>
              (exists r :: 0 <= r < |w.rows| && w.rows[r].task == id && (w.rows[r].status == Pending || w.rows[r].status == Running))
              || NoOtherClear(w, k, id)
  {
    InFlightHas(w.rows, id);
    var t := Step(w, CheckOverlap(k));
    if InFlightOf(w.rows, id) > 0 || NoOtherClear(w, k, id) {
      StepAlone(w, CheckOverlap(k), id);
      StepSkips(w, CheckOverlap(k), id);
      StepKeeps(w, CheckOverlap(k));
      forall actions | Separate(t, actions, id) ensures |Runs(Run(t, actions), id)| <= 1 {
        RunAlone(t, actions, id);
        RunsCounted(Run(t, actions), id);
      }
    } else {
      var j: nat :| j != k && ClearOf(w, j, id);
      assert ClearOf(t, j, id) && ClearOf(t, k, id);
      TwoClearsRun(t, j, k, id);
      LaunchesAreSeparate(t, j, k, id);
    }
  }

  lemma LaunchesAreSeparate(w: World, j: nat, k: nat, id: int)
    ensures Separate(w, [Launch(j), Launch(k)], id)
  {
    assert [Launch(j), Launch(k)][1..] == [Launch(k)] && [Launch(k)][1..] == [];
    assert Separate(Do(Do(w, Launch(j)), Launch(k)), [], id);
    assert Separate(Do(w, Launch(j)), [Launch(k)], id);
  }

  // ---- what the overlap check counts ------------------------------------------------------------

  /** A trigger of the task is being suppressed: its row is created and not ended. */
  predicate OnItsWay(w: World, j: nat, id: int) {
    j < |w.attempts| && w.attempts[j].phase.Halfway? && w.attempts[j].task.id == id
  }

  lemma {:induction false} InFlightHas(rows: seq<Row>, task: int)
    ensures InFlightOf(rows, task) > 0 <==> exists r: nat :: r < |rows| && One(rows[r], task) == 1
    ensures InFlightOf(rows, task) > 0 <==>
              exists r :: 0 <= r < |rows| && rows[r].task == task && (rows[r].status == Pending || rows[r].status == Running)
  {
    if rows != [] {
      var n := |rows| - 1;
      InFlightHas(rows[..n], task);
      assert forall r: nat | r < n :: rows[..n][r] == rows[r];
    }
  }

  lemma {:induction false} LaunchedHas(rows: seq<Row>, launched: set<nat>, task: int)
    ensures LaunchedOf(rows, launched, task) > 0 <==> exists r: nat :: r < |rows| && r in launched && One(rows[r], task) == 1
    ensures LaunchedOf(rows, launched, task) > 0 <==>
              exists r :: 0 <= r < |rows| && r in launched && rows[r].task == task && (rows[r].status == Pending || rows[r].status == Running)
  {
    if rows != [] {
      var n := |rows| - 1;
      LaunchedHas(rows[..n], launched, task);
      assert forall r: nat | r < n :: rows[..n][r] == rows[r];
    }
  }

  /** A row in flight is a launched run's, or a suppressed trigger's on its way. */
  lemma WhoseInFlight(w: World, r: nat, id: int)
    requires Inv(w) && r < |w.rows| && One(w.rows[r], id) == 1
    ensures r in w.launched || exists j: nat :: OnItsWay(w, j, id)
  {
    assert Owned(w, r);
    var j: nat :| Owner(w, j, r);
    assert Sound(w, w.attempts[j]);
    assert r !in w.launched ==> OnItsWay(w, j, id);
  }

  lemma OnItsWayCounts(w: World, j: nat, id: int)
    requires Inv(w) && OnItsWay(w, j, id)
    ensures InFlightOf(w.rows, id) > 0
  {
    assert Sound(w, w.attempts[j]);
    assert One(w.rows[w.attempts[j].phase.row], id) == 1;
    InFlightHas(w.rows, id);
  }

  /** Something of the task is in flight exactly when a launched run is, or a trigger of it is being suppressed. */
  lemma InFlightIff(w: World, id: int)
    requires Inv(w)
    ensures InFlightOf(w.rows, id) > 0 <==> RunsOf(w, id) > 0 || exists j: nat :: OnItsWay(w, j, id)
  {
    InFlightHas(w.rows, id);
    LaunchedHas(w.rows, w.launched, id);
    LaunchedAtMost(w.rows, w.launched, id);
    if InFlightOf(w.rows, id) > 0 {
      var r: nat :| r < |w.rows| && One(w.rows[r], id) == 1;
      WhoseInFlight(w, r, id);
    }
    if j: nat :| OnItsWay(w, j, id) {
      OnItsWayCounts(w, j, id);
    }
  }

  /**
   What makes an overlap check skip, over every run: a launched run in flight,
   or, when there is none, exactly another trigger of the task that is itself
   being suppressed, whose row counts until it is ended.
   */
  lemma OverlapSkipsIff(w: World, actions: seq<Action>, k: nat)
    requires Initial(w) && InPhase(Run(w, actions), k, Passed) && Run(w, actions).attempts[k].task.skipOverlap
    ensures var u := Run(w, actions); var id := u.attempts[k].task.id;
            Step(u, CheckOverlap(k)).attempts[k].phase.Halfway? <==>
              (exists r :: 0 <= r < |u.rows| && r in u.launched && u.rows[r].task == id && (u.rows[r].status == Pending || u.rows[r].status == Running))
              || exists j: nat :: j != k && OnItsWay(u, j, id)
  {
    RunKeeps(w, actions);
    var u := Run(w, actions);
    InFlightIff(u, u.attempts[k].task.id);
    LaunchedHas(u.rows, u.launched, u.attempts[k].task.id);
    assert !OnItsWay(u, k, u.attempts[k].task.id);
  }

  // ---- such runs from the start --------------------------------------------------------------------

  const RACED := Task(7, [], FailFast, true, true, false, [])

  function RacedWorld(phase: Phase): World {
    var at := NewAttempt(RACED, Cron).(phase := phase);
    World(map[7 := RACED], [], {}, [at, at])
  }

  lemma BothPass()
    ensures Run(RacedWorld(Asking), [Check(0, []), Check(1, []), CheckOverlap(0), CheckOverlap(1)]) == RacedWorld(Clear)
  {
    RunFour(RacedWorld(Asking), Check(0, []), Check(1, []), CheckOverlap(0), CheckOverlap(1));
    assert Do(Do(RacedWorld(Asking), Check(0, [])), Check(1, [])) == RacedWorld(Passed);
    assert Do(Do(RacedWorld(Passed), CheckOverlap(0)), CheckOverlap(1)) == RacedWorld(Clear);
  }

  lemma BothAsk()
    ensures Run(World(map[7 := RACED], [], {}, []), [Due(7), Due(7)]) == RacedWorld(Asking)
  {
    var w := World(map[7 := RACED], [], {}, []);
    assert [Due(7), Due(7)][1..] == [Due(7)] && [Due(7)][1..] == [];
    assert Run(w, [Due(7), Due(7)]) == Run(Step(w, Due(7)), [Due(7)]) == Run(Step(Step(w, Due(7)), Due(7)), []);
  }

  /** Such a run exists from the very start: both triggers pass the check, and then both run. */
  lemma OverlapRaces()
    ensures Run(World(map[7 := RACED], [], {}, []), [Due(7), Due(7)]) == RacedWorld(Asking)
    ensures Run(RacedWorld(Asking), [Check(0, []), Check(1, []), CheckOverlap(0), CheckOverlap(1)]) == RacedWorld(Clear)
    ensures |Runs(Run(RacedWorld(Clear), [Launch(0), Launch(1)]), 7)| == 2
  {
    BothAsk();
    BothPass();
    TwoClearsRun(RacedWorld(Clear), 0, 1, 7);
    assert Runs(RacedWorld(Clear), 7) == {};
  }

  // ---- the steps taken in one go are the method ----------------------------------------------------

  function Saves(k: nat, n: nat): seq<Action> {
    if n == 0 then [] else [SaveCheck(k)] + Saves(k, n - 1)
  }

  /** The steps of one trigger that has read its task; what it cannot do is passed over. */
  function StepsOf(k: nat, results: seq<CheckResult>): seq<Action> {
    [Check(k, results)] + (Saves(k, |results|) + [Finish(k), Pause(k), CheckOverlap(k), Finish(k), Launch(k)])
  }

  lemma {:induction false} RunAppend(w: World, xs: seq<Action>, ys: seq<Action>)
    ensures Run(w, xs + ys) == Run(Run(w, xs), ys)
    decreases |xs|
  {
    if xs == [] {
      assert xs + ys == ys;
    } else {
      assert (xs + ys)[1..] == xs[1..] + ys;
      RunAppend(Do(w, xs[0]), xs[1..], ys);
    }
  }

  lemma RunOne(w: World, a: Action, rest: seq<Action>)
    ensures Run(w, [a] + rest) == Run(Do(w, a), rest)
  {
    assert ([a] + rest)[1..] == rest;
  }

  lemma RunFour(w: World, a: Action, b: Action, c: Action, d: Action)
    ensures Run(w, [a, b, c, d]) == Do(Do(Do(Do(w, a), b), c), d)
  {
    assert [a, b, c, d][1..] == [b, c, d] && [b, c, d][1..] == [c, d] && [c, d][1..] == [d] && [d][1..] == [];
    assert Run(w, [a, b, c, d]) == Run(Do(w, a), [b, c, d]) == Run(Do(Do(w, a), b), [c, d]);
    assert Run(Do(Do(w, a), b), [c, d]) == Run(Do(Do(Do(w, a), b), c), [d]);
  }

  lemma {:induction false} FailingShorter(reqs: seq<Requirement>, results: seq<CheckResult>)
    requires |reqs| == |results|
    ensures |Failing(reqs, results)| <= |results|
  {
    if reqs != [] {
      FailingShorter(reqs[..|reqs| - 1], results[..|reqs| - 1]);
    }
  }

  /** Attempt k has saved all it keeps. */
  function AllSaved(w: World, k: nat): World
    requires IsHalfway(w, k)
  {
    var at := w.attempts[k];
    var kept := Kept(at.task, at.phase.verdict);
    SetAttempt(w, k, at.(phase := at.phase.(saved := |kept|))).(rows := w.rows[at.phase.row := w.rows[at.phase.row].(checks := kept)])
  }

  lemma {:induction false} SavesAll(w: World, k: nat, n: nat)
    requires IsHalfway(w, k)
    requires var at := w.attempts[k]; var kept := Kept(at.task, at.phase.verdict);
             at.phase.saved <= |kept| <= at.phase.saved + n && w.rows[at.phase.row].checks == kept[..at.phase.saved]
    ensures Run(w, Saves(k, n)) == AllSaved(w, k)
    decreases n
  {
    var at := w.attempts[k];
    var kept, saved := Kept(at.task, at.phase.verdict), at.phase.saved;
    if n == 0 {
      assert kept[..saved] == kept;
      assert AllSaved(w, k) == w;
    } else {
      RunOne(w, SaveCheck(k), Saves(k, n - 1));
      if saved < |kept| {
        assert kept[..saved] + [kept[saved]] == kept[..saved + 1];
      }
      SavesAll(Do(w, SaveCheck(k)), k, n - 1);
    }
  }

  lemma {:induction false} NothingToSave(w: World, k: nat, n: nat)
    requires !IsHalfway(w, k)
    ensures Run(w, Saves(k, n)) == w
  {
    if n > 0 {
      RunOne(w, SaveCheck(k), Saves(k, n - 1));
      NothingToSave(w, k, n - 1);
    }
  }

  /** What follows the saving. */
  function Rest(w: World, k: nat): World {
    Do(Do(Do(Do(Do(w, Finish(k)), Pause(k)), CheckOverlap(k)), Finish(k)), Launch(k))
  }

  lemma RunStepsOf(w: World, k: nat, results: seq<CheckResult>)
    ensures Run(w, StepsOf(k, results)) == Rest(Run(Do(w, Check(k, results)), Saves(k, |results|)), k)
  {
    var last := [Finish(k), Pause(k), CheckOverlap(k), Finish(k), Launch(k)];
    RunOne(w, Check(k, results), Saves(k, |results|) + last);
    RunAppend(Do(w, Check(k, results)), Saves(k, |results|), last);
    var u := Run(Do(w, Check(k, results)), Saves(k, |results|));
    RunOne(u, Finish(k), [Pause(k), CheckOverlap(k), Finish(k), Launch(k)]);
    assert last == [Finish(k)] + [Pause(k), CheckOverlap(k), Finish(k), Launch(k)];
    RunFour(Do(u, Finish(k)), Pause(k), CheckOverlap(k), Finish(k), Launch(k));
  }

  lemma SettledRests(w: World, k: nat)
    requires k < |w.attempts| && w.attempts[k].phase.Settled?
    ensures Do(w, Pause(k)) == Do(w, CheckOverlap(k)) == Do(w, Finish(k)) == Do(w, Launch(k)) == w
  {
  }

  /** A row whose results are all saved is ended, and the task paused if that is its policy. */
  lemma SavedGoesOn(w: World, k: nat, rows: seq<Row>, v: Verdict)
    requires IsHalfway(w, k) && !v.Proceed? && w.attempts[k].phase == Halfway(|rows|, v, |Kept(w.attempts[k].task, v)|)
    requires w.rows == rows + [HalfRow(w.attempts[k].task, w.attempts[k].trigger, v, |Kept(w.attempts[k].task, v)|)]
    ensures var at := w.attempts[k]; var u := Rest(w, k);
            && u.rows == rows + [RowFor(at.task, at.trigger, v)] && u.launched == w.launched
            && u.tasks == if Pauses(at.task, v) then WithPause(w.tasks, at.task.id, v.failing) else w.tasks
  {
    var at := w.attempts[k];
    assert Kept(at.task, v)[..|Kept(at.task, v)|] == Kept(at.task, v);
    var u := Do(w, Finish(k));
    assert u.rows == rows + [RowFor(at.task, at.trigger, v)];
    SettledRests(Do(u, Pause(k)), k);
  }

  lemma PassedGoesOn(w: World, k: nat)
    requires InPhase(w, k, Passed)
    ensures var at := w.attempts[k]; var n := InFlightOf(w.rows, at.task.id);
            var v := if at.task.skipOverlap && n > 0 then Overlapping(n) else Proceed;
            var u := Rest(w, k);
            && u.rows == w.rows + [RowFor(at.task, at.trigger, v)] && u.tasks == w.tasks
            && u.launched == w.launched + (if v.Proceed? then {|w.rows|} else {})
  {
    assert Do(Do(w, Finish(k)), Pause(k)) == w;
    var u := Do(w, CheckOverlap(k));
    if u.attempts[k].phase.Halfway? {
      SettledRests(Do(u, Finish(k)), k);
    } else {
      assert Do(u, Finish(k)) == u;
    }
  }

  /** Without anyone in between, the steps do to the tables what the executor's Trigger does. */
  lemma AloneIsTrigger(w: World, k: nat, results: seq<CheckResult>)
    requires InPhase(w, k, Asking) && |results| == |w.attempts[k].task.requirements|
    ensures var t := w.attempts[k].task; var v := Judge(t, Failing(t.requirements, results), InFlightOf(w.rows, t.id));
            var u := Run(w, StepsOf(k, results));
            && u.rows == w.rows + [RowFor(t, w.attempts[k].trigger, v)]
            && u.launched == w.launched + (if v.Proceed? then {|w.rows|} else {})
            && u.tasks == if Pauses(t, v) then WithPause(w.tasks, t.id, v.failing) else w.tasks
  {
    RunStepsOf(w, k, results);
    var w1 := Do(w, Check(k, results));
    var failing := Failing(w.attempts[k].task.requirements, results);
    if failing != [] {
      FailedGoesOn(w, k, results);
    } else {
      NothingToSave(w1, k, |results|);
      PassedGoesOn(w1, k);
    }
  }

  lemma FailedGoesOn(w: World, k: nat, results: seq<CheckResult>)
    requires InPhase(w, k, Asking) && |results| == |w.attempts[k].task.requirements|
    requires Failing(w.attempts[k].task.requirements, results) != []
    ensures var t := w.attempts[k].task; var v := Failed(Failing(t.requirements, results));
            var u := Rest(Run(Do(w, Check(k, results)), Saves(k, |results|)), k);
            && u.rows == w.rows + [RowFor(t, w.attempts[k].trigger, v)] && u.launched == w.launched
            && u.tasks == if Pauses(t, v) then WithPause(w.tasks, t.id, v.failing) else w.tasks
  {
    var at := w.attempts[k];
    var w1 := Do(w, Check(k, results));
    var v := Failed(Failing(at.task.requirements, results));
    FailingShorter(at.task.requirements, results);
    SavesAll(w1, k, |results|);
    var kept := Kept(at.task, v);
    assert kept[..|kept|] == kept;
    assert AllSaved(w1, k).rows == w.rows + [HalfRow(at.task, at.trigger, v, |kept|)];
    SavedGoesOn(AllSaved(w1, k), k, w.rows, v);
  }
}
