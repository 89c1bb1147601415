/**
 The life of executions in one daemon and across its restarts: the row of each
 execution, the goroutine that runs it, the concurrency slots, the map of
 running handles, cancelling and timing out, and the reaping at start.

 Nothing in the database stops a status from moving backwards, so everything
 here rests on the order of the steps.
 */
module Lifecycle {
  datatype Status = Pending | Running | Success | Failure | Timeout | Cancelled | RateLimited | Skipped | Blocked

  predicate Terminal(s: Status) {
    !s.Pending? && !s.Running?
  }

  /** handle.reason, empty until a timer or a user stops the run. */
  datatype Reason = Unset | TimedOut | ByUser

  /** What a process left behind: its last result event, if any, and how it exited. */
  datatype Outcome = Outcome(sawResult: bool, isError: bool, budget: bool, rateLimited: bool, waitFailed: bool)

  /** A stop reason decides alone; a run is a success only on a clean result. */
  function Classify(o: Outcome, reason: Reason): (r: Status)
    ensures Terminal(r) && !r.Skipped? && !r.Blocked?
    ensures r.Cancelled? <==> reason.ByUser?
    ensures r.Timeout? <==> reason.TimedOut?
    ensures r.Success? <==> reason.Unset? && o.sawResult && !o.isError
    ensures r.RateLimited? <==> reason.Unset? && (o.rateLimited || (o.sawResult && o.budget)) && !(o.sawResult && !o.isError)
  {
    match reason
    case TimedOut => Timeout
    case ByUser => Cancelled
    case Unset =>
      if o.sawResult then
        if o.isError then
          if o.budget then RateLimited
          else if o.rateLimited then RateLimited
          else Failure
        else Success
      else if o.rateLimited then RateLimited
      else Failure
  }

  /** What the broker publishes for an execution. */
  datatype Note = Progress(status: Status) | Emitted | End(status: Status)

  /**
   How far the goroutine of an execution has come. Suppressing is a row created
   only to be finished at once; Orphan is one whose process died.
   */
  datatype Stage =
    | Suppressing(to: Status)
    | Queued | Slotted | Registered | Started | Marked | Live
    | Decided(status: Status) | Recorded(status: Status) | Announced(status: Status)
    | Closed | Left | Gone
    | Orphan

  /** One execution: its stage, every status its row was given, and its notes. */
  datatype Exec = Exec(stage: Stage, history: seq<Status>, notes: seq<Note>, reason: Reason, stopped: bool,
                       slot: bool, registered: bool)

  /** up: a daemon is running; shutdown: its base context is cancelled. */
  datatype State = State(execs: map<nat, Exec>, sem: nat, running: set<nat>, max: nat, up: bool, shutdown: bool)

  datatype Action =
    | Create(id: nat)
    | Suppress(id: nat, to: Status)
    | Acquire(id: nat)
    | QueueAbandon(id: nat)
    | LocateFails(id: nat)
    | Register(id: nat)
    | StartFails(id: nat)
    | StartOk(id: nat)
    | Mark(id: nat, ok: bool)
    | AnnounceRunning(id: nat)
    | Emit(id: nat)
    | Wait(id: nat, outcome: Outcome)
    | Record(id: nat)
    | AnnounceEnd(id: nat)
    | CloseTopic(id: nat)
    | Deregister(id: nat)
    | Release(id: nat)
    | Cancel(id: nat)
    | Timer(id: nat)
    | Stop(id: nat)             // the cancel function of the run's context is called
    | Shutdown
    | Crash
    | Boot(configured: int)

  const NOTHING := State(map[], 0, {}, 1, false, false)

  function Slots(configured: int): nat {
    if configured < 1 then 1 else configured
  }

  predicate At(s: State, id: nat) {
    id in s.execs
  }

  /** Whether the goroutine of id, at stage g, can take the step. */
  predicate StageAllows(s: State, a: Action, e: Exec) {
    var g := e.stage;
    match a
    case Acquire(id) => g.Queued? && s.sem < s.max
    case QueueAbandon(id) => g.Queued? && s.shutdown
    case LocateFails(id) => g.Slotted?
    case Register(id) => g.Slotted?
    case StartFails(id) => g.Registered?
    case StartOk(id) => g.Registered? && !e.stopped && !s.shutdown
    case Mark(id, ok) => g.Started? && (ok || e.stopped || s.shutdown)
    case AnnounceRunning(id) => g.Marked?
    case Emit(id) => g.Live?
    case Wait(id, _) => g.Live?
    case Record(id) => g.Decided? || g.Suppressing?
    case AnnounceEnd(id) => g.Recorded?
    case CloseTopic(id) => g.Announced?
    case Deregister(id) => g.Closed?
    case Release(id) => g.Left?
    case Cancel(id) => id in s.running
    case Timer(id) => e.registered
    case Stop(id) => !e.reason.Unset?
    case _ => false
  }

  predicate Enabled(s: State, a: Action) {
    match a
    case Create(id) => s.up && !At(s, id)
    case Suppress(id, to) => s.up && !At(s, id) && (to.Skipped? || to.Blocked?)
    case Shutdown => s.up
    case Crash => s.up
    case Boot(_) => !s.up
    case _ => s.up && At(s, a.id) && StageAllows(s, a, s.execs[a.id])
  }

  /** What the step does to the execution it is about. */
  function Moved(a: Action, e: Exec): Exec {
    match a
    case Acquire(_) => e.(stage := Slotted, slot := true)
    case QueueAbandon(_) => e.(stage := Decided(Cancelled))
    case LocateFails(_) => e.(stage := Decided(Failure))
    case Register(_) => e.(stage := Registered, registered := true)
    case StartFails(_) => e.(stage := Decided(Failure))
    case StartOk(_) => e.(stage := Started)
    case Mark(_, ok) => e.(stage := Marked, history := if ok then e.history + [Running] else e.history)
    case AnnounceRunning(_) => e.(stage := Live, notes := e.notes + [Progress(Running)])
    case Emit(_) => e.(notes := e.notes + [Emitted])
    case Wait(_, outcome) => e.(stage := Decided(Classify(outcome, e.reason)))
    case Record(_) =>
      if e.stage.Decided? then e.(stage := Recorded(e.stage.status), history := e.history + [e.stage.status])
      else if e.stage.Suppressing? then e.(stage := Gone, history := e.history + [e.stage.to])
      else e
    case AnnounceEnd(_) =>
      if e.stage.Recorded? then e.(stage := Announced(e.stage.status), notes := e.notes + [End(e.stage.status)]) else e
    case CloseTopic(_) => e.(stage := Closed)
    case Deregister(_) => e.(stage := Left, registered := false)
    case Release(_) => e.(stage := Gone, slot := false)
    case Cancel(_) => e.(reason := ByUser)
    case Timer(_) => if e.reason.Unset? then e.(reason := TimedOut) else e
    case Stop(_) => e.(stopped := true)
    case _ => e
  }

  /** The process is gone: its goroutines, handles and slots with it; the row stays. */
  function Orphaned(e: Exec): Exec {
    if e.stage.Gone? then e else e.(stage := Orphan, slot := false, registered := false)
  }

  /** The update at start touches exactly the rows that look in flight. */
  function Reaped(e: Exec): Exec {
    if e.history != [] && !Terminal(e.history[|e.history| - 1]) then e.(history := e.history + [Cancelled]) else e
  }

  function NewExec(stage: Stage): Exec {
    Exec(stage, [Pending], [], Unset, false, false, false)
  }

  function Step(s: State, a: Action): State
    requires Enabled(s, a)
  {
    match a
    case Create(id) => s.(execs := s.execs[id := NewExec(Queued)])
    case Suppress(id, to) => s.(execs := s.execs[id := NewExec(Suppressing(to))])
    case Shutdown => s.(shutdown := true)
    case Crash =>
      s.(execs := map id | id in s.execs :: Orphaned(s.execs[id]), sem := 0, running := {}, up := false)
    case Boot(configured) =>
      State(map id | id in s.execs :: Reaped(s.execs[id]), 0, {}, Slots(configured), true, false)
    case _ => Inner(s, a)
  }

  /** A step of one execution, with its share of the slots and of the map of handles. */
  function Inner(s: State, a: Action): State
    requires !a.Shutdown? && !a.Crash? && !a.Boot? && At(s, a.id)
  {
    var t := s.(execs := s.execs[a.id := Moved(a, s.execs[a.id])]);
    match a
    case Acquire(_) => t.(sem := s.sem + 1)
    case Release(_) => t.(sem := if s.execs[a.id].slot && s.sem > 0 then s.sem - 1 else s.sem)
    case Register(id) => t.(running := s.running + {id})
    case Deregister(id) => t.(running := s.running - {id})
    case _ => t
  }

  function Run(s: State, actions: seq<Action>): State
    decreases |actions|
  {
    if actions == [] then s
    else Run(if Enabled(s, actions[0]) then Step(s, actions[0]) else s, actions[1..])
  }

  // ---- the invariant -----------------------------------------------------------------------

  predicate Open(h: seq<Status>) {
    h == [Pending] || h == [Pending, Running]
  }

  /** Finished once, by st, and by nothing after it. */
  predicate Settled(h: seq<Status>, st: Status) {
    Terminal(st) && (h == [Pending, st] || h == [Pending, Running, st])
  }

  predicate Quiet(notes: seq<Note>) {
    forall n | n in notes :: !n.End?
  }

  predicate Closing(notes: seq<Note>, st: Status) {
    |notes| > 0 && notes[|notes| - 1] == End(st) && Quiet(notes[..|notes| - 1])
  }

  /** The row's status, the last one written. */
  function StatusOf(e: Exec): Status {
    if e.history == [] then Pending else e.history[|e.history| - 1]
  }

  /** History and notes agree with the stage. */
  predicate Written(e: Exec) {
    match e.stage
    case Suppressing(to) => e.history == [Pending] && e.notes == [] && Terminal(to)
    case Queued => e.history == [Pending] && e.notes == []
    case Slotted => e.history == [Pending] && e.notes == []
    case Registered => e.history == [Pending] && e.notes == []
    case Started => e.history == [Pending] && e.notes == []
    case Marked => Open(e.history) && e.notes == []
    case Live => Open(e.history) && Quiet(e.notes)
    case Decided(st) => Open(e.history) && Quiet(e.notes) && Terminal(st)
    case Recorded(st) => Settled(e.history, st) && Quiet(e.notes)
    case Announced(st) => Settled(e.history, st) && Closing(e.notes, st)
    case Closed => Settled(e.history, StatusOf(e)) && Closing(e.notes, StatusOf(e))
    case Left => Settled(e.history, StatusOf(e)) && Closing(e.notes, StatusOf(e))
    case Gone => Settled(e.history, StatusOf(e)) && (e.notes == [] || Closing(e.notes, StatusOf(e)))
    case Orphan =>
      || ((Open(e.history) || Settled(e.history, StatusOf(e))) && Quiet(e.notes))
      || (Settled(e.history, StatusOf(e)) && Closing(e.notes, StatusOf(e)))
  }

  /** Who holds a slot and who is in the map. */
  predicate Held(e: Exec) {
    && (e.registered ==> e.slot)
    && (e.stage.Registered? || e.stage.Started? || e.stage.Marked? || e.stage.Live? ==> e.registered)
    && (e.stage.Slotted? ==> e.slot && !e.registered)
    && (e.stage.Left? || e.stage.Queued? || e.stage.Suppressing? ==> !e.registered)
    && (e.stage.Gone? || e.stage.Orphan? || e.stage.Queued? || e.stage.Suppressing? ==> !e.slot)
  }

  function Holders(s: State): set<nat> {
    set id | id in s.execs && s.execs[id].slot
  }

  function InMap(s: State): set<nat> {
    set id | id in s.execs && s.execs[id].registered
  }

  ghost predicate Inv(s: State) {
    && (forall id | id in s.execs :: Written(s.execs[id]) && Held(s.execs[id]))
    && s.sem == |Holders(s)| && s.sem <= s.max
    && s.running == InMap(s)
    && (!s.up ==> forall id | id in s.execs :: s.execs[id].stage.Gone? || s.execs[id].stage.Orphan?)
  }

  lemma MovedWritten(s: State, a: Action)
    requires Enabled(s, a) && IsInner(a)
    requires Written(s.execs[a.id]) && Held(s.execs[a.id])
    ensures Written(Moved(a, s.execs[a.id]))
  {
    var e := s.execs[a.id];
    var f := Moved(a, e);
    if a.AnnounceEnd? {
      assert f.notes[..|f.notes| - 1] == e.notes;
    }
  }

  lemma MovedHeld(s: State, a: Action)
    requires Inv(s) && Enabled(s, a) && IsInner(a)
    ensures Held(Moved(a, s.execs[a.id]))
  {
    var e := s.execs[a.id];
    assert Held(e);
    assert a.Cancel? ==> a.id in InMap(s);
  }

  /** Replacing one execution changes both sets at that id only. */
  lemma PutSets(s: State, id: nat, f: Exec)
    ensures var t := s.(execs := s.execs[id := f]);
            && Holders(t) == (if f.slot then Holders(s) + {id} else Holders(s) - {id})
            && InMap(t) == (if f.registered then InMap(s) + {id} else InMap(s) - {id})
  {
  }

  lemma HeldAfter(s: State, a: Action)
    requires Inv(s) && Enabled(s, a) && IsInner(a)
    ensures var e, f := s.execs[a.id], Moved(a, s.execs[a.id]);
            && f.slot == (a.Acquire? || (e.slot && !a.Release?))
            && f.registered == (a.Register? || (e.registered && !a.Deregister?))
            && (a.Acquire? ==> !e.slot) && (a.id in Holders(s) <==> e.slot) && (a.id in InMap(s) <==> e.registered)
  {
    assert Held(s.execs[a.id]);
  }

  lemma SlotsKeep(s: State, id: nat, f: Exec)
    requires id in s.execs && s.sem == |Holders(s)|
    ensures var t := s.(execs := s.execs[id := f]);
            |Holders(t)| == s.sem + (if f.slot && !s.execs[id].slot then 1 else if !f.slot && s.execs[id].slot then -1 else 0)
    ensures s.execs[id].slot ==> s.sem > 0
  {
    PutSets(s, id, f);
    if s.execs[id].slot {
      assert id in Holders(s);
    }
  }

  lemma InnerSem(s: State, a: Action)
    requires Inv(s) && Enabled(s, a) && IsInner(a)
    ensures Inner(s, a).sem == |Holders(Inner(s, a))| && Inner(s, a).sem <= s.max
  {
    HeldAfter(s, a);
    var f := Moved(a, s.execs[a.id]);
    SlotsKeep(s, a.id, f);
    assert Holders(Inner(s, a)) == Holders(s.(execs := s.execs[a.id := f]));
  }

  lemma InnerMap(s: State, a: Action)
    requires IsInner(a) && At(s, a.id) && s.running == InMap(s)
    requires var e, f := s.execs[a.id], Moved(a, s.execs[a.id]); f.registered == (a.Register? || (e.registered && !a.Deregister?))
    ensures Inner(s, a).running == InMap(Inner(s, a))
  {
    var f := Moved(a, s.execs[a.id]);
    PutSets(s, a.id, f);
    assert InMap(Inner(s, a)) == InMap(s.(execs := s.execs[a.id := f]));
  }

  lemma InnerKeeps(s: State, a: Action)
    requires Inv(s) && Enabled(s, a) && IsInner(a)
    ensures Inv(Inner(s, a))
  {
    MovedWritten(s, a);
    MovedHeld(s, a);
    InnerSem(s, a);
    HeldAfter(s, a);
    InnerMap(s, a);
  }

  lemma RestartFine(e: Exec)
    requires Written(e) && Held(e)
    ensures Written(Orphaned(e)) && Held(Orphaned(e)) && (e.stage.Gone? || e.stage.Orphan? ==> Written(Reaped(e)) && Held(Reaped(e)))
  {
  }

  lemma RestartKeeps(s: State, a: Action)
    requires Inv(s) && Enabled(s, a) && (a.Crash? || a.Boot?)
    ensures Inv(Step(s, a))
  {
    var t := Step(s, a);
    forall id | id in t.execs ensures Written(t.execs[id]) && Held(t.execs[id]) {
      RestartFine(s.execs[id]);
    }
    assert Holders(t) == {} && InMap(t) == {} by {
      forall id | id in t.execs ensures !t.execs[id].slot && !t.execs[id].registered {
        assert Held(s.execs[id]);
      }
    }
  }

  /** Neither a restart nor one of the steps that touch the slots or the map. */
  predicate Plain(a: Action) {
    IsInner(a) && !a.Acquire? && !a.Release? && !a.Register? && !a.Deregister?
  }

  /** What a step makes of one execution. */
  function AfterStep(a: Action, e: Exec, id: nat): Exec {
    match a
    case Create(_) => e
    case Suppress(_, _) => e
    case Shutdown => e
    case Crash => Orphaned(e)
    case Boot(_) => Reaped(e)
    case _ => if a.id == id then Moved(a, e) else e
  }

  /** A step of one execution's goroutine, or of what may stop it. */
  predicate IsInner(a: Action) {
    !a.Create? && !a.Suppress? && !a.Shutdown? && !a.Crash? && !a.Boot?
  }

  lemma InnerOn(s: State, a: Action, id: nat)
    requires IsInner(a) && At(s, a.id) && id in s.execs
    ensures id in Inner(s, a).execs && Inner(s, a).execs[id] == if a.id == id then Moved(a, s.execs[id]) else s.execs[id]
  {
  }

  lemma InnerStep(s: State, a: Action)
    requires IsInner(a) && Enabled(s, a)
    ensures At(s, a.id) && StageAllows(s, a, s.execs[a.id]) && Step(s, a) == Inner(s, a)
  {
  }

  lemma StepOn(s: State, a: Action, id: nat)
    requires Enabled(s, a) && id in s.execs
    ensures id in Step(s, a).execs && Step(s, a).execs[id] == AfterStep(a, s.execs[id], id)
    ensures IsInner(a) && a.id == id ==> StageAllows(s, a, s.execs[id])
  {
    if IsInner(a) {
      InnerStep(s, a);
      InnerOn(s, a, id);
    }
  }

  lemma StepKeeps(s: State, a: Action)
    requires Inv(s) && Enabled(s, a)
    ensures Inv(Step(s, a))
  {
    var t := Step(s, a);
    if a.Crash? || a.Boot? {
      RestartKeeps(s, a);
    } else if a.Create? || a.Suppress? || a.Shutdown? {
      assert Holders(t) == Holders(s) && InMap(t) == InMap(s);
    } else {
      InnerKeeps(s, a);
    }
  }

  lemma {:induction false} RunKeeps(s: State, actions: seq<Action>)
    requires Inv(s)
    ensures Inv(Run(s, actions))
    decreases |actions|
  {
    if actions != [] {
      if Enabled(s, actions[0]) {
        StepKeeps(s, actions[0]);
        RunKeeps(Step(s, actions[0]), actions[1..]);
      } else {
        RunKeeps(s, actions[1..]);
      }
    }
  }

  lemma StartsInvariant()
    ensures Inv(NOTHING)
  {
    assert Holders(NOTHING) == {} && InMap(NOTHING) == {};
  }

  // ---- what holds over every run -------------------------------------------------------------

  /** The statuses of a row, over any number of restarts: pending, then perhaps running, then one terminal and no more. */
  lemma StatusesMoveForward(actions: seq<Action>, id: nat)
    requires id in Run(NOTHING, actions).execs
    ensures var h := Run(NOTHING, actions).execs[id].history;
            || h == [Pending] || h == [Pending, Running]
            || (|h| == 2 && h[0] == Pending && Terminal(h[1]))
            || (|h| == 3 && h[0] == Pending && h[1] == Running && Terminal(h[2]))
  {
    StartsInvariant();
    RunKeeps(NOTHING, actions);
    assert Written(Run(NOTHING, actions).execs[id]);
  }

  /** A run that has returned has its one terminal status. */
  lemma ReturnedMeansRecorded(actions: seq<Action>, id: nat)
    requires id in Run(NOTHING, actions).execs && Run(NOTHING, actions).execs[id].stage.Gone?
    ensures var h := Run(NOTHING, actions).execs[id].history;
            |h| > 0 && Terminal(h[|h| - 1]) && forall i | 0 <= i < |h| - 1 :: !Terminal(h[i])
  {
    StartsInvariant();
    RunKeeps(NOTHING, actions);
    assert Written(Run(NOTHING, actions).execs[id]);
  }

  lemma MovedTerminal(s: State, a: Action, e: Exec)
    requires IsInner(a) && StageAllows(s, a, e) && Written(e) && Terminal(StatusOf(e))
    ensures Moved(a, e).history == e.history
  {
  }

  lemma StepKeepsTerminal(s: State, a: Action, id: nat)
    requires Inv(s) && Enabled(s, a) && id in s.execs && Terminal(StatusOf(s.execs[id]))
    ensures id in Step(s, a).execs && Step(s, a).execs[id].history == s.execs[id].history
  {
    assert Written(s.execs[id]);
    StepOn(s, a, id);
    if IsInner(a) && a.id == id {
      MovedTerminal(s, a, s.execs[id]);
    }
  }

  /** A terminal row is never written again, whatever happens next. */
  lemma {:induction false} TerminalIsFinal(s: State, actions: seq<Action>, id: nat)
    requires Inv(s) && id in s.execs && Terminal(StatusOf(s.execs[id]))
    ensures id in Run(s, actions).execs && Run(s, actions).execs[id].history == s.execs[id].history
    decreases |actions|
  {
    if actions != [] {
      if Enabled(s, actions[0]) {
        StepKeepsTerminal(s, actions[0], id);
        StepKeeps(s, actions[0]);
        TerminalIsFinal(Step(s, actions[0]), actions[1..], id);
      } else {
        TerminalIsFinal(s, actions[1..], id);
      }
    }
  }

  lemma NotesEnd(e: Exec)
    requires Written(e)
    ensures forall i | 0 <= i < |e.notes| && e.notes[i].End? ::
              i == |e.notes| - 1 && e.notes[i].status == StatusOf(e) && Terminal(StatusOf(e))
  {
    if Quiet(e.notes) {
      forall i | 0 <= i < |e.notes| ensures !e.notes[i].End? {
        assert e.notes[i] in e.notes;
      }
    } else {
      var init := e.notes[..|e.notes| - 1];
      forall i | 0 <= i < |init| ensures !e.notes[i].End? {
        assert init[i] in init;
      }
    }
  }

  /**
   Nothing is published for an execution after its terminal message, and that
   message carries the status its row already has.
   */
  lemma NothingAfterTheEnd(actions: seq<Action>, id: nat, i: nat)
    requires id in Run(NOTHING, actions).execs
    requires i < |Run(NOTHING, actions).execs[id].notes| && Run(NOTHING, actions).execs[id].notes[i].End?
    ensures var e := Run(NOTHING, actions).execs[id];
            i == |e.notes| - 1 && e.notes[i].status == StatusOf(e) && Terminal(StatusOf(e))
  {
    StartsInvariant();
    RunKeeps(NOTHING, actions);
    NotesEnd(Run(NOTHING, actions).execs[id]);
  }

  lemma {:induction false} SubsetSize(a: set<nat>, b: set<nat>)
    requires a <= b
    ensures |a| <= |b|
  {
    if a != {} {
      var x :| x in a;
      SubsetSize(a - {x}, b - {x});
    }
  }

  /** The limit a start sets is the limit until the next start. */
  lemma {:induction false} LimitStays(s: State, actions: seq<Action>)
    requires forall a | a in actions :: !a.Boot?
    ensures Run(s, actions).max == s.max
    decreases |actions|
  {
    if actions != [] {
      var t := if Enabled(s, actions[0]) then Step(s, actions[0]) else s;
      assert actions[0] in actions && t.max == s.max;
      LimitStays(t, actions[1..]);
    }
  }

  /** Whoever is in the map holds a slot, and slots are counted. */
  lemma SlotsCounted(s: State)
    requires Inv(s)
    ensures var holding := set id | id in s.execs && s.execs[id].slot;
            s.running <= holding && |s.running| <= |holding| <= s.max && s.sem == |holding|
  {
    forall id | id in s.running ensures id in Holders(s) {
      assert Held(s.execs[id]);
    }
    SubsetSize(s.running, Holders(s));
    assert Holders(s) == set id | id in s.execs && s.execs[id].slot;
  }

  /**
   After a start with a configured limit and until the next start: at most that
   many executions hold a slot, one if the limit is below one, whoever is in the
   map of running executions holds one, and a queued execution can take one
   exactly while fewer are held.
   */
  lemma RunningWithinLimit(before: seq<Action>, configured: int, after: seq<Action>)
    requires !Run(NOTHING, before).up && forall a | a in after :: !a.Boot?
    ensures var s := Run(Step(Run(NOTHING, before), Boot(configured)), after);
            var limit := if configured < 1 then 1 else configured;
            var holding := set id | id in s.execs && s.execs[id].slot;
            && s.running <= holding && |s.running| <= |holding| <= limit
            && (forall id | s.up && id in s.execs && s.execs[id].stage.Queued? :: Enabled(s, Acquire(id)) <==> |holding| < limit)
  {
    StartsInvariant();
    RunKeeps(NOTHING, before);
    var t := Step(Run(NOTHING, before), Boot(configured));
    StepKeeps(Run(NOTHING, before), Boot(configured));
    RunKeeps(t, after);
    LimitStays(t, after);
    SlotsCounted(Run(t, after));
  }

  /** Taking a slot takes one, and giving it back frees one. */
  lemma SlotsTaken(s: State, id: nat)
    requires Inv(s) && s.up && id in s.execs
    ensures var holding := set i | i in s.execs && s.execs[i].slot;
            && (Enabled(s, Acquire(id)) ==> id !in holding && (set i | i in Step(s, Acquire(id)).execs && Step(s, Acquire(id)).execs[i].slot) == holding + {id})
            && (Enabled(s, Release(id)) ==> (set i | i in Step(s, Release(id)).execs && Step(s, Release(id)).execs[i].slot) == holding - {id})
  {
    assert Held(s.execs[id]);
  }

  /** A start leaves no row looking in flight, and changes no row that was finished. */
  lemma BootSettlesAll(actions: seq<Action>, configured: int, id: nat)
    requires !Run(NOTHING, actions).up && id in Run(NOTHING, actions).execs
    ensures var s := Run(NOTHING, actions); var t := Step(s, Boot(configured));
            && id in t.execs && Terminal(StatusOf(t.execs[id]))
            && (if Terminal(StatusOf(s.execs[id])) then StatusOf(t.execs[id]) == StatusOf(s.execs[id])
                else StatusOf(t.execs[id]) == Cancelled)
  {
    StartsInvariant();
    RunKeeps(NOTHING, actions);
    assert Written(Run(NOTHING, actions).execs[id]);
  }

  // ---- cancelling --------------------------------------------------------------------------------

  /** The user's wish stands: recorded already, or the reason is set with the process running, or nothing but reaping is left. */
  predicate Doomed(e: Exec) {
    || Settled(e.history, Cancelled)
    || (e.stage == Decided(Cancelled))
    || ((e.stage.Started? || e.stage.Marked? || e.stage.Live?) && e.reason.ByUser?)
    || (e.stage.Orphan? && Open(e.history))
  }

  lemma MovedDoomed(s: State, a: Action, e: Exec)
    requires IsInner(a) && StageAllows(s, a, e) && Written(e) && Doomed(e)
    ensures Doomed(Moved(a, e))
  {
  }

  lemma StepKeepsDoomed(s: State, a: Action, id: nat)
    requires Inv(s) && Enabled(s, a) && id in s.execs && Doomed(s.execs[id])
    ensures id in Step(s, a).execs && Doomed(Step(s, a).execs[id])
  {
    assert Written(s.execs[id]);
    StepOn(s, a, id);
    if IsInner(a) && a.id == id {
      MovedDoomed(s, a, s.execs[id]);
    }
  }

  lemma {:induction false} RunKeepsDoomed(s: State, actions: seq<Action>, id: nat)
    requires Inv(s) && id in s.execs && Doomed(s.execs[id])
    ensures Inv(Run(s, actions)) && id in Run(s, actions).execs && Doomed(Run(s, actions).execs[id])
    decreases |actions|
  {
    if actions != [] {
      if Enabled(s, actions[0]) {
        StepKeeps(s, actions[0]);
        StepKeepsDoomed(s, actions[0], id);
        RunKeepsDoomed(Step(s, actions[0]), actions[1..], id);
      } else {
        RunKeepsDoomed(s, actions[1..], id);
      }
    }
  }

  /** However the run goes on, the execution never ends in anything but cancelled. */
  ghost predicate OnlyCancelled(s: State, id: nat) {
    forall actions ::
      id in Run(s, actions).execs && Terminal(StatusOf(Run(s, actions).execs[id])) ==>
        StatusOf(Run(s, actions).execs[id]) == Cancelled
  }

  /** The process is running and the stop reason not yet read, or cancelled is what was decided anyway. */
  predicate InTime(e: Exec) {
    e.stage.Started? || e.stage.Marked? || e.stage.Live? || e.stage == Decided(Cancelled) || StatusOf(e) == Cancelled
  }

  /** Before the process starts, cancelling makes the start fail, and the run is recorded as a failure. */
  lemma TooEarly(s: State, id: nat)
    requires Inv(s) && s.up && id in s.execs && s.execs[id].stage.Registered?
    ensures Run(s, [StartFails(id), Record(id)]).execs.Keys == s.execs.Keys
    ensures id in Run(s, [StartFails(id), Record(id)]).execs
    ensures StatusOf(Run(s, [StartFails(id), Record(id)]).execs[id]) == Failure
  {
    var s1 := Step(s, StartFails(id));
    var s2 := Step(s1, Record(id));
    assert [StartFails(id), Record(id)][1..] == [Record(id)];
    assert [Record(id)][1..] == [];
    assert Run(s1, [Record(id)]) == Run(s2, []);
  }

  /** Cancelled before its process started: the start fails, and nothing but failure can be recorded. */
  predicate StillBorn(e: Exec) {
    || (e.stage.Registered? && e.stopped && e.history == [Pending])
    || (e.stage == Decided(Failure) && Open(e.history))
    || (Settled(e.history, Failure) && (e.stage == Recorded(Failure) || e.stage == Announced(Failure) || e.stage.Closed? || e.stage.Left? || e.stage.Gone?))
  }

  lemma MovedStillBorn(s: State, a: Action, e: Exec)
    requires IsInner(a) && StageAllows(s, a, e) && StillBorn(e)
    ensures StillBorn(Moved(a, e))
  {
  }

  lemma StepKeepsStillBorn(s: State, a: Action, id: nat)
    requires Enabled(s, a) && id in s.execs && StillBorn(s.execs[id]) && !a.Crash?
    ensures id in Step(s, a).execs && (a.Boot? || StillBorn(Step(s, a).execs[id]))
  {
    StepOn(s, a, id);
    if IsInner(a) && a.id == id {
      MovedStillBorn(s, a, s.execs[id]);
    }
  }

  lemma {:induction false} RunKeepsStillBorn(s: State, actions: seq<Action>, id: nat)
    requires s.up && id in s.execs && StillBorn(s.execs[id]) && forall a | a in actions :: !a.Crash?
    ensures id in Run(s, actions).execs && StillBorn(Run(s, actions).execs[id])
    decreases |actions|
  {
    if actions != [] {
      if Enabled(s, actions[0]) {
        assert actions[0] in actions;
        StepKeepsStillBorn(s, actions[0], id);
        StaysUp(s, actions[0]);
        RunKeepsStillBorn(Step(s, actions[0]), actions[1..], id);
      } else {
        RunKeepsStillBorn(s, actions[1..], id);
      }
    }
  }

  lemma StaysUp(s: State, a: Action)
    requires s.up && Enabled(s, a) && !a.Crash?
    ensures Step(s, a).up && !a.Boot?
  {
  }

  /**
   Once a user has cancelled a run that is in the map but whose process has not
   started, it never starts: unless the daemon dies first, the run can only be
   recorded as a failure, not as cancelled.
   */
  lemma CancelledTooEarly(s: State, actions: seq<Action>, id: nat)
    requires Inv(s) && s.up && id in s.execs && s.execs[id].stage.Registered? && forall a | a in actions :: !a.Crash?
    requires Enabled(s, Cancel(id))
    ensures var t := Step(Step(s, Cancel(id)), Stop(id)); var r := Run(t, actions);
            id in r.execs && (Terminal(StatusOf(r.execs[id])) ==> StatusOf(r.execs[id]) == Failure)
  {
    assert Written(s.execs[id]) && Held(s.execs[id]) && id in InMap(s);
    var t := Step(Step(s, Cancel(id)), Stop(id));
    RunKeepsStillBorn(t, actions, id);
  }

  /** A suppressed execution: still to be ended, ended as it was to be, or left over by a crash and perhaps reaped. */
  predicate Fated(e: Exec, to: Status) {
    || (e.stage == Suppressing(to) && e.history == [Pending])
    || (e.stage.Gone? && e.history == [Pending, to])
    || (e.stage.Orphan? && (e.history == [Pending] || e.history == [Pending, Cancelled]))
  }

  lemma {:induction false} RunKeepsFated(s: State, actions: seq<Action>, id: nat, to: Status)
    requires Inv(s) && id in s.execs && Fated(s.execs[id], to) && Terminal(to)
    ensures id in Run(s, actions).execs && Fated(Run(s, actions).execs[id], to)
    decreases |actions|
  {
    if actions != [] {
      if Enabled(s, actions[0]) {
        StepKeeps(s, actions[0]);
        StepFated(s, actions[0], id, to);
        RunKeepsFated(Step(s, actions[0]), actions[1..], id, to);
      } else {
        RunKeepsFated(s, actions[1..], id, to);
      }
    }
  }

  lemma StepFated(s: State, a: Action, id: nat, to: Status)
    requires Inv(s) && Enabled(s, a) && id in s.execs && Fated(s.execs[id], to) && Terminal(to)
    ensures id in Step(s, a).execs && Fated(Step(s, a).execs[id], to)
  {
    StepOn(s, a, id);
    assert Held(s.execs[id]) && (a.Cancel? ==> a.id in InMap(s));
  }

  /** An execution that is suppressed is never run: it ends as it was to be, unless the daemon dies first and the next start cancels it. */
  lemma SuppressedEndsAs(s: State, id: nat, to: Status, actions: seq<Action>)
    requires Inv(s) && Enabled(s, Suppress(id, to))
    ensures var r := Run(Step(s, Suppress(id, to)), actions);
            id in r.execs && (var h := r.execs[id].history; h == [Pending] || h == [Pending, to] || h == [Pending, Cancelled])
  {
    StepKeeps(s, Suppress(id, to));
    RunKeepsFated(Step(s, Suppress(id, to)), actions, id, to);
  }

  /** After the reason was read, cancelling changes nothing. */
  lemma TooLate(s: State, id: nat)
    requires Inv(s) && s.up && id in s.execs && s.execs[id].stage.Decided?
    ensures id in Run(s, [Record(id)]).execs
    ensures StatusOf(Run(s, [Record(id)]).execs[id]) == s.execs[id].stage.status && Terminal(s.execs[id].stage.status)
  {
    assert Written(s.execs[id]);
    var s1 := Step(s, Record(id));
    assert [Record(id)][1..] == [];
    assert Run(s1, []) == s1;
  }

  lemma DoomedEnds(e: Exec)
    requires Written(e) && Doomed(e) && Terminal(StatusOf(e))
    ensures StatusOf(e) == Cancelled
  {
  }

  lemma CancelDooms(s: State, id: nat)
    requires Inv(s) && Enabled(s, Cancel(id)) && InTime(s.execs[id])
    ensures Doomed(Step(s, Cancel(id)).execs[id])
  {
    assert id in InMap(s);
    assert Written(s.execs[id]) && Held(s.execs[id]);
  }

  lemma InTimeIsCancelled(s: State, id: nat)
    requires Inv(s) && Enabled(s, Cancel(id)) && InTime(s.execs[id])
    ensures OnlyCancelled(Step(s, Cancel(id)), id)
  {
    var t := Step(s, Cancel(id));
    StepKeeps(s, Cancel(id));
    CancelDooms(s, id);
    forall actions | id in Run(t, actions).execs && Terminal(StatusOf(Run(t, actions).execs[id]))
      ensures StatusOf(Run(t, actions).execs[id]) == Cancelled
    {
      RunKeepsDoomed(t, actions, id);
      DoomedEnds(Run(t, actions).execs[id]);
    }
  }

  lemma EarlyIsNot(t: State, id: nat)
    requires Inv(t) && t.up && id in t.execs && t.execs[id].stage.Registered?
    ensures !OnlyCancelled(t, id)
  {
    TooEarly(t, id);
  }

  lemma LateIsNot(t: State, id: nat)
    requires Inv(t) && t.up && id in t.execs && t.execs[id].stage.Decided? && t.execs[id].stage.status != Cancelled
    ensures !OnlyCancelled(t, id)
  {
    TooLate(t, id);
  }

  lemma EndedIsNot(t: State, id: nat)
    requires id in t.execs && Terminal(StatusOf(t.execs[id])) && StatusOf(t.execs[id]) != Cancelled
    ensures !OnlyCancelled(t, id)
  {
    assert Run(t, []) == t;
  }

  lemma OutOfTimeIsNot(s: State, id: nat)
    requires Inv(s) && Enabled(s, Cancel(id)) && !InTime(s.execs[id])
    ensures !OnlyCancelled(Step(s, Cancel(id)), id)
  {
    var t := Step(s, Cancel(id));
    StepKeeps(s, Cancel(id));
    var e := s.execs[id];
    assert id in InMap(s) && Written(e) && Held(e);
    if e.stage.Registered? {
      EarlyIsNot(t, id);
    } else if e.stage.Decided? {
      LateIsNot(t, id);
    } else {
      EndedIsNot(t, id);
    }
  }

  /**
   Cancel answers true for every execution in the map; it decides the outcome
   exactly when the process has been started and the stop reason not yet read.
   Earlier the start fails and the run counts as a failure, later it is ignored.
   */
  lemma CancelDecidesExactlyInTime(s: State, id: nat)
    requires Inv(s) && Enabled(s, Cancel(id))
    ensures OnlyCancelled(Step(s, Cancel(id)), id) <==> InTime(s.execs[id])
  {
    if InTime(s.execs[id]) {
      InTimeIsCancelled(s, id);
    } else {
      OutOfTimeIsNot(s, id);
    }
  }

  /** No reason, then the timer's, then the user's. */
  function Rank(r: Reason): nat {
    match r case Unset => 0 case TimedOut => 1 case ByUser => 2
  }

  lemma AfterRaises(a: Action, e: Exec, id: nat)
    ensures Rank(AfterStep(a, e, id).reason) >= Rank(e.reason)
  {
  }

  /** Whatever the order of timers and users, the timer never overrides a user, and no reason is taken back. */
  lemma {:induction false} ReasonsOnlyRise(s: State, actions: seq<Action>, id: nat)
    requires id in s.execs
    ensures id in Run(s, actions).execs && Rank(Run(s, actions).execs[id].reason) >= Rank(s.execs[id].reason)
    decreases |actions|
  {
    if actions != [] {
      if Enabled(s, actions[0]) {
        StepOn(s, actions[0], id);
        AfterRaises(actions[0], s.execs[id], id);
        ReasonsOnlyRise(Step(s, actions[0]), actions[1..], id);
      } else {
        ReasonsOnlyRise(s, actions[1..], id);
      }
    }
  }

  // ---- one run from its queue to its end, with nobody in between ----------------------------------

  lemma PlainStep(s: State, a: Action)
    requires Plain(a) && s.up && At(s, a.id) && StageAllows(s, a, s.execs[a.id])
    ensures Enabled(s, a) && Step(s, a) == s.(execs := s.execs[a.id := Moved(a, s.execs[a.id])])
  {
  }

  class Executor {
    var s: State

    ghost predicate Valid()
      reads this
    {
      Inv(s)
    }

    constructor ()
      ensures Valid() && s == NOTHING
    {
      s := NOTHING;
      new;
      StartsInvariant();
    }

    method Do(a: Action)
      requires Valid() && Enabled(s, a)
      modifies this
      ensures Valid() && s == Step(old(s), a)
    {
      StepKeeps(s, a);
      s := Step(s, a);
    }

    /** A step that leaves the slots and the map of handles alone. */
    method Move(a: Action)
      requires Valid() && Plain(a) && s.up && At(s, a.id) && StageAllows(s, a, s.execs[a.id])
      modifies this
      ensures Valid() && s == old(s).(execs := old(s).execs[a.id := Moved(a, old(s).execs[a.id])])
    {
      PlainStep(s, a);
      Do(a);
    }

    /** True exactly for an execution in the map, whose reason is then the user's whatever it was. */
    method CancelRun(id: nat) returns (ok: bool)
      requires Valid() && s.up
      modifies this
      ensures Valid() && (ok <==> id in old(s).running)
      ensures s == if ok && id in old(s).execs then old(s).(execs := old(s).execs[id := old(s).execs[id].(reason := ByUser, stopped := true)]) else old(s)
      ensures ok ==> id in s.execs && s.execs[id].reason == ByUser && s.execs[id].stopped
    {
      ok := id in s.running;
      if ok {
        assert id in InMap(s);
        Move(Cancel(id));
        Move(Stop(id));
      }
    }

    method LeaveMap(id: nat)
      requires Valid() && s.up && id in s.execs && s.execs[id].stage.Closed?
      modifies this
      ensures Valid()
      ensures s == old(s).(running := old(s).running - {id},
                           execs := old(s).execs[id := old(s).execs[id].(stage := Left, registered := false)])
    {
      Do(Deregister(id));
    }

    method FreeSlot(id: nat)
      requires Valid() && s.up && id in s.execs && s.execs[id].stage.Left?
      modifies this
      ensures Valid() && s.sem == old(s).sem - (if old(s).execs[id].slot then 1 else 0)
      ensures s == old(s).(execs := old(s).execs[id := old(s).execs[id].(stage := Gone, slot := false)], sem := s.sem)
    {
      if s.execs[id].slot {
        assert id in Holders(s);
      }
      Do(Release(id));
    }

    /** The deferred ends of a run: its handle leaves the map, its slot is given back. */
    method GiveBack(id: nat)
      requires Valid() && s.up && id in s.execs && s.execs[id].stage.Closed?
      modifies this
      ensures Valid() && s.running == old(s).running - {id} && s.sem == old(s).sem - (if old(s).execs[id].slot then 1 else 0)
      ensures s == old(s).(execs := old(s).execs[id := old(s).execs[id].(stage := Gone, registered := false, slot := false)],
                           running := s.running, sem := s.sem)
    {
      LeaveMap(id);
      FreeSlot(id);
    }

    /** The row first, then the message. */
    method Conclude(id: nat)
      requires Valid() && s.up && id in s.execs && s.execs[id].stage.Decided?
      modifies this
      ensures Valid()
      ensures var e := old(s).execs[id]; var st := e.stage.status;
              s == old(s).(execs := old(s).execs[id := e.(stage := Announced(st), history := e.history + [st], notes := e.notes + [End(st)])])
    {
      Move(Record(id));
      Move(AnnounceEnd(id));
    }

    /** From the decision to the end: row, message and topic, then what the run held. */
    method Settle(id: nat)
      requires Valid() && s.up && id in s.execs && s.execs[id].stage.Decided?
      modifies this
      ensures Valid() && s.up && id in s.execs
      ensures var e, was := s.execs[id], old(s).execs[id];
              && e.stage == Gone && !e.slot && e.history == was.history + [was.stage.status] && e.notes == was.notes + [End(was.stage.status)]
      ensures s.sem == old(s).sem - (if old(s).execs[id].slot then 1 else 0)
      ensures s.running == old(s).running - {id} && s.execs == old(s).execs[id := s.execs[id]]
    {
      Conclude(id);
      Move(CloseTopic(id));
      GiveBack(id);
    }

    /** The process starts: its row and its readers learn that it runs. */
    method StartProcess(id: nat)
      requires Valid() && s.up && id in s.execs && s.execs[id].stage.Registered? && !s.execs[id].stopped && !s.shutdown
      modifies this
      ensures Valid()
      ensures var e := old(s).execs[id];
              s == old(s).(execs := old(s).execs[id := e.(stage := Live, history := e.history + [Running], notes := e.notes + [Progress(Running)])])
    {
      Move(StartOk(id));
      Move(Mark(id, true));
      Move(AnnounceRunning(id));
    }

    method Consume(id: nat, events: nat)
      requires Valid() && s.up && id in s.execs && s.execs[id].stage.Live?
      modifies this
      ensures Valid() && id in s.execs && |s.execs[id].notes| == |old(s).execs[id].notes| + events
      ensures s == old(s).(execs := old(s).execs[id := old(s).execs[id].(notes := s.execs[id].notes)])
    {
      for i := 0 to events
        invariant Valid() && id in s.execs && |s.execs[id].notes| == |old(s).execs[id].notes| + i
        invariant s == old(s).(execs := old(s).execs[id := old(s).execs[id].(notes := s.execs[id].notes)])
      {
        Move(Emit(id));
      }
    }

    /** The process runs to its end, or until its timer or the user stops it. */
    method EndProcess(id: nat, stop: Reason, outcome: Outcome)
      requires Valid() && s.up && id in s.execs && s.execs[id].stage.Live? && s.execs[id].reason.Unset? && s.execs[id].registered
      modifies this
      ensures Valid()
      ensures s == old(s).(execs := old(s).execs[id := old(s).execs[id].(
                     stage := Decided(Classify(outcome, stop)), reason := stop, stopped := !stop.Unset? || old(s).execs[id].stopped)])
    {
      if stop.TimedOut? {
        Move(Timer(id));
        Move(Stop(id));
      } else if stop.ByUser? {
        assert id in InMap(s);
        var ok := CancelRun(id);
      }
      Move(Wait(id, outcome));
    }

    /** The part of a run that needs a process, up to its classified outcome. */
    method Perform(id: nat, stop: Reason, events: nat, outcome: Outcome)
      requires Valid() && s.up && id in s.execs && s.execs[id].stage.Registered? && s.execs[id].reason.Unset?
      requires !s.execs[id].stopped && !s.shutdown && s.execs[id].registered
      modifies this
      ensures Valid() && id in s.execs && s.execs[id].stage == Decided(Classify(outcome, stop))
      ensures s.execs[id].history == old(s).execs[id].history + [Running] && s.execs[id].slot == old(s).execs[id].slot
      ensures s == old(s).(execs := old(s).execs[id := s.execs[id]])
    {
      StartProcess(id);
      Consume(id, events);
      EndProcess(id, stop, outcome);
    }

    method TakeSlot(id: nat)
      requires Valid() && s.up && id in s.execs && s.execs[id].stage.Queued? && s.sem < s.max
      modifies this
      ensures Valid()
      ensures s == old(s).(sem := old(s).sem + 1, execs := old(s).execs[id := old(s).execs[id].(stage := Slotted, slot := true)])
    {
      Do(Acquire(id));
    }

    method EnterMap(id: nat)
      requires Valid() && s.up && id in s.execs && s.execs[id].stage.Slotted?
      modifies this
      ensures Valid()
      ensures s == old(s).(running := old(s).running + {id},
                           execs := old(s).execs[id := old(s).execs[id].(stage := Registered, registered := true)])
    {
      Do(Register(id));
    }

    /** With a slot, from there to the decision how the run ends. */
    method Attempt(id: nat, located: bool, starts: bool, stop: Reason, events: nat, outcome: Outcome)
      requires Valid() && s.up && id in s.execs && s.execs[id].stage.Slotted? && s.execs[id].reason.Unset? && !s.execs[id].stopped
      requires starts ==> !s.shutdown
      modifies this
      ensures Valid() && s.up && id in s.execs && s.execs[id].slot == old(s).execs[id].slot
      ensures s.execs[id].stage == Decided(if located && starts then Classify(outcome, stop) else Failure)
      ensures s.execs[id].history == old(s).execs[id].history + if located && starts then [Running] else []
      ensures s.sem == old(s).sem && s.running - {id} == old(s).running - {id} && s.execs == old(s).execs[id := s.execs[id]]
    {
      if !located {
        Move(LocateFails(id));
        return;
      }
      EnterMap(id);
      if starts {
        Perform(id, stop, events, outcome);
      } else {
        Move(StartFails(id));
      }
    }

    method RunToDecision(id: nat, queueCut: bool, located: bool, starts: bool, stop: Reason, events: nat, outcome: Outcome)
      requires Valid() && s.up && id in s.execs && s.execs[id].stage.Queued? && s.execs[id].reason.Unset? && !s.execs[id].stopped
      requires if queueCut then s.shutdown else s.sem < s.max
      requires starts ==> !s.shutdown
      modifies this
      ensures Valid() && s.up && id in s.execs && s.execs[id].slot == !queueCut
      ensures s.execs[id].stage == Decided(if queueCut then Cancelled else if located && starts then Classify(outcome, stop) else Failure)
      ensures s.execs[id].history == old(s).execs[id].history + if !queueCut && located && starts then [Running] else []
      ensures s.sem == old(s).sem + (if queueCut then 0 else 1) && s.running - {id} == old(s).running && s.execs == old(s).execs[id := s.execs[id]]
    {
      assert Held(s.execs[id]) && id !in InMap(s);
      if queueCut {
        Move(QueueAbandon(id));
      } else {
        TakeSlot(id);
        Attempt(id, located, starts, stop, events, outcome);
      }
    }

    /**
     A queued execution is run to its end: one terminal status after pending or
     running, its slot and its handle given back, and no other execution touched.
     stop says whether its timer or a user stops it while its process runs.
     */
    method RunOne(id: nat, queueCut: bool, located: bool, starts: bool, stop: Reason, events: nat, outcome: Outcome) returns (ok: bool)
      requires Valid() && s.up && id in s.execs && s.execs[id].stage.Queued? && s.execs[id].reason.Unset? && !s.execs[id].stopped
      requires if queueCut then s.shutdown else s.sem < s.max
      requires starts ==> !s.shutdown
      modifies this
      ensures Valid() && id in s.execs && s.execs[id].stage.Gone?
      ensures ok <==> !queueCut && located && starts
      ensures s.execs[id].history ==
                if queueCut then [Pending, Cancelled]
                else if !ok then [Pending, Failure]
                else [Pending, Running, Classify(outcome, stop)]
      ensures s.sem == old(s).sem && s.running == old(s).running && s.execs == old(s).execs[id := s.execs[id]]
    {
      assert Written(s.execs[id]);
      ok := !queueCut && located && starts;
      RunToDecision(id, queueCut, located, starts, stop, events, outcome);
      Settle(id);
    }
  }
}
