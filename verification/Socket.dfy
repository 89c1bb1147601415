/**
 Ownership of the daemon's socket: any number of daemons starting, closing any
 number of times and dying at any step, over one lock file and one path.
 */
module Socket {
  import opened Common

  /** What stands at the socket path: nothing, some other file such as a socket from before, or the socket a daemon bound. */
  datatype Entry = Absent | Foreign | Bound(owner: nat)

  /** How far a start has come, or why it stopped. */
  datatype Stage = New | LockOpen | Locked | Cleared | Listening | Serving | Retreating | Refused | Failed | Dead

  /** How far one call of Close has come. */
  datatype Closer = Called | Unlinked | Shut | Done

  /** once: the listener's unlink has happened; fd: its descriptor is open. */
  datatype Daemon = Daemon(stage: Stage, once: bool, fd: bool, closers: seq<Closer>)

  datatype State = State(lock: Option<nat>, path: Entry, daemons: map<nat, Daemon>)

  datatype Action =
    | Start(d: nat)
    | Flock(d: nat)              // LOCK_NB: refused while another descriptor holds it
    | FlockError(d: nat)
    | Remove(d: nat, error: bool)
    | Bind(d: nat, error: bool)
    | Chmod(d: nat, error: bool)
    | Retreat(d: nat)            // after a failed chmod closed the listener
    | CallClose(d: nat)
    | Unlink(d: nat, call: nat)  // sync.Once: only the first call removes the path
    | CloseFd(d: nat, call: nat)
    | Unlock(d: nat, call: nat)
    | Kill(d: nat)               // SIGKILL or a crash: descriptors close, the path stays

  /** A bind takes a path that does not exist; everything else about it may also fail. */
  predicate BindFails(s: State, error: bool) {
    error || s.path != Absent
  }

  function Put(s: State, d: nat, m: Daemon): State {
    s.(daemons := s.daemons[d := m])
  }

  function Release(s: State, d: nat): State {
    if s.lock == Some(d) then s.(lock := None) else s
  }

  predicate AtCall(s: State, d: nat, call: nat, c: Closer) {
    d in s.daemons && s.daemons[d].stage.Serving? && call < |s.daemons[d].closers| && s.daemons[d].closers[call] == c
  }

  predicate Enabled(s: State, a: Action) {
    match a
    case Start(d) => d !in s.daemons
    case Flock(d) => d in s.daemons && s.daemons[d].stage.LockOpen?
    case FlockError(d) => d in s.daemons && s.daemons[d].stage.LockOpen?
    case Remove(d, _) => d in s.daemons && s.daemons[d].stage.Locked?
    case Bind(d, _) => d in s.daemons && s.daemons[d].stage.Cleared?
    case Chmod(d, _) => d in s.daemons && s.daemons[d].stage.Listening?
    case Retreat(d) => d in s.daemons && s.daemons[d].stage.Retreating?
    case CallClose(d) => d in s.daemons && s.daemons[d].stage.Serving?
    case Unlink(d, call) => AtCall(s, d, call, Called)
    case CloseFd(d, call) => AtCall(s, d, call, Unlinked)
    case Unlock(d, call) => AtCall(s, d, call, Shut)
    case Kill(d) => d in s.daemons && !s.daemons[d].stage.Dead?
  }

  function Advance(m: Daemon, call: nat, c: Closer): Daemon
    requires call < |m.closers|
  {
    m.(closers := m.closers[call := c])
  }

  function Step(s: State, a: Action): State
    requires Enabled(s, a)
  {
    match a
    case Start(d) => Put(s, d, Daemon(LockOpen, false, false, []))
    case Flock(d) =>
      if s.lock.None? then Put(s, d, s.daemons[d].(stage := Locked)).(lock := Some(d))
      else Put(s, d, s.daemons[d].(stage := Refused))
    case FlockError(d) => Put(s, d, s.daemons[d].(stage := Failed))
    case Remove(d, error) =>
      if error then Release(Put(s, d, s.daemons[d].(stage := Failed)), d)
      else Put(s, d, s.daemons[d].(stage := Cleared)).(path := Absent)
    case Bind(d, error) =>
      if BindFails(s, error) then Release(Put(s, d, s.daemons[d].(stage := Failed)), d)
      else Put(s, d, s.daemons[d].(stage := Listening, fd := true)).(path := Bound(d))
    case Chmod(d, error) =>
      if error then Put(s, d, s.daemons[d].(stage := Retreating, once := true, fd := false)).(path := Absent)
      else Put(s, d, s.daemons[d].(stage := Serving))
    case Retreat(d) => Release(Put(s, d, s.daemons[d].(stage := Failed)), d)
    case CallClose(d) => Put(s, d, s.daemons[d].(closers := s.daemons[d].closers + [Called]))
    case Unlink(d, call) =>
      var m := Advance(s.daemons[d], call, Unlinked);
      if m.once then Put(s, d, m) else Put(s, d, m.(once := true)).(path := Absent)
    case CloseFd(d, call) => Put(s, d, Advance(s.daemons[d], call, Shut).(fd := false))
    case Unlock(d, call) => Release(Put(s, d, Advance(s.daemons[d], call, Done)), d)
    case Kill(d) => Release(Put(s, d, s.daemons[d].(stage := Dead, fd := false)), d)
  }

  function Run(s: State, actions: seq<Action>): State
    decreases |actions|
  {
    if actions == [] then s
    else Run(if Enabled(s, actions[0]) then Step(s, actions[0]) else s, actions[1..])
  }

  /** Nobody has started yet; anything may lie at the path. */
  ghost predicate Initial(s: State) {
    s.lock.None? && s.daemons == map[] && !s.path.Bound?
  }

  /** Past the lock and not yet released by a Close. */
  predicate Inside(m: Daemon) {
    || m.stage.Locked? || m.stage.Cleared? || m.stage.Listening? || m.stage.Retreating?
    || (m.stage.Serving? && Done !in m.closers)
  }

  /** From bind until the first Close removes the path. */
  predicate Owns(m: Daemon) {
    m.stage.Listening? || (m.stage.Serving? && !m.once)
  }

  ghost predicate Orderly(s: State, d: nat)
    requires d in s.daemons
  {
    var m := s.daemons[d];
    && (s.lock == Some(d) <==> Inside(m))
    && (Owns(m) ==> s.path == Bound(d) && m.fd)
    && (m.stage.Cleared? ==> s.path == Absent)
    && (!m.stage.Serving? && !m.stage.Dead? ==> m.closers == [])
    && (!m.stage.Serving? && !m.stage.Dead? && !m.stage.Failed? && !m.stage.Retreating? ==> !m.once)
    && (m.stage.Serving? ==> forall c | c in m.closers && !c.Called? :: m.once)
    && (m.once ==> s.path != Bound(d))
    && (m.fd ==> m.stage.Listening? || m.stage.Serving?)
  }

  ghost predicate Inv(s: State) {
    && (s.lock.Some? ==> s.lock.value in s.daemons)
    && (s.path.Bound? ==> s.path.owner in s.daemons)
    && (forall d | d in s.daemons :: Orderly(s, d))
  }

  lemma OwnsInside(s: State, d: nat)
    requires d in s.daemons && Orderly(s, d) && Owns(s.daemons[d])
    ensures Inside(s.daemons[d])
  {
    var m := s.daemons[d];
    assert m.stage.Serving? && Done in m.closers ==> m.once;
  }

  lemma AfterAdvance(m: Daemon, call: nat, c: Closer)
    requires call < |m.closers|
    ensures var n := Advance(m, call, c);
            && c in n.closers
            && (forall x | x in n.closers :: x == c || x in m.closers)
            && (forall x | x in m.closers :: x == m.closers[call] || x in n.closers)
  {
    var n := Advance(m, call, c);
    assert n.closers[call] == c;
    forall x | x in m.closers && x != m.closers[call] ensures x in n.closers {
      var i :| 0 <= i < |m.closers| && m.closers[i] == x;
      assert n.closers[i] == x;
    }
  }

  /** What the step does to the daemon that takes it. */
  lemma ActorOrderly(s: State, a: Action)
    requires Inv(s) && Enabled(s, a)
    ensures Orderly(Step(s, a), a.d)
  {
    assert a.d in s.daemons ==> Orderly(s, a.d);
    if a.Unlink? || a.CloseFd? || a.Unlock? {
      var m := s.daemons[a.d];
      AfterAdvance(m, a.call, if a.Unlink? then Unlinked else if a.CloseFd? then Shut else Done);
      assert m.closers[a.call] in m.closers;
    }
  }

  /** What it leaves alone: only a daemon past the lock touches the lock or the path. */
  lemma OthersOrderly(s: State, a: Action, e: nat)
    requires Inv(s) && Enabled(s, a) && e in s.daemons && e != a.d
    ensures Orderly(Step(s, a), e)
  {
    assert Orderly(s, e) && (a.d in s.daemons ==> Orderly(s, a.d));
    if Owns(s.daemons[e]) {
      OwnsInside(s, e);
    }
    if a.Unlink? && !s.daemons[a.d].once {
      OwnsInside(s, a.d);
    }
  }

  lemma StepKeeps(s: State, a: Action)
    requires Inv(s) && Enabled(s, a)
    ensures Inv(Step(s, a))
  {
    var t := Step(s, a);
    ActorOrderly(s, a);
    forall e | e in t.daemons && e != a.d ensures Orderly(t, e) {
      OthersOrderly(s, a, e);
    }
    assert a.d in s.daemons ==> Orderly(s, a.d);
  }

  lemma {:induction false} RunKeeps(s: State, actions: seq<Action>)
    requires Inv(s)
    ensures Inv(Run(s, actions))
    decreases |actions|
  {
    if actions != [] {
      if Enabled(s, actions[0]) {
        StepKeeps(s, actions[0]);
        RunKeeps(Step(s, actions[0]), actions[1..]);
      } else {
        RunKeeps(s, actions[1..]);
      }
    }
  }

  /** At most one daemon is past the lock, and it is the one the lock names. */
  lemma AtMostOneOwner(s: State, actions: seq<Action>, d: nat, e: nat)
    requires Initial(s) && d in Run(s, actions).daemons && e in Run(s, actions).daemons
    requires Inside(Run(s, actions).daemons[d]) && Inside(Run(s, actions).daemons[e])
    ensures d == e && Run(s, actions).lock == Some(d)
  {
    RunKeeps(s, actions);
    assert Orderly(Run(s, actions), d) && Orderly(Run(s, actions), e);
  }

  /** From its bind to its first unlink, the path names a daemon's own open socket. */
  lemma PathNamesOwner(s: State, actions: seq<Action>, d: nat)
    requires Initial(s) && d in Run(s, actions).daemons && Owns(Run(s, actions).daemons[d])
    ensures Run(s, actions).path == Bound(d) && Run(s, actions).daemons[d].fd
  {
    RunKeeps(s, actions);
    assert Orderly(Run(s, actions), d);
  }

  /** Only the lock's holder ever changes the path, so a refused or second start changes nothing there. */
  lemma OnlyHolderTouchesPath(s: State, actions: seq<Action>, a: Action)
    requires Initial(s) && Enabled(Run(s, actions), a)
    requires Step(Run(s, actions), a).path != Run(s, actions).path
    ensures Run(s, actions).lock == Some(a.d)
  {
    RunKeeps(s, actions);
    assert Orderly(Run(s, actions), a.d);
  }

  /** A start is refused exactly when some other daemon is past the lock. */
  lemma RefusedIffServed(s: State, actions: seq<Action>, d: nat)
    requires Initial(s) && Enabled(Run(s, actions), Flock(d))
    ensures var r := Run(s, actions); var t := Step(r, Flock(d));
            && t.path == r.path
            && (t.daemons[d].stage.Refused? <==> exists e :: e in r.daemons && e != d && Inside(r.daemons[e]))
  {
    var r := Run(s, actions);
    RunKeeps(s, actions);
    assert Orderly(r, d);
    if r.lock.Some? {
      assert Orderly(r, r.lock.value);
    }
    forall e | e in r.daemons && Inside(r.daemons[e]) ensures r.lock == Some(e) {
      assert Orderly(r, e);
    }
  }

  lemma LockHolder(s: State)
    requires Inv(s)
    ensures s.lock.None? || (s.lock.value in s.daemons && Inside(s.daemons[s.lock.value]))
  {
    if s.lock.Some? {
      assert Orderly(s, s.lock.value);
    }
  }

  function ListenSteps(d: nat): seq<Action> {
    [Start(d), Flock(d), Remove(d, false), Bind(d, false), Chmod(d, false)]
  }

  /**
   Whatever happened before, and whatever it left at the path, once nobody alive
   is past the lock a start that meets no foreign error gets through and owns the path.
   */
  lemma ListenGetsThrough(s: State, actions: seq<Action>, d: nat)
    requires Initial(s) && d !in Run(s, actions).daemons
    requires forall e | e in Run(s, actions).daemons :: !Inside(Run(s, actions).daemons[e])
    ensures var t := Run(Run(s, actions), ListenSteps(d));
            d in t.daemons && t.daemons[d].stage.Serving? && t.path == Bound(d) && t.lock == Some(d)
  {
    var r := Run(s, actions);
    RunKeeps(s, actions);
    LockHolder(r);
    var s1 := Step(r, Start(d));
    var s2 := Step(s1, Flock(d));
    var s3 := Step(s2, Remove(d, false));
    var s4 := Step(s3, Bind(d, false));
    var s5 := Step(s4, Chmod(d, false));
    FiveSteps(r, s1, s2, s3, s4, s5, d);
  }

  /** A killed daemon is out, so the next start is not refused on its account. */
  lemma KillReleases(s: State, actions: seq<Action>, d: nat)
    requires Initial(s) && Enabled(Run(s, actions), Kill(d))
    ensures var r := Run(s, actions); var t := Step(r, Kill(d));
            && !Inside(t.daemons[d]) && t.path == r.path
            && (Inside(r.daemons[d]) ==> t.lock.None? && forall e | e in t.daemons :: !Inside(t.daemons[e]))
  {
    var r := Run(s, actions);
    RunKeeps(s, actions);
    StepKeeps(r, Kill(d));
    var t := Step(r, Kill(d));
    assert Orderly(r, d);
    forall e | e in t.daemons && Inside(t.daemons[e]) ensures t.lock == Some(e) {
      assert Orderly(t, e);
    }
  }

  // ---- why Close unlinks before it unlocks ---------------------------------------------------

  /** Close with its two lines exchanged: the lock first, the unlink afterwards. */
  function UnlockFirst(s: State, d: nat): State
    requires d in s.daemons
  {
    Release(s, d)
  }

  function UnlinkLast(s: State, d: nat): State
    requires d in s.daemons
  {
    Put(s, d, s.daemons[d].(once := true, fd := false)).(path := Absent)
  }

  /**
   Exchanged, they take away a new daemon's socket: e starts between the two
   lines, serves, and finds the path gone while it still holds the lock.
   */
  lemma ExchangedCloseBreaks(s: State, d: nat, e: nat)
    requires Inv(s) && d in s.daemons && s.daemons[d].stage.Serving? && Inside(s.daemons[d]) && e !in s.daemons
    ensures var t := Run(UnlockFirst(s, d), ListenSteps(e));
            && d in t.daemons && e in t.daemons && t.daemons[e].stage.Serving? && t.path == Bound(e)
            && Owns(UnlinkLast(t, d).daemons[e]) && UnlinkLast(t, d).path == Absent
  {
    assert Orderly(s, d);
    var r := UnlockFirst(s, d);
    var s1 := Step(r, Start(e));
    var s2 := Step(s1, Flock(e));
    var s3 := Step(s2, Remove(e, false));
    var s4 := Step(s3, Bind(e, false));
    var s5 := Step(s4, Chmod(e, false));
    FiveSteps(r, s1, s2, s3, s4, s5, e);
  }

  lemma FiveSteps(r: State, s1: State, s2: State, s3: State, s4: State, s5: State, d: nat)
    requires Enabled(r, Start(d)) && s1 == Step(r, Start(d))
    requires Enabled(s1, Flock(d)) && s2 == Step(s1, Flock(d))
    requires Enabled(s2, Remove(d, false)) && s3 == Step(s2, Remove(d, false))
    requires Enabled(s3, Bind(d, false)) && s4 == Step(s3, Bind(d, false))
    requires Enabled(s4, Chmod(d, false)) && s5 == Step(s4, Chmod(d, false))
    ensures Run(r, ListenSteps(d)) == s5
  {
    var steps := ListenSteps(d);
    assert steps[1..] == [Flock(d), Remove(d, false), Bind(d, false), Chmod(d, false)];
    assert steps[2..] == steps[1..][1..] == [Remove(d, false), Bind(d, false), Chmod(d, false)];
    assert steps[3..] == steps[2..][1..] == [Bind(d, false), Chmod(d, false)];
    assert steps[4..] == steps[3..][1..] == [Chmod(d, false)];
    assert steps[5..] == steps[4..][1..] == [];
    assert Run(s4, steps[4..]) == Run(s5, steps[5..]) == s5;
    assert Run(s3, steps[3..]) == Run(s4, steps[4..]);
    assert Run(s2, steps[2..]) == Run(s3, steps[3..]);
    assert Run(s1, steps[1..]) == Run(s2, steps[2..]);
  }

  // ---- clients -------------------------------------------------------------------------------

  /** Whether a connect to the path reaches a listener. */
  predicate Answers(s: State) {
    s.path.Bound? && s.path.owner in s.daemons && s.daemons[s.path.owner].fd
  }

  /** The probe every client makes first succeeds exactly while some daemon's socket is open at the path. */
  lemma AnswersIffServed(s: State, actions: seq<Action>)
    requires Initial(s)
    ensures var r := Run(s, actions);
            Answers(r) <==> exists d :: d in r.daemons && Owns(r.daemons[d])
  {
    var r := Run(s, actions);
    RunKeeps(s, actions);
    forall d | d in r.daemons && Owns(r.daemons[d]) ensures Answers(r) {
      assert Orderly(r, d);
    }
    if Answers(r) {
      assert Orderly(r, r.path.owner);
      assert Owns(r.daemons[r.path.owner]);
    }
  }

  // ---- one call of Listen or Close, with nobody in between ---------------------------------------

  class Machine {
    var s: State

    ghost predicate Valid()
      reads this
    {
      Inv(s)
    }

    constructor (path: Entry)
      requires !path.Bound?
      ensures Valid() && s == State(None, path, map[])
    {
      s := State(None, path, map[]);
    }

    method Do(a: Action)
      requires Valid() && Enabled(s, a)
      modifies this
      ensures Valid() && s == Step(old(s), a)
    {
      StepKeeps(s, a);
      s := Step(s, a);
    }

    /** Succeeds exactly when the lock is free and no call fails; a start that gives up leaves the lock as it was. */
    method Listen(d: nat, lockFails: bool, removeFails: bool, bindFails: bool, chmodFails: bool) returns (ok: bool)
      requires Valid() && d !in s.daemons
      modifies this
      ensures Valid() && d in s.daemons
      ensures ok <==> old(s.lock).None? && !lockFails && !removeFails && !bindFails && !chmodFails
      ensures ok ==> s.lock == Some(d) && s.path == Bound(d) && s.daemons[d] == Daemon(Serving, false, true, [])
      ensures !ok ==> s.lock == old(s.lock) && !Inside(s.daemons[d]) && !s.daemons[d].fd
      ensures old(s.lock).Some? || lockFails || removeFails ==> s.path == old(s.path)
      ensures forall e | e in old(s.daemons) :: e in s.daemons && s.daemons[e] == old(s.daemons)[e]
    {
      Do(Start(d));
      if lockFails {
        Do(FlockError(d));
        return false;
      }
      Do(Flock(d));
      if s.daemons[d].stage.Refused? {
        return false;
      }
      Do(Remove(d, removeFails));
      if removeFails {
        return false;
      }
      Do(Bind(d, bindFails));
      if bindFails {
        return false;
      }
      Do(Chmod(d, chmodFails));
      if chmodFails {
        Do(Retreat(d));
        return false;
      }
      return true;
    }

    /** The first call removes the path and frees the lock; a later one touches neither. */
    method Close(d: nat)
      requires Valid() && d in s.daemons && s.daemons[d].stage.Serving?
      modifies this
      ensures Valid() && d in s.daemons && !Inside(s.daemons[d]) && !s.daemons[d].fd
      ensures s.path == if old(s.daemons[d].once) then old(s.path) else Absent
      ensures s.lock == if old(Inside(s.daemons[d])) then None else old(s.lock)
      ensures forall e | e in old(s.daemons) && e != d :: e in s.daemons && s.daemons[e] == old(s.daemons)[e]
    {
      assert Orderly(s, d);
      var call := |s.daemons[d].closers|;
      Do(CallClose(d));
      Do(Unlink(d, call));
      Do(CloseFd(d, call));
      Do(Unlock(d, call));
      assert s.daemons[d].closers[call] == Done;
    }
  }
}
