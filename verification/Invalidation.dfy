/**
 What dropping a cached check result achieves: when every later check of the
 target is answered by a probe begun afterwards, for kinds probed one target at
 a time and for kinds probed in bulk over a memo of their own.
 */
module Invalidation {
  import opened Common
  import opened Checks
  import opened Health

  // ---- nothing older ------------------------------------------------------------------------

  /** A call of the key has nothing from a probe before n to publish; one that came at m or later has nothing such at all. */
  predicate NotOlder(s: State, c: nat, n: nat, m: nat)
    requires c < |s.calls|
  {
    match s.calls[c].stage
    case Running(_, p) => p >= n
    case Listed(_, snap, _) => snap.probe >= n
    case Obtained(_, v, _) => v.probe >= n
    case Holding(e) => c >= m && e.Some? ==> e.value.verdict.probe >= n || e.value.expiry <= s.now
    case Waiting(f) => c >= m && f < |s.flights| && s.flights[f].done.Some? ==> s.flights[f].done.value.probe >= n
    case Returned(_, via) => c >= m ==> ProbeOf(s, via) >= n
    case _ => true
  }

  /** A call of another target of the kind: its snapshot reaches k only through the memo or by warming. */
  predicate SiblingNotOlder(s: State, k: Key, c: nat, n: nat)
    requires c < |s.calls|
  {
    match s.calls[c].stage
    case Running(_, p) => p >= n || TTL(s, k) == 0
    case Listed(_, snap, _) => snap.probe >= n || TTL(s, k) == 0 || k.target !in snap.states
    case _ => true
  }

  predicate IsSiblingCall(s: State, k: Key, c: nat)
    requires c < |s.calls|
  {
    s.calls[c].key != k && s.calls[c].key.kind == k.kind && k.kind in s.checkers.bulk
  }

  ghost predicate CacheNotOlder(s: State, k: Key, n: nat) {
    k in s.cache ==> s.cache[k].verdict.probe >= n || s.cache[k].expiry <= s.now
  }

  ghost predicate MemoNotOlder(s: State, k: Key, n: nat) {
    k.kind in s.memo ==> s.memo[k.kind].probe >= n || s.memo[k.kind].at + TTL(s, k) <= s.now
  }

  /** Whatever can still answer k comes from probe n or later. */
  ghost predicate NothingOlder(s: State, k: Key, n: nat, m: nat) {
    && n <= |s.log| && m <= |s.calls| && CacheNotOlder(s, k, n) && MemoNotOlder(s, k, n)
    && (forall c: nat | c < |s.calls| && s.calls[c].key == k :: NotOlder(s, c, n, m))
    && (forall c: nat | c < |s.calls| && IsSiblingCall(s, k, c) :: SiblingNotOlder(s, k, c, n))
  }

  // ---- every step keeps it ----------------------------------------------------------------------

  /** A flight of k that completes in this step does so with a probe that is not older. */
  ghost predicate CompletesNewer(s: State, t: State, k: Key, n: nat) {
    forall f: nat | f < |s.flights| && f < |t.flights| && s.flights[f].key == k && s.flights[f].done.None? && t.flights[f].done.Some? ::
      t.flights[f].done.value.probe >= n
  }

  lemma StepCompletesNewer(s: State, a: Action, k: Key, n: nat, m: nat)
    requires Inv(s) && Enabled(s, a) && NothingOlder(s, k, n, m)
    ensures CompletesNewer(s, Step(s, a), k, n)
  {
    if a.Publish? {
      assert CallFine(s, a.c) && (s.calls[a.c].key == k ==> NotOlder(s, a.c, n, m));
    }
  }

  lemma BystanderNotOlder(s: State, t: State, k: Key, c: nat, n: nat, m: nat)
    requires Later(s, t) && n <= |s.log| && c < |s.calls| && c < |t.calls| && t.calls[c] == s.calls[c]
    requires s.calls[c].key == k && CallFine(s, c) && NotOlder(s, c, n, m) && CompletesNewer(s, t, k, n)
    ensures NotOlder(t, c, n, m)
  {
  }

  /** Beginning takes a memo that is fresh, or starts a new probe. */
  lemma BeginNotOlder(s: State, c: nat, k: Key, n: nat)
    requires Enabled(s, Begin(c)) && n <= |s.log| && MemoNotOlder(s, k, n) && s.calls[c].key.kind == k.kind
    ensures var t := DoBegin(s, c);
            c < |t.calls| && (t.calls[c].stage.Running? || t.calls[c].stage.Listed?) && ProbeBegun(t.calls[c].stage) >= n
  {
  }

  /** Publishing returns what the call obtained, and leaves no old result behind. */
  lemma PublishNotOlder(s: State, c: nat, k: Key, n: nat, m: nat)
    requires Inv(s) && Enabled(s, Publish(c)) && NothingOlder(s, k, n, m) && s.calls[c].key == k
    ensures c < |DoPublish(s, c).calls| && NotOlder(DoPublish(s, c), c, n, m)
  {
    assert CallFine(s, c) && NotOlder(s, c, n, m);
  }

  /** The step of a call of k itself, but for beginning. */
  lemma ActorNotOlder(s: State, a: Action, k: Key, n: nat, m: nat)
    requires Inv(s) && Enabled(s, a) && NothingOlder(s, k, n, m) && !a.Begin?
    requires !a.Ask? && !a.Invalidate? && !a.InvalidateKind? && !a.Tick? && s.calls[a.c].key == k
    ensures a.c < |Step(s, a).calls| && NotOlder(Step(s, a), a.c, n, m)
  {
    if a.Publish? {
      PublishNotOlder(s, a.c, k, n, m);
    } else {
      assert CallFine(s, a.c) && NotOlder(s, a.c, n, m);
    }
  }

  lemma CallsNotOlder(s: State, a: Action, k: Key, n: nat, m: nat, c: nat)
    requires Inv(s) && Enabled(s, a) && NothingOlder(s, k, n, m) && c < |Step(s, a).calls| && Step(s, a).calls[c].key == k
    ensures NotOlder(Step(s, a), c, n, m)
  {
    var t := Step(s, a);
    StepMovesOne(s, a);
    if c < |s.calls| {
      assert CallFine(s, c) && NotOlder(s, c, n, m);
      if t.calls[c] == s.calls[c] {
        StepLater(s, a);
        StepCompletesNewer(s, a, k, n, m);
        BystanderNotOlder(s, t, k, c, n, m);
      } else if a.Begin? {
        BeginNotOlder(s, c, k, n);
      } else {
        ActorNotOlder(s, a, k, n, m);
      }
    }
  }

  lemma SiblingsNotOlder(s: State, a: Action, k: Key, n: nat, m: nat, c: nat)
    requires Inv(s) && Enabled(s, a) && NothingOlder(s, k, n, m) && c < |Step(s, a).calls| && IsSiblingCall(Step(s, a), k, c)
    ensures SiblingNotOlder(Step(s, a), k, c, n)
  {
    var t := Step(s, a);
    StepMovesOne(s, a);
    StepLater(s, a);
    if c < |s.calls| {
      assert SiblingNotOlder(s, k, c, n) && CallFine(s, c);
      if a.Begin? && c == a.c {
        BeginNotOlder(s, c, k, n);
      }
    }
  }

  lemma PublishCacheStays(s: State, c: nat, k: Key, n: nat, m: nat)
    requires NothingOlder(s, k, n, m) && Enabled(s, Publish(c))
    ensures CacheNotOlder(DoPublish(s, c), k, n)
  {
    assert s.calls[c].key == k ==> NotOlder(s, c, n, m);
  }

  lemma WarmCacheStays(s: State, c: nat, k: Key, n: nat, m: nat)
    requires Inv(s) && NothingOlder(s, k, n, m) && Enabled(s, Warm(c))
    ensures CacheNotOlder(DoWarm(s, c), k, n)
  {
    var g := s.calls[c].stage;
    assert CallFine(s, c);
    WarmedAt(s.cache, s.calls[c].key, g.snap, g.got, s.now, TTL(s, s.calls[c].key), k);
    assert IsSiblingCall(s, k, c) ==> SiblingNotOlder(s, k, c, n);
  }

  lemma CacheStays(s: State, a: Action, k: Key, n: nat, m: nat)
    requires Inv(s) && Enabled(s, a) && NothingOlder(s, k, n, m)
    ensures CacheNotOlder(Step(s, a), k, n)
  {
    if a.Publish? {
      PublishCacheStays(s, a.c, k, n, m);
    } else if a.Warm? {
      WarmCacheStays(s, a.c, k, n, m);
    }
  }

  lemma ListMemoStays(s: State, c: nat, states: map<string, CheckState>, k: Key, n: nat, m: nat)
    requires NothingOlder(s, k, n, m) && Enabled(s, ListEnds(c, states))
    ensures MemoNotOlder(DoList(s, c, states), k, n)
  {
    assert s.calls[c].key == k ==> NotOlder(s, c, n, m);
    assert IsSiblingCall(s, k, c) ==> SiblingNotOlder(s, k, c, n);
  }

  lemma MemoStays(s: State, a: Action, k: Key, n: nat, m: nat)
    requires Inv(s) && Enabled(s, a) && NothingOlder(s, k, n, m)
    ensures MemoNotOlder(Step(s, a), k, n)
  {
    if a.ListEnds? {
      ListMemoStays(s, a.c, a.states, k, n, m);
    }
  }

  lemma StepNothingOlder(s: State, a: Action, k: Key, n: nat, m: nat)
    requires Inv(s) && Enabled(s, a) && NothingOlder(s, k, n, m)
    ensures NothingOlder(Step(s, a), k, n, m)
  {
    var t := Step(s, a);
    StepLater(s, a);
    StepMovesOne(s, a);
    CacheStays(s, a, k, n, m);
    MemoStays(s, a, k, n, m);
    forall c: nat | c < |t.calls| && t.calls[c].key == k ensures NotOlder(t, c, n, m) {
      CallsNotOlder(s, a, k, n, m, c);
    }
    forall c: nat | c < |t.calls| && IsSiblingCall(t, k, c) ensures SiblingNotOlder(t, k, c, n) {
      SiblingsNotOlder(s, a, k, n, m, c);
    }
  }

  lemma {:induction false} RunNothingOlder(s: State, actions: seq<Action>, k: Key, n: nat, m: nat)
    requires Inv(s) && NothingOlder(s, k, n, m)
    ensures NothingOlder(Run(s, actions), k, n, m)
    decreases |actions|
  {
    if actions != [] {
      if Enabled(s, actions[0]) {
        StepKeeps(s, actions[0]);
        StepNothingOlder(s, actions[0], k, n, m);
        RunNothingOlder(Step(s, actions[0]), actions[1..], k, n, m);
      } else {
        RunNothingOlder(s, actions[1..], k, n, m);
      }
    }
  }

  // ---- when a later check probes anew ---------------------------------------------------------------

  /** A call of k made after s, in this continuation, is not answered with a probe begun before. */
  predicate AnsweredAnew(s: State, k: Key, actions: seq<Action>, c: nat) {
    var r := Run(s, actions);
    |s.calls| <= c < |r.calls| && r.calls[c].key == k && r.calls[c].stage.Returned? ==>
      ProbeOf(r, r.calls[c].stage.via) >= |s.log|
  }

  /** However the run goes on, a call made after this one is answered with a probe begun after it. */
  ghost predicate Reprobes(s: State, k: Key) {
    forall actions, c: nat :: AnsweredAnew(s, k, actions, c)
  }

  /** The memo of the kind would still be taken. */
  predicate MemoIsFresh(s: State, k: Key) {
    k.kind in s.checkers.bulk && k.kind in s.memo && s.now < s.memo[k.kind].at + TTL(s, k)
  }

  /** A call of another target that will leave a fresh memo, or a fresh entry for k. */
  predicate WillSpill(s: State, k: Key, c: nat) {
    && c < |s.calls| && IsSiblingCall(s, k, c) && TTL(s, k) > 0
    && (s.calls[c].stage.Running? || (s.calls[c].stage.Listed? && k.target in s.calls[c].stage.snap.states))
  }

  /** Something begun before can still answer a check of k. */
  ghost predicate UnderWay(s: State, k: Key) {
    (exists c: nat :: Begun(s, k, c)) || MemoIsFresh(s, k) || (exists c: nat :: WillSpill(s, k, c))
  }

  /** The target's entry is dropped, or all entries of its kind. */
  predicate Drops(a: Action, k: Key) {
    a == Invalidate(k) || a == InvalidateKind(k.kind)
  }

  lemma InvalidatedReprobes(s: State, a: Action, k: Key)
    requires Inv(s) && !UnderWay(s, k) && Drops(a, k)
    ensures Reprobes(Step(s, a), k)
  {
    var t := Step(s, a);
    StepKeeps(s, a);
    forall c: nat | c < |t.calls| && t.calls[c].key == k ensures NotOlder(t, c, |t.log|, |t.calls|) {
      assert CallFine(s, c) && !Begun(s, k, c);
    }
    forall c: nat | c < |t.calls| && IsSiblingCall(t, k, c) ensures SiblingNotOlder(t, k, c, |t.log|) {
      assert CallFine(s, c) && !WillSpill(s, k, c);
    }
    assert k.kind in t.memo ==> SnapshotFine(t, k.kind, t.memo[k.kind]);
    forall actions, c: nat ensures AnsweredAnew(t, k, actions, c) {
      RunNothingOlder(t, actions, k, |t.log|, |t.calls|);
      assert c < |Run(t, actions).calls| && Run(t, actions).calls[c].key == k ==> NotOlder(Run(t, actions), c, |t.log|, |t.calls|);
    }
  }

  // ---- every flight has somebody to finish it -----------------------------------------------------------

  predicate IsManned(s: State, k: Key)
    requires k in s.inflight
  {
    OfFlight(s, k, s.inflight[k]) &&
    var o := s.flights[s.inflight[k]].owner;
    o < |s.calls| && s.calls[o].key == k && Owns(s.calls[o]) && s.calls[o].stage.f == s.inflight[k]
  }

  ghost predicate Manned(s: State) {
    forall k | k in s.inflight :: IsManned(s, k)
  }

  /** A call that owns a flight goes on to own it until it publishes. */
  lemma OwnerStays(s: State, a: Action, o: nat)
    requires Enabled(s, a) && o < |s.calls| && Owns(s.calls[o]) && !(a.Publish? && a.c == o)
    ensures o < |Step(s, a).calls| && Step(s, a).calls[o].key == s.calls[o].key
    ensures Owns(Step(s, a).calls[o]) && Step(s, a).calls[o].stage.f == s.calls[o].stage.f
  {
    StepMovesOne(s, a);
  }

  lemma FlightStays(s: State, a: Action, k: Key)
    requires Enabled(s, a) && k in s.inflight && k in Step(s, a).inflight
    ensures Step(s, a).inflight[k] == s.inflight[k] && !(a.Publish? && s.calls[a.c].key == k)
  {
  }

  lemma StaysManned(s: State, a: Action, k: Key)
    requires Inv(s) && Enabled(s, a) && k in s.inflight && IsManned(s, k) && k in Step(s, a).inflight
    ensures IsManned(Step(s, a), k)
  {
    FlightStays(s, a, k);
    StepLater(s, a);
    OwnerStays(s, a, s.flights[s.inflight[k]].owner);
  }

  lemma StepManned(s: State, a: Action)
    requires Inv(s) && Manned(s) && Enabled(s, a)
    ensures Manned(Step(s, a))
  {
    var t := Step(s, a);
    forall k | k in t.inflight ensures IsManned(t, k) {
      if k in s.inflight {
        StaysManned(s, a, k);
      }
    }
  }

  lemma {:induction false} RunManned(s: State, actions: seq<Action>)
    requires Inv(s) && Manned(s)
    ensures Inv(Run(s, actions)) && Manned(Run(s, actions))
    decreases |actions|
  {
    if actions != [] {
      if Enabled(s, actions[0]) {
        StepKeeps(s, actions[0]);
        StepManned(s, actions[0]);
        RunManned(Step(s, actions[0]), actions[1..]);
      } else {
        RunManned(s, actions[1..]);
      }
    }
  }

  // ---- what is under way still answers ---------------------------------------------------------------------

  /** A check made now returns, in some continuation, what a probe before n found. */
  ghost predicate Stale(s: State, k: Key, n: nat, m: nat) {
    exists actions, c: nat :: IsStale(s, k, n, m, actions, c)
  }

  predicate IsStale(s: State, k: Key, n: nat, m: nat, actions: seq<Action>, c: nat) {
    var r := Run(s, actions);
    m <= c < |r.calls| && r.calls[c].key == k && r.calls[c].stage.Returned? && ProbeOf(r, r.calls[c].stage.via) < n
  }

  lemma StaleIsNotAnew(s: State, k: Key)
    ensures Stale(s, k, |s.log|, |s.calls|) <==> !Reprobes(s, k)
  {
    forall actions, c: nat ensures IsStale(s, k, |s.log|, |s.calls|, actions, c) <==> !AnsweredAnew(s, k, actions, c) {
    }
  }

  lemma RunCons(s: State, a: Action, rest: seq<Action>)
    ensures Run(s, [a] + rest) == Run(Do(s, a), rest)
  {
    assert ([a] + rest)[1..] == rest;
  }

  /** What is stale after a step is stale before it. */
  lemma StaleBefore(s: State, a: Action, k: Key, n: nat, m: nat)
    requires Stale(Do(s, a), k, n, m)
    ensures Stale(s, k, n, m)
  {
    var actions, c: nat :| IsStale(Do(s, a), k, n, m, actions, c);
    RunCons(s, a, actions);
    assert IsStale(s, k, n, m, [a] + actions, c);
  }

  lemma StaleNow(s: State, k: Key, n: nat, m: nat, c: nat)
    requires m <= c < |s.calls| && s.calls[c].key == k && s.calls[c].stage.Returned? && ProbeOf(s, s.calls[c].stage.via) < n
    ensures Stale(s, k, n, m)
  {
    assert Run(s, []) == s;
    assert IsStale(s, k, n, m, [], c);
  }

  lemma StaleBeforeThree(s: State, a: Action, b: Action, d: Action, k: Key, n: nat, m: nat)
    requires Stale(Do(Do(Do(s, a), b), d), k, n, m)
    ensures Stale(s, k, n, m)
  {
    StaleBefore(Do(Do(s, a), b), d, k, n, m);
    StaleBefore(Do(s, a), b, k, n, m);
    StaleBefore(s, a, k, n, m);
  }

  /** The owner o of a flight publishes, and then a waiter c, if it is another call, returns what o found. */
  lemma PublishedIsStale(s: State, k: Key, o: nat, c: nat, n: nat, m: nat)
    requires o < |s.calls| && s.calls[o].key == k && s.calls[o].stage.Obtained? && s.calls[o].stage.verdict.probe < n
    requires s.calls[o].stage.f < |s.flights| && m <= c < |s.calls| && s.calls[c].key == k
    requires c == o || s.calls[c].stage == Waiting(s.calls[o].stage.f)
    ensures Stale(s, k, n, m)
  {
    var t := Do(s, Publish(o));
    var u := Do(t, Awake(c));
    StaleNow(u, k, n, m, c);
    StaleBefore(t, Awake(c), k, n, m);
    StaleBefore(s, Publish(o), k, n, m);
  }

  /** One way in which what o has begun comes to a result. */
  function Ending(s: State, o: nat): Action
    requires o < |s.calls|
  {
    if s.calls[o].stage.Listed? then Warm(o)
    else if IsBulk(s, s.calls[o]) then ListFails(o)
    else Finish(o, Healthy)
  }

  /** Call o has come from g to a result, and nothing else has moved. */
  ghost predicate Ended(s: State, t: State, o: nat, g: Stage)
    requires o < |s.calls| && (g.Running? || g.Listed?)
  {
    && t.flights == s.flights && |t.calls| == |s.calls| && t.calls[o].key == s.calls[o].key
    && t.calls[o].stage.Obtained? && t.calls[o].stage.f == g.f && t.calls[o].stage.verdict.probe == ProbeBegun(g)
    && forall d: nat | d < |s.calls| && d != o :: t.calls[d] == s.calls[d]
  }

  lemma ProbeEnds(s: State, o: nat, state: CheckState, found: Finding)
    requires o < |s.calls| && s.calls[o].stage.Running?
    ensures Ended(s, DoObtain(s, o, state, found), o, s.calls[o].stage)
  {
  }

  lemma SnapshotEnds(s: State, o: nat)
    requires o < |s.calls| && s.calls[o].stage.Listed?
    ensures Ended(s, DoWarm(s, o), o, s.calls[o].stage)
  {
  }

  lemma EndingStep(s: State, o: nat)
    requires o < |s.calls| && (s.calls[o].stage.Running? || s.calls[o].stage.Listed?)
    ensures Do(s, Ending(s, o)) ==
              if s.calls[o].stage.Listed? then DoWarm(s, o)
              else if IsBulk(s, s.calls[o]) then DoObtain(s, o, Unavailable, NoListing)
              else DoObtain(s, o, Healthy, Reported(Healthy))
  {
  }

  lemma EndsObtained(s: State, o: nat)
    requires o < |s.calls| && (s.calls[o].stage.Running? || s.calls[o].stage.Listed?)
    ensures Ended(s, Do(s, Ending(s, o)), o, s.calls[o].stage)
  {
    EndingStep(s, o);
    if s.calls[o].stage.Listed? {
      SnapshotEnds(s, o);
    } else if IsBulk(s, s.calls[o]) {
      ProbeEnds(s, o, Unavailable, NoListing);
    } else {
      ProbeEnds(s, o, Healthy, Reported(Healthy));
    }
  }

  /** However the probe of o ends, o comes to publish what it began. */
  lemma BegunIsStale(s: State, k: Key, o: nat, c: nat, n: nat, m: nat)
    requires Begun(s, k, o) && ProbeBegun(s.calls[o].stage) < n && s.calls[o].stage.f < |s.flights|
    requires m <= c < |s.calls| && s.calls[c].key == k && (c == o || s.calls[c].stage == Waiting(s.calls[o].stage.f))
    ensures Stale(s, k, n, m)
  {
    if s.calls[o].stage.Obtained? {
      PublishedIsStale(s, k, o, c, n, m);
    } else {
      EndsObtained(s, o);
      PublishedIsStale(Do(s, Ending(s, o)), k, o, c, n, m);
      StaleBefore(s, Ending(s, o), k, n, m);
    }
  }

  /** A forced check that has come to the point of joining. */
  function Arrived(s: State, k: Key): State {
    s.(calls := s.calls + [Call(k, true, Missed)])
  }

  lemma Arrives(s: State, k: Key, n: nat, m: nat)
    requires k.kind in s.checkers.ttl && Stale(Arrived(s, k), k, n, m)
    ensures Stale(s, k, n, m)
  {
    var s1 := Do(s, Ask(k, true));
    assert Do(s1, Read(|s.calls|)).calls == s.calls + [Call(k, true, Missed)];
    StaleBefore(s1, Read(|s.calls|), k, n, m);
    StaleBefore(s, Ask(k, true), k, n, m);
  }

  /** A call of k that has begun answers a check made now. */
  lemma OwnBegunIsStale(s: State, k: Key, o: nat)
    requires Inv(s) && k.kind in s.checkers.ttl && Begun(s, k, o)
    ensures Stale(s, k, |s.log|, |s.calls|)
  {
    var c, t := |s.calls|, Arrived(s, k);
    assert CallFine(s, o);
    var u := Do(t, Join(c));
    assert u.calls == s.calls + [Call(k, true, Waiting(s.calls[o].stage.f))];
    BegunIsStale(u, k, o, c, |s.log|, |s.calls|);
    StaleBefore(t, Join(c), k, |s.log|, |s.calls|);
    Arrives(s, k, |s.log|, |s.calls|);
  }

  // The memo of a bulk kind, and what other targets of the kind leave.

  /** Whoever comes to probe next takes the fresh memo. */
  lemma MemoTaken(s: State, k: Key, o: nat, c: nat, n: nat, m: nat)
    requires MemoIsFresh(s, k) && s.memo[k.kind].probe < n
    requires o < |s.calls| && s.calls[o].key == k && s.calls[o].stage.Probing? && s.calls[o].stage.f < |s.flights|
    requires m <= c < |s.calls| && s.calls[c].key == k && (c == o || s.calls[c].stage == Waiting(s.calls[o].stage.f))
    ensures Stale(s, k, n, m)
  {
    var u := Do(s, Begin(o));
    assert u.calls[o].stage == Listed(s.calls[o].stage.f, s.memo[k.kind], s.now);
    BegunIsStale(u, k, o, c, n, m);
    StaleBefore(s, Begin(o), k, n, m);
  }

  /** The flight that a check made now joins or starts, and who is to finish it. */
  lemma JoinsSomebody(s: State, k: Key) returns (o: nat)
    requires Inv(s) && Manned(s) && (forall c: nat :: !Begun(s, k, c))
    ensures var u, c := Do(Arrived(s, k), Join(|s.calls|)), |s.calls|;
            && |u.calls| == |s.calls| + 1 && u.calls[c].key == k && u.memo == s.memo && u.now == s.now && u.checkers == s.checkers
            && o < |u.calls| && u.calls[o].key == k && u.calls[o].stage.Probing? && u.calls[o].stage.f < |u.flights|
            && (c == o || u.calls[c].stage == Waiting(u.calls[o].stage.f))
  {
    if k in s.inflight {
      o := s.flights[s.inflight[k]].owner;
      assert IsManned(s, k) && !Begun(s, k, o);
    } else {
      o := |s.calls|;
    }
  }

  lemma FreshMemoIsStale(s: State, k: Key)
    requires Inv(s) && Manned(s) && k.kind in s.checkers.ttl && MemoIsFresh(s, k) && forall c: nat :: !Begun(s, k, c)
    ensures Stale(s, k, |s.log|, |s.calls|)
  {
    var u := Do(Arrived(s, k), Join(|s.calls|));
    assert SnapshotFine(s, k.kind, s.memo[k.kind]);
    var o := JoinsSomebody(s, k);
    MemoTaken(u, k, o, |s.calls|, |s.log|, |s.calls|);
    StaleBefore(Arrived(s, k), Join(|s.calls|), k, |s.log|, |s.calls|);
    Arrives(s, k, |s.log|, |s.calls|);
  }

  /** A running listing for another target leaves a fresh memo. */
  lemma ListingSpills(s: State, k: Key, o: nat)
    requires Inv(s) && Manned(s) && k.kind in s.checkers.ttl && WillSpill(s, k, o) && s.calls[o].stage.Running?
    requires forall c: nat :: !Begun(s, k, c)
    ensures Stale(s, k, |s.log|, |s.calls|)
  {
    var a := ListEnds(o, map[]);
    var t := Do(s, a);
    StepKeeps(s, a);
    StepManned(s, a);
    forall c: nat ensures !Begun(t, k, c) {
      assert !Begun(s, k, c);
    }
    FreshMemoIsStale(t, k);
    StaleBefore(s, a, k, |s.log|, |s.calls|);
  }

  /** A snapshot about to be spread to the siblings leaves a fresh entry. */
  lemma WarmingSpills(s: State, k: Key, o: nat)
    requires Inv(s) && k.kind in s.checkers.ttl && WillSpill(s, k, o) && s.calls[o].stage.Listed?
    ensures Stale(s, k, |s.log|, |s.calls|)
  {
    var c, g := |s.calls|, s.calls[o].stage;
    assert CallFine(s, o);
    var t := Do(s, Warm(o));
    WarmedAt(s.cache, s.calls[o].key, g.snap, g.got, s.now, TTL(s, s.calls[o].key), k);
    EntryIsStale(t, k, |s.log|);
    StaleBefore(s, Warm(o), k, |s.log|, |s.calls|);
  }

  lemma EntryIsStale(s: State, k: Key, n: nat)
    requires k.kind in s.checkers.ttl && k in s.cache && s.now < s.cache[k].expiry && s.cache[k].verdict.probe < n
    ensures Stale(s, k, n, |s.calls|)
  {
    var c := |s.calls|;
    var s1 := Do(s, Ask(k, false));
    var s2 := Do(s1, Read(c));
    var s3 := Do(s2, Test(c));
    assert s1.calls == s.calls + [Call(k, false, Asked)];
    assert s2.calls == s.calls + [Call(k, false, Holding(Some(s.cache[k])))];
    StaleNow(s3, k, n, c, c);
    StaleBeforeThree(s, Ask(k, false), Read(c), Test(c), k, n, c);
  }

  lemma UnderWayIsStale(s: State, k: Key)
    requires Inv(s) && Manned(s) && k.kind in s.checkers.ttl && UnderWay(s, k)
    ensures Stale(s, k, |s.log|, |s.calls|)
  {
    if o: nat :| Begun(s, k, o) {
      OwnBegunIsStale(s, k, o);
    } else if MemoIsFresh(s, k) {
      FreshMemoIsStale(s, k);
    } else {
      var o: nat :| WillSpill(s, k, o);
      if s.calls[o].stage.Running? {
        ListingSpills(s, k, o);
      } else {
        WarmingSpills(s, k, o);
      }
    }
  }

  /**
   For every registered kind, invalidating a target or its whole kind makes every
   later check of the target, however the run goes on, probe anew if and only if
   nothing is under way. For a target probed alone that means no call of it has
   begun a probe it has not published. For a bulk kind it also means that the memo
   is older than its lifetime, and that no call of another target will still
   renew it or spread its snapshot.
   */
  lemma InvalidateReprobesIff(s: State, actions: seq<Action>, a: Action, k: Key)
    requires Initial(s) && k.kind in s.checkers.ttl && (a == Invalidate(k) || a == InvalidateKind(k.kind))
    ensures var r := Run(s, actions);
            Reprobes(Step(r, a), k) <==> !UnderWay(r, k)
  {
    var r := Run(s, actions);
    RunManned(s, actions);
    SameCheckers(s, actions);
    if UnderWay(r, k) {
      var t := Step(r, a);
      StepKeeps(r, a);
      StepManned(r, a);
      StillUnderWay(r, a, k);
      UnderWayIsStale(t, k);
      StaleIsNotAnew(t, k);
    } else {
      InvalidatedReprobes(r, a, k);
    }
  }

  /** Dropping entries changes nothing about what is under way. */
  lemma StillUnderWay(s: State, a: Action, k: Key)
    requires UnderWay(s, k) && Drops(a, k)
    ensures UnderWay(Step(s, a), k)
  {
    var t := Step(s, a);
    forall c: nat ensures (Begun(s, k, c) ==> Begun(t, k, c)) && (WillSpill(s, k, c) ==> WillSpill(t, k, c)) {
    }
  }

  /** Invalidating drops what it says and nothing else. */
  lemma InvalidateDrops(s: State, k: Key, kind: string)
    ensures forall j :: j in Step(s, Invalidate(k)).cache <==> j in s.cache && j != k
    ensures forall j :: j in Step(s, InvalidateKind(kind)).cache <==> j in s.cache && j.kind != kind
    ensures forall j | j in Step(s, Invalidate(k)).cache :: Step(s, Invalidate(k)).cache[j] == s.cache[j]
    ensures forall j | j in Step(s, InvalidateKind(kind)).cache :: Step(s, InvalidateKind(kind)).cache[j] == s.cache[j]
  {
  }

  /** For a target that is probed alone, only a call of its own counts. */
  lemma UnderWayAlone(s: State, k: Key)
    requires Single(s, k)
    ensures UnderWay(s, k) <==> exists c: nat :: Begun(s, k, c)
  {
  }
}
