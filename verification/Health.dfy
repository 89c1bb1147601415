/**
 The dependency registry: a cache with a lifetime per kind, probes of the same
 target collapsed into one flight, siblings warmed by a bulk probe, and the bulk
 checker's own memo beneath.

 The registry's critical sections are methods of a class, proved against
 functions on the maps; the same functions are the steps of the machine in
 which any number of calls interleave with invalidations and the clock.
 */
module Health {
  import opened Common
  import opened Checks
  import Texts

  datatype Key = Key(kind: string, target: string)

  /** What a probe found; probe is its place in the history of probes. */
  datatype Verdict = Verdict(state: CheckState, probe: nat)

  /** A cached verdict: when it was obtained, when it was written here, and until when it is used. */
  datatype Entry = Entry(verdict: Verdict, got: nat, at: nat, expiry: nat)

  /** A collapsed probe: the call that runs it, and the result once there is one. */
  datatype Flight = Flight(key: Key, owner: nat, done: Option<Verdict>)

  /** A bulk probe's answer for every configured target, with the instant it was recorded. */
  datatype Snapshot = Snapshot(states: map<string, CheckState>, probe: nat, at: nat)

  /** The kinds that have a checker with their lifetimes, and which of them probe in bulk. */
  datatype Checkers = Checkers(ttl: map<string, nat>, bulk: set<string>)

  // ---- the key as text ---------------------------------------------------------------------

  const NUL := 0 as char

  function CacheKey(k: Key): string {
    k.kind + [NUL] + k.target
  }

  function Cut(text: string): Option<Key> {
    match Texts.CutAt(text, NUL)
    case None => None
    case Some((kind, target)) => Some(Key(kind, target))
  }

  /** The text form loses nothing, as no kind contains the separator. */
  lemma CutUndoesKey(k: Key)
    requires NUL !in k.kind
    ensures Cut(CacheKey(k)) == Some(k)
  {
    Texts.CutFinds(k.kind, NUL, k.target);
  }

  // ---- the critical sections -----------------------------------------------------------------

  /** Every other target of the kind gets its state from the snapshot. */
  function Warmed(cache: map<Key, Entry>, k: Key, snap: Snapshot, got: nat, now: nat, ttl: nat): map<Key, Entry> {
    cache + map target | target in snap.states && target != k.target ::
      Key(k.kind, target) := Entry(Verdict(snap.states[target], snap.probe), got, now, now + ttl)
  }

  predicate IsSibling(j: Key, k: Key, snap: Snapshot) {
    j.kind == k.kind && j.target in snap.states && j.target != k.target
  }

  lemma WarmedAt(cache: map<Key, Entry>, k: Key, snap: Snapshot, got: nat, now: nat, ttl: nat, j: Key)
    ensures var after := Warmed(cache, k, snap, got, now, ttl);
            if IsSibling(j, k, snap)
            then j in after && after[j] == Entry(Verdict(snap.states[j.target], snap.probe), got, now, now + ttl)
            else (j in after <==> j in cache) && (j in cache ==> after[j] == cache[j])
  {
    var siblings := map target | target in snap.states && target != k.target ::
      Key(k.kind, target) := Entry(Verdict(snap.states[target], snap.probe), got, now, now + ttl);
    if IsSibling(j, k, snap) {
      assert j == Key(k.kind, j.target);
    }
  }

  function Without(cache: map<Key, Entry>, kind: string): map<Key, Entry> {
    map k | k in cache && k.kind != kind :: cache[k]
  }

  /** What joining a key leaves: the flight to wait for, or to finish when it is one's own. */
  datatype Joining = Joining(inflight: map<Key, nat>, flights: seq<Flight>, f: nat, mine: bool)

  function JoinKey(inflight: map<Key, nat>, flights: seq<Flight>, k: Key, owner: nat): Joining {
    if k in inflight then Joining(inflight, flights, inflight[k], false)
    else Joining(inflight[k := |flights|], flights + [Flight(k, owner, None)], |flights|, true)
  }

  /** The maps and flights of the registry. */
  datatype Tables = Tables(cache: map<Key, Entry>, inflight: map<Key, nat>, flights: seq<Flight>)

  /** A finished flight: its waiters get the result, it leaves the map, and the result is cached. */
  function FinishFlight(t: Tables, k: Key, f: nat, e: Entry): Tables {
    Tables(t.cache[k := e], t.inflight - {k},
           if f < |t.flights| then t.flights[f := t.flights[f].(done := Some(e.verdict))] else t.flights)
  }

  /** A target the snapshot does not list is misconfigured. */
  function Answer(snap: Snapshot, target: string): Verdict {
    Verdict(if target in snap.states then snap.states[target] else Misconfigured, snap.probe)
  }

  class Registry {
    var cache: map<Key, Entry>
    var inflight: map<Key, nat>
    var flights: seq<Flight>

    constructor ()
      ensures cache == map[] && inflight == map[] && flights == []
    {
      cache, inflight, flights := map[], map[], [];
    }

    /** The flight to wait for, or a new one that the caller has to finish. */
    method JoinOrStart(k: Key, owner: nat) returns (f: nat, mine: bool)
      modifies `inflight, `flights
      ensures Joining(inflight, flights, f, mine) == JoinKey(old(inflight), old(flights), k, owner)
    {
      if k in inflight {
        return inflight[k], false;
      }
      f, mine := |flights|, true;
      flights := flights + [Flight(k, owner, None)];
      inflight := inflight[k := f];
    }

    /** Hands the result to the waiters, ends the flight and caches the result. */
    method Complete(k: Key, f: nat, v: Verdict, got: nat, now: nat, ttl: nat)
      requires f < |flights|
      modifies this
      ensures Tables(cache, inflight, flights) == FinishFlight(old(Tables(cache, inflight, flights)), k, f, Entry(v, got, now, now + ttl))
    {
      flights := flights[f := flights[f].(done := Some(v))];
      inflight := inflight - {k};
      cache := cache[k := Entry(v, got, now, now + ttl)];
    }

    method WarmSiblings(k: Key, snap: Snapshot, got: nat, now: nat, ttl: nat)
      modifies `cache
      ensures cache == Warmed(old(cache), k, snap, got, now, ttl)
    {
      var todo := snap.states.Keys;
      while todo != {}
        invariant todo <= snap.states.Keys
        invariant forall j: Key | IsSibling(j, k, snap) && j.target !in todo ::
                    j in cache && cache[j] == Entry(Verdict(snap.states[j.target], snap.probe), got, now, now + ttl)
        invariant forall j: Key | !(IsSibling(j, k, snap) && j.target !in todo) ::
                    (j in cache <==> j in old(cache)) && (j in cache ==> cache[j] == old(cache)[j])
        decreases todo
      {
        var name :| name in todo;
        if name != k.target {
          cache := cache[Key(k.kind, name) := Entry(Verdict(snap.states[name], snap.probe), got, now, now + ttl)];
        }
        todo := todo - {name};
      }
      forall j: Key ensures (j in cache <==> j in Warmed(old(cache), k, snap, got, now, ttl))
                       && (j in cache ==> cache[j] == Warmed(old(cache), k, snap, got, now, ttl)[j]) {
        WarmedAt(old(cache), k, snap, got, now, ttl, j);
      }
    }

    method Invalidate(k: Key)
      modifies `cache
      ensures cache == old(cache) - {k}
    {
      cache := cache - {k};
    }

    method InvalidateKind(kind: string)
      modifies `cache
      ensures cache == Without(old(cache), kind)
    {
      var todo := cache.Keys;
      while todo != {}
        invariant todo <= cache.Keys <= old(cache).Keys
        invariant forall k | k in cache :: cache[k] == old(cache)[k]
        invariant forall k | k in old(cache) && k !in todo :: k in cache <==> k.kind != kind
        decreases todo
      {
        var k :| k in todo;
        if k.kind == kind {
          cache := cache - {k};
        }
        todo := todo - {k};
      }
    }
  }

  // ---- any number of calls at once --------------------------------------------------------------

  /** How a call came by what it returned. */
  datatype Via = Cached(entry: Entry, at: nat) | Joined(f: nat) | Owned(f: nat) | GaveUp | NoChecker

  datatype Stage =
    | Asked
    | Holding(entry: Option<Entry>)
    | Missed
    | Waiting(f: nat)
    | Probing(f: nat)
    | Running(f: nat, probe: nat)
    | Listed(f: nat, snap: Snapshot, got: nat)
    | Obtained(f: nat, verdict: Verdict, got: nat)
    | Returned(state: CheckState, via: Via)

  datatype Call = Call(key: Key, force: bool, stage: Stage)

  /** What a check command came to: the state of one target, no list of a bulk kind, or the list. */
  datatype Finding = Reported(state: CheckState) | NoListing | Listing(states: map<string, CheckState>)

  /** One run of a check command: what for, when it finished, and what it found. */
  datatype Probe = Probe(key: Key, finished: Option<nat>, found: Option<Finding>)

  /** last: for every key, the verdict of its last completed flight. */
  datatype State = State(now: nat, checkers: Checkers, cache: map<Key, Entry>, inflight: map<Key, nat>,
                         flights: seq<Flight>, memo: map<string, Snapshot>, calls: seq<Call>, log: seq<Probe>,
                         last: map<Key, Verdict>)

  datatype Action =
    | Ask(key: Key, force: bool)
    | Read(c: nat)
    | Test(c: nat)
    | Join(c: nat)
    | Begin(c: nat)
    | Finish(c: nat, state: CheckState)                      // a single probe ends
    | ListFails(c: nat)
    | ListEnds(c: nat, states: map<string, CheckState>)      // a bulk probe ends
    | Warm(c: nat)
    | Publish(c: nat)
    | Awake(c: nat)
    | GiveUp(c: nat)
    | Invalidate(key: Key)
    | InvalidateKind(kind: string)
    | Tick(d: nat)

  predicate IsBulk(s: State, c: Call) {
    c.key.kind in s.checkers.bulk
  }

  predicate CallAllows(s: State, a: Action, c: Call) {
    match a
    case Read(_) => c.stage.Asked?
    case Test(_) => c.stage.Holding?
    case Join(_) => c.stage.Missed?
    case Begin(_) => c.stage.Probing?
    case Finish(_, _) => c.stage.Running? && !IsBulk(s, c)
    case ListFails(_) => c.stage.Running? && IsBulk(s, c)
    case ListEnds(_, _) => c.stage.Running? && IsBulk(s, c)
    case Warm(_) => c.stage.Listed?
    case Publish(_) => c.stage.Obtained?
    case Awake(_) => c.stage.Waiting? && c.stage.f < |s.flights| && s.flights[c.stage.f].done.Some?
    case GiveUp(_) => c.stage.Waiting?
    case _ => false
  }

  predicate Enabled(s: State, a: Action) {
    match a
    case Ask(_, _) => true
    case Invalidate(_) => true
    case InvalidateKind(_) => true
    case Tick(_) => true
    case _ => a.c < |s.calls| && CallAllows(s, a, s.calls[a.c])
  }

  /** A call moves on; everything it does besides is in the functions below. */
  function Put(s: State, c: nat, stage: Stage): State
    requires c < |s.calls|
  {
    s.(calls := s.calls[c := s.calls[c].(stage := stage)])
  }

  function TTL(s: State, k: Key): nat {
    if k.kind in s.checkers.ttl then s.checkers.ttl[k.kind] else 0
  }

  function DoTest(s: State, c: nat): State
    requires c < |s.calls| && s.calls[c].stage.Holding?
  {
    var e := s.calls[c].stage.entry;
    Put(s, c, if e.Some? && s.now < e.value.expiry then Returned(e.value.verdict.state, Cached(e.value, s.now)) else Missed)
  }

  function DoJoin(s: State, c: nat): State
    requires c < |s.calls|
  {
    var j := JoinKey(s.inflight, s.flights, s.calls[c].key, c);
    Put(s, c, if j.mine then Probing(j.f) else Waiting(j.f)).(inflight := j.inflight, flights := j.flights)
  }

  /** A bulk probe first looks at the memo, whether or not the call was forced. */
  predicate MemoServes(s: State, c: nat)
    requires c < |s.calls|
  {
    var k := s.calls[c].key;
    IsBulk(s, s.calls[c]) && k.kind in s.memo && s.now < s.memo[k.kind].at + TTL(s, k)
  }

  function TakeMemo(s: State, c: nat): State
    requires c < |s.calls| && s.calls[c].stage.Probing? && MemoServes(s, c)
  {
    Put(s, c, Listed(s.calls[c].stage.f, s.memo[s.calls[c].key.kind], s.now))
  }

  function StartProbe(s: State, c: nat): State
    requires c < |s.calls| && s.calls[c].stage.Probing?
  {
    Put(s, c, Running(s.calls[c].stage.f, |s.log|)).(log := s.log + [Probe(s.calls[c].key, None, None)])
  }

  function DoBegin(s: State, c: nat): State
    requires c < |s.calls| && s.calls[c].stage.Probing?
  {
    if MemoServes(s, c) then TakeMemo(s, c) else StartProbe(s, c)
  }

  function Ended(log: seq<Probe>, p: nat, now: nat, found: Finding): seq<Probe> {
    if p < |log| then log[p := log[p].(finished := Some(now), found := Some(found))] else log
  }

  function DoObtain(s: State, c: nat, state: CheckState, found: Finding): State
    requires c < |s.calls| && s.calls[c].stage.Running?
  {
    var g := s.calls[c].stage;
    Put(s, c, Obtained(g.f, Verdict(state, g.probe), s.now)).(log := Ended(s.log, g.probe, s.now, found))
  }

  function DoList(s: State, c: nat, states: map<string, CheckState>): State
    requires c < |s.calls| && s.calls[c].stage.Running?
  {
    var g := s.calls[c].stage;
    var snap := Snapshot(states, g.probe, s.now);
    Put(s, c, Listed(g.f, snap, s.now)).(log := Ended(s.log, g.probe, s.now, Listing(states)), memo := s.memo[s.calls[c].key.kind := snap])
  }

  function DoWarm(s: State, c: nat): State
    requires c < |s.calls| && s.calls[c].stage.Listed?
  {
    var k, g := s.calls[c].key, s.calls[c].stage;
    Put(s, c, Obtained(g.f, Answer(g.snap, k.target), g.got)).(cache := Warmed(s.cache, k, g.snap, g.got, s.now, TTL(s, k)))
  }

  function DoPublish(s: State, c: nat): State
    requires c < |s.calls| && s.calls[c].stage.Obtained?
  {
    var k, g := s.calls[c].key, s.calls[c].stage;
    var t := FinishFlight(Tables(s.cache, s.inflight, s.flights), k, g.f, Entry(g.verdict, g.got, s.now, s.now + TTL(s, k)));
    Put(s, c, Returned(g.verdict.state, Owned(g.f)))
      .(cache := t.cache, inflight := t.inflight, flights := t.flights, last := s.last[k := g.verdict])
  }

  function DoAwake(s: State, c: nat): State
    requires c < |s.calls| && CallAllows(s, Awake(c), s.calls[c])
  {
    var f := s.calls[c].stage.f;
    Put(s, c, Returned(s.flights[f].done.value.state, Joined(f)))
  }

  function Step(s: State, a: Action): State
    requires Enabled(s, a)
  {
    match a
    case Ask(k, force) =>
      s.(calls := s.calls + [Call(k, force, if k.kind in s.checkers.ttl then Asked else Returned(Unknown, NoChecker))])
    case Read(c) =>
      var k := s.calls[c].key;
      Put(s, c, if s.calls[c].force then Missed else Holding(if k in s.cache then Some(s.cache[k]) else None))
    case Test(c) => DoTest(s, c)
    case Join(c) => DoJoin(s, c)
    case Begin(c) => DoBegin(s, c)
    case Finish(c, state) => DoObtain(s, c, state, Reported(state))
    case ListFails(c) => DoObtain(s, c, Unavailable, NoListing)
    case ListEnds(c, states) => DoList(s, c, states)
    case Warm(c) => DoWarm(s, c)
    case Publish(c) => DoPublish(s, c)
    case Awake(c) => DoAwake(s, c)
    case GiveUp(c) => Put(s, c, Returned(Unknown, GaveUp))
    case Invalidate(k) => s.(cache := s.cache - {k})
    case InvalidateKind(kind) => s.(cache := Without(s.cache, kind))
    case Tick(d) => s.(now := s.now + d)
  }

  /** A step that cannot be taken is passed over. */
  function Do(s: State, a: Action): State {
    if Enabled(s, a) then Step(s, a) else s
  }

  function Run(s: State, actions: seq<Action>): State
    decreases |actions|
  {
    if actions == [] then s else Run(Do(s, actions[0]), actions[1..])
  }

  predicate Initial(s: State) {
    && s.cache == map[] && s.inflight == map[] && s.flights == [] && s.memo == map[] && s.calls == [] && s.log == []
    && s.last == map[]
  }

  // ---- the invariant --------------------------------------------------------------------------------

  /** The call runs the flight, from joining to publishing. */
  predicate Owns(c: Call) {
    c.stage.Probing? || c.stage.Running? || c.stage.Listed? || c.stage.Obtained?
  }

  /** Probe p ended before the verdict was obtained: at that instant for a single probe, less than a lifetime before for a memo. */
  predicate Sourced(s: State, k: Key, p: nat, got: nat) {
    && p < |s.log| && s.log[p].finished.Some? && got <= s.now && s.log[p].key.kind == k.kind
    && s.log[p].finished.value <= got
    && (k.kind !in s.checkers.bulk ==> s.log[p].key == k && got == s.log[p].finished.value)
    && (got == s.log[p].finished.value || got < s.log[p].finished.value + TTL(s, k))
  }

  /** What a finding says of a target: a list that does not have it says misconfigured. */
  function StateOf(found: Finding, target: string): CheckState {
    match found
    case Reported(state) => state
    case NoListing => Unavailable
    case Listing(states) => if target in states then states[target] else Misconfigured
  }

  /** The verdict is what its probe found of the target. */
  predicate Found(s: State, k: Key, v: Verdict) {
    v.probe < |s.log| && s.log[v.probe].finished.Some? && s.log[v.probe].found.Some? && v.state == StateOf(s.log[v.probe].found.value, k.target)
  }

  predicate EntryFine(s: State, k: Key, e: Entry) {
    && Found(s, k, e.verdict)
    && Sourced(s, k, e.verdict.probe, e.got)
    && e.got <= e.at <= s.now && e.expiry == e.at + TTL(s, k)
  }

  predicate OfFlight(s: State, k: Key, f: nat) {
    f < |s.flights| && s.flights[f].key == k
  }

  predicate OwnsFlight(s: State, c: nat, f: nat)
    requires c < |s.calls|
  {
    var k := s.calls[c].key;
    k in s.inflight && s.inflight[k] == f && OfFlight(s, k, f) && s.flights[f].owner == c
  }

  predicate CallFine(s: State, c: nat)
    requires c < |s.calls|
  {
    var k := s.calls[c].key;
    match s.calls[c].stage
    case Asked => true
    case Holding(e) => e.Some? ==> EntryFine(s, k, e.value)
    case Missed => true
    case Waiting(f) => OfFlight(s, k, f)
    case Probing(f) => OwnsFlight(s, c, f)
    case Running(f, p) => OwnsFlight(s, c, f) && p < |s.log| && s.log[p] == Probe(k, None, None)
    case Listed(f, snap, got) => OwnsFlight(s, c, f) && IsBulk(s, s.calls[c]) && Sourced(s, k, snap.probe, got)
                                  && s.log[snap.probe].found == Some(Listing(snap.states))
    case Obtained(f, v, got) => OwnsFlight(s, c, f) && Sourced(s, k, v.probe, got) && Found(s, k, v)
    case Returned(state, via) =>
      match via {
        case Cached(e, at) => EntryFine(s, k, e) && e.at <= at < e.expiry && state == e.verdict.state
        case Joined(f) => OfFlight(s, k, f) && s.flights[f].done.Some? && s.flights[f].done.value.state == state
        case Owned(f) => OfFlight(s, k, f) && s.flights[f].owner == c && s.flights[f].done.Some? && s.flights[f].done.value.state == state
        case GaveUp => state == Unknown
        case NoChecker => state == Unknown && k.kind !in s.checkers.ttl
      }
  }

  ghost predicate FlightsFine(s: State) {
    && (forall k | k in s.inflight :: OfFlight(s, k, s.inflight[k]) && s.flights[s.inflight[k]].done.None?)
    && (forall f: nat | f < |s.flights| :: s.flights[f].done.None? ==> s.flights[f].key in s.inflight && s.inflight[s.flights[f].key] == f)
  }

  /** What the waiters of a finished flight are told is what its probe found. */
  ghost predicate ToldFine(s: State) {
    forall f: nat | f < |s.flights| && s.flights[f].done.Some? :: Found(s, s.flights[f].key, s.flights[f].done.value)
  }

  /** A running probe is the only one of its call. */
  predicate Apart(s: State) {
    forall c, d | 0 <= c < d < |s.calls| && s.calls[c].stage.Running? && s.calls[d].stage.Running? ::
      s.calls[c].stage.probe != s.calls[d].stage.probe
  }

  ghost predicate EntriesFine(s: State) {
    forall k | k in s.cache :: EntryFine(s, k, s.cache[k])
  }

  ghost predicate LastFine(s: State) {
    forall k | k in s.cache && k.kind !in s.checkers.bulk :: k in s.last && s.cache[k].verdict == s.last[k]
  }

  ghost predicate MemoFine(s: State) {
    forall kind | kind in s.memo :: SnapshotFine(s, kind, s.memo[kind])
  }

  predicate SnapshotFine(s: State, kind: string, snap: Snapshot) {
    && kind in s.checkers.bulk && snap.probe < |s.log| && snap.at <= s.now
    && s.log[snap.probe] == Probe(s.log[snap.probe].key, Some(snap.at), Some(Listing(snap.states))) && s.log[snap.probe].key.kind == kind
  }

  ghost predicate Inv(s: State) {
    && FlightsFine(s) && ToldFine(s) && Apart(s) && EntriesFine(s) && LastFine(s) && MemoFine(s)
    && (forall c: nat | c < |s.calls| :: CallFine(s, c))
  }

  /** Time goes on, probes only finish, flights only complete. */
  predicate Later(s: State, t: State) {
    && s.now <= t.now && s.checkers == t.checkers && |s.log| <= |t.log| && |s.flights| <= |t.flights|
    && (forall p | 0 <= p < |s.log| :: t.log[p].key == s.log[p].key && (s.log[p].finished.Some? ==> t.log[p] == s.log[p]))
    && (forall f | 0 <= f < |s.flights| :: t.flights[f].key == s.flights[f].key && t.flights[f].owner == s.flights[f].owner
          && (s.flights[f].done.Some? ==> t.flights[f] == s.flights[f]))
  }

  lemma SourcedLater(s: State, t: State, k: Key, p: nat, got: nat)
    requires Later(s, t) && Sourced(s, k, p, got)
    ensures Sourced(t, k, p, got)
  {
  }

  /** A call that takes no step stays fine, if its flight stays its own and its probe goes on. */
  lemma BystanderFine(s: State, t: State, c: nat)
    requires Later(s, t) && c < |s.calls| && c < |t.calls| && t.calls[c] == s.calls[c] && CallFine(s, c)
    requires Owns(s.calls[c]) ==> s.calls[c].key in s.inflight && s.calls[c].key in t.inflight
                                  && t.inflight[s.calls[c].key] == s.inflight[s.calls[c].key]
    requires s.calls[c].stage.Running? ==> s.calls[c].stage.probe < |s.log| && t.log[s.calls[c].stage.probe] == s.log[s.calls[c].stage.probe]
    ensures CallFine(t, c)
  {
  }

  /** Two owners of one key are one call. */
  lemma SoleOwner(s: State, c: nat, d: nat)
    requires Inv(s) && c < |s.calls| && d < |s.calls| && Owns(s.calls[c]) && Owns(s.calls[d]) && s.calls[c].key == s.calls[d].key
    ensures c == d
  {
    assert CallFine(s, c) && CallFine(s, d);
  }

  /** When call c moved, touching at most its own flight and its own probe, all calls are fine. */
  lemma OthersFine(s: State, t: State, c: nat)
    requires Inv(s) && Later(s, t) && c < |s.calls| && |t.calls| == |s.calls| && CallFine(t, c)
    requires forall d: nat | d < |s.calls| && d != c :: t.calls[d] == s.calls[d]
    requires forall k | k in s.inflight && !(Owns(s.calls[c]) && k == s.calls[c].key) :: k in t.inflight && t.inflight[k] == s.inflight[k]
    requires forall p: nat | p < |s.log| && !(s.calls[c].stage.Running? && p == s.calls[c].stage.probe) :: t.log[p] == s.log[p]
    ensures forall d: nat | d < |t.calls| :: CallFine(t, d)
  {
    forall d: nat | d < |t.calls| && d != c ensures CallFine(t, d) {
      assert CallFine(s, d);
      if Owns(s.calls[d]) && Owns(s.calls[c]) && s.calls[d].key == s.calls[c].key {
        SoleOwner(s, c, d);
      }
      BystanderFine(s, t, d);
    }
  }

  lemma CacheLater(s: State, t: State)
    requires EntriesFine(s) && LastFine(s) && MemoFine(s) && Later(s, t)
    requires forall k | k in t.cache :: k in s.cache && t.cache[k] == s.cache[k]
    ensures EntriesFine(t)
    ensures t.last == s.last ==> LastFine(t)
    ensures t.memo == s.memo ==> MemoFine(t)
  {
  }

  /** Reading, testing, waking and giving up only move the call. */
  lemma MoveKeeps(s: State, c: nat, stage: Stage)
    requires Inv(s) && c < |s.calls| && CallFine(Put(s, c, stage), c) && (stage.Running? ==> s.calls[c].stage == stage)
    ensures Inv(Put(s, c, stage))
  {
    var t := Put(s, c, stage);
    OthersFine(s, t, c);
  }

  lemma TestKeeps(s: State, c: nat)
    requires Inv(s) && Enabled(s, Test(c))
    ensures Inv(DoTest(s, c))
  {
    assert CallFine(s, c);
    MoveKeeps(s, c, DoTest(s, c).calls[c].stage);
  }

  lemma ReadKeeps(s: State, c: nat)
    requires Inv(s) && Enabled(s, Read(c))
    ensures Inv(Step(s, Read(c)))
  {
    MoveKeeps(s, c, Step(s, Read(c)).calls[c].stage);
  }

  lemma AwakeKeeps(s: State, c: nat)
    requires Inv(s) && Enabled(s, Awake(c))
    ensures Inv(DoAwake(s, c))
  {
    assert CallFine(s, c);
    MoveKeeps(s, c, DoAwake(s, c).calls[c].stage);
  }

  /** A call that does not start a probe, or starts a new one, keeps the running probes apart. */
  lemma ApartKept(s: State, t: State, c: nat)
    requires Inv(s) && c < |s.calls| && |t.calls| == |s.calls| && forall d: nat | d < |s.calls| && d != c :: t.calls[d] == s.calls[d]
    requires t.calls[c].stage.Running? ==> t.calls[c].stage.probe == |s.log|
    ensures Apart(t)
  {
    forall d: nat | d < |s.calls| && s.calls[d].stage.Running? ensures s.calls[d].stage.probe < |s.log| {
      assert CallFine(s, d);
    }
  }

  lemma StartCalls(s: State, c: nat)
    requires Inv(s) && Enabled(s, Join(c)) && s.calls[c].key !in s.inflight
    ensures var t := DoJoin(s, c); Later(s, t) && Apart(t) && forall d: nat | d < |t.calls| :: CallFine(t, d)
  {
    var t := DoJoin(s, c);
    ApartKept(s, t, c);
    OthersFine(s, t, c);
  }

  lemma JoinKeeps(s: State, c: nat)
    requires Inv(s) && Enabled(s, Join(c))
    ensures Inv(DoJoin(s, c))
  {
    var k, t := s.calls[c].key, DoJoin(s, c);
    if k in s.inflight {
      MoveKeeps(s, c, Waiting(s.inflight[k]));
    } else {
      StartCalls(s, c);
      CacheLater(s, t);
    }
  }

  lemma TakeMemoKeeps(s: State, c: nat)
    requires Inv(s) && c < |s.calls| && s.calls[c].stage.Probing? && MemoServes(s, c)
    ensures Inv(TakeMemo(s, c))
  {
    assert CallFine(s, c);
    MoveKeeps(s, c, TakeMemo(s, c).calls[c].stage);
  }

  lemma ProbeCalls(s: State, c: nat)
    requires Inv(s) && c < |s.calls| && s.calls[c].stage.Probing?
    ensures var t := StartProbe(s, c); Later(s, t) && Apart(t) && forall d: nat | d < |t.calls| :: CallFine(t, d)
  {
    var t := StartProbe(s, c);
    assert CallFine(s, c);
    ApartKept(s, t, c);
    OthersFine(s, t, c);
  }

  lemma StartProbeKeeps(s: State, c: nat)
    requires Inv(s) && c < |s.calls| && s.calls[c].stage.Probing?
    ensures Inv(StartProbe(s, c))
  {
    ProbeCalls(s, c);
    CacheLater(s, StartProbe(s, c));
  }

  lemma BeginKeeps(s: State, c: nat)
    requires Inv(s) && Enabled(s, Begin(c))
    ensures Inv(DoBegin(s, c))
  {
    if MemoServes(s, c) {
      TakeMemoKeeps(s, c);
    } else {
      StartProbeKeeps(s, c);
    }
  }

  lemma ObtainKeeps(s: State, c: nat, state: CheckState, found: Finding)
    requires Inv(s) && c < |s.calls| && s.calls[c].stage.Running? && state == StateOf(found, s.calls[c].key.target)
    ensures Inv(DoObtain(s, c, state, found))
  {
    var t := DoObtain(s, c, state, found);
    assert CallFine(s, c);
    CacheLater(s, t);
    ApartKept(s, t, c);
    OthersFine(s, t, c);
  }

  lemma ListCalls(s: State, c: nat, states: map<string, CheckState>)
    requires Inv(s) && Enabled(s, ListEnds(c, states))
    ensures var t := DoList(s, c, states); Later(s, t) && Apart(t) && forall d: nat | d < |t.calls| :: CallFine(t, d)
  {
    var t := DoList(s, c, states);
    assert CallFine(s, c);
    ApartKept(s, t, c);
    OthersFine(s, t, c);
  }

  lemma ListMemo(s: State, c: nat, states: map<string, CheckState>)
    requires Inv(s) && Enabled(s, ListEnds(c, states)) && Later(s, DoList(s, c, states))
    ensures MemoFine(DoList(s, c, states))
  {
    var t, kind := DoList(s, c, states), s.calls[c].key.kind;
    assert CallFine(s, c);
    forall j | j in t.memo ensures SnapshotFine(t, j, t.memo[j]) {
      if j != kind {
        assert SnapshotFine(s, j, s.memo[j]);
      }
    }
  }

  lemma ListKeeps(s: State, c: nat, states: map<string, CheckState>)
    requires Inv(s) && Enabled(s, ListEnds(c, states))
    ensures Inv(DoList(s, c, states))
  {
    ListCalls(s, c, states);
    CacheLater(s, DoList(s, c, states));
    ListMemo(s, c, states);
  }

  lemma WarmCalls(s: State, c: nat)
    requires Inv(s) && Enabled(s, Warm(c))
    ensures var t := DoWarm(s, c); Later(s, t) && Apart(t) && forall d: nat | d < |t.calls| :: CallFine(t, d)
  {
    var t := DoWarm(s, c);
    assert CallFine(s, c);
    ApartKept(s, t, c);
    OthersFine(s, t, c);
  }

  lemma WarmedFine(s: State, t: State, k: Key, snap: Snapshot, got: nat)
    requires EntriesFine(s) && LastFine(s) && k.kind in s.checkers.bulk && Sourced(s, k, snap.probe, got)
    requires s.log[snap.probe].found == Some(Listing(snap.states))
    requires Later(s, t) && t.last == s.last && t.cache == Warmed(s.cache, k, snap, got, s.now, TTL(s, k))
    ensures EntriesFine(t) && LastFine(t)
  {
    forall j | j in t.cache ensures EntryFine(t, j, t.cache[j]) && (j.kind !in s.checkers.bulk ==> j in s.cache && t.cache[j] == s.cache[j]) {
      WarmedAt(s.cache, k, snap, got, s.now, TTL(s, k), j);
      OneWarmed(s, t, k, snap, got, j, t.cache[j]);
    }
  }

  lemma OneWarmed(s: State, t: State, k: Key, snap: Snapshot, got: nat, j: Key, e: Entry)
    requires Later(s, t) && k.kind in s.checkers.bulk && Sourced(s, k, snap.probe, got) && s.log[snap.probe].found == Some(Listing(snap.states))
    requires if IsSibling(j, k, snap) then e == Entry(Verdict(snap.states[j.target], snap.probe), got, s.now, s.now + TTL(s, k))
             else j in s.cache && e == s.cache[j] && EntryFine(s, j, e)
    ensures EntryFine(t, j, e)
  {
  }

  lemma WarmKeeps(s: State, c: nat)
    requires Inv(s) && Enabled(s, Warm(c))
    ensures Inv(DoWarm(s, c))
  {
    WarmCalls(s, c);
    WarmCache(s, c);
    MemoLater(s, DoWarm(s, c));
  }

  lemma WarmCache(s: State, c: nat)
    requires Inv(s) && Enabled(s, Warm(c)) && Later(s, DoWarm(s, c))
    ensures EntriesFine(DoWarm(s, c)) && LastFine(DoWarm(s, c))
  {
    var g := s.calls[c].stage;
    assert CallFine(s, c);
    WarmedFine(s, DoWarm(s, c), s.calls[c].key, g.snap, g.got);
  }

  lemma MemoLater(s: State, t: State)
    requires MemoFine(s) && Later(s, t) && t.memo == s.memo
    ensures MemoFine(t)
  {
  }

  lemma PublishCalls(s: State, c: nat)
    requires Inv(s) && Enabled(s, Publish(c))
    ensures var t := DoPublish(s, c); Later(s, t) && Apart(t) && forall d: nat | d < |t.calls| :: CallFine(t, d)
  {
    var t := DoPublish(s, c);
    assert CallFine(s, c);
    ApartKept(s, t, c);
    OthersFine(s, t, c);
  }

  lemma PublishFlights(s: State, c: nat)
    requires Inv(s) && Enabled(s, Publish(c))
    ensures FlightsFine(DoPublish(s, c))
  {
    assert CallFine(s, c);
  }

  lemma PublishKeeps(s: State, c: nat)
    requires Inv(s) && Enabled(s, Publish(c))
    ensures Inv(DoPublish(s, c))
  {
    var t := DoPublish(s, c);
    PublishCalls(s, c);
    PublishFlights(s, c);
    var k := s.calls[c].key;
    assert CallFine(s, c);
    SourcedLater(s, t, k, t.cache[k].verdict.probe, t.cache[k].got);
    EntriesButOne(s, t, k);
    LastButOne(s, t, k);
    MemoLater(s, t);
  }

  /** Writing one key to the cache keeps the others. */
  lemma EntriesButOne(s: State, t: State, k: Key)
    requires EntriesFine(s) && Later(s, t) && k in t.cache && EntryFine(t, k, t.cache[k])
    requires forall j | j in t.cache && j != k :: j in s.cache && t.cache[j] == s.cache[j]
    ensures EntriesFine(t)
  {
    forall j | j in t.cache ensures EntryFine(t, j, t.cache[j]) {
      if j != k {
        assert EntryFine(s, j, s.cache[j]);
      }
    }
  }

  /** Writing one key to the cache and to what is remembered as last keeps the others. */
  lemma LastButOne(s: State, t: State, k: Key)
    requires LastFine(s) && t.checkers == s.checkers && k in t.cache && k in t.last && t.cache[k].verdict == t.last[k]
    requires forall j | j in t.cache && j != k :: j in s.cache && t.cache[j] == s.cache[j]
    requires forall j | j in s.last && j != k :: j in t.last && t.last[j] == s.last[j]
    ensures LastFine(t)
  {
  }

  /** Invalidations and the clock move no call. */
  lemma BackgroundKeeps(s: State, t: State)
    requires Inv(s) && s.now <= t.now && t == s.(now := t.now, cache := t.cache)
    requires forall k | k in t.cache :: k in s.cache && t.cache[k] == s.cache[k]
    ensures Inv(t)
  {
    CacheLater(s, t);
    forall d: nat | d < |t.calls| ensures CallFine(t, d) {
      assert CallFine(s, d);
      BystanderFine(s, t, d);
    }
  }

  lemma AskKeeps(s: State, k: Key, force: bool)
    requires Inv(s)
    ensures Inv(Step(s, Ask(k, force)))
  {
    var t := Step(s, Ask(k, force));
    forall d: nat | d < |t.calls| ensures CallFine(t, d) {
      if d < |s.calls| {
        assert CallFine(s, d);
        BystanderFine(s, t, d);
      }
    }
  }

  lemma StepKeeps(s: State, a: Action)
    requires Inv(s) && Enabled(s, a)
    ensures Inv(Step(s, a))
  {
    match a {
      case Ask(k, force) => AskKeeps(s, k, force);
      case Read(c) => ReadKeeps(s, c);
      case Test(c) => TestKeeps(s, c);
      case Join(c) => JoinKeeps(s, c);
      case Begin(c) => BeginKeeps(s, c);
      case Finish(c, state) => ObtainKeeps(s, c, state, Reported(state));
      case ListFails(c) => ObtainKeeps(s, c, Unavailable, NoListing);
      case ListEnds(c, states) => ListKeeps(s, c, states);
      case Warm(c) => WarmKeeps(s, c);
      case Publish(c) => PublishKeeps(s, c);
      case Awake(c) => AwakeKeeps(s, c);
      case GiveUp(c) => MoveKeeps(s, c, Returned(Unknown, GaveUp));
      case Invalidate(_) => BackgroundKeeps(s, Step(s, a));
      case InvalidateKind(_) => BackgroundKeeps(s, Step(s, a));
      case Tick(_) => BackgroundKeeps(s, Step(s, a));
    }
  }

  lemma {:induction false} RunKeeps(s: State, actions: seq<Action>)
    requires Inv(s)
    ensures Inv(Run(s, actions))
    decreases |actions|
  {
    if actions != [] {
      if Enabled(s, actions[0]) {
        StepKeeps(s, actions[0]);
        RunKeeps(Step(s, actions[0]), actions[1..]);
      } else {
        RunKeeps(s, actions[1..]);
      }
    }
  }

  // ---- what every run keeps ----------------------------------------------------------------------------

  /** However calls, invalidations and time interleave, at most one probe of a key runs, and its flight is the one in the map. */
  lemma OneProbePerKey(s: State, actions: seq<Action>, c: nat, d: nat)
    requires Initial(s) && c < |Run(s, actions).calls| && d < |Run(s, actions).calls|
    requires Owns(Run(s, actions).calls[c]) && Owns(Run(s, actions).calls[d])
    requires Run(s, actions).calls[c].key == Run(s, actions).calls[d].key
    ensures c == d && Run(s, actions).calls[c].key in Run(s, actions).inflight
  {
    RunKeeps(s, actions);
    SoleOwner(Run(s, actions), c, d);
    assert CallFine(Run(s, actions), c);
  }

  /** The map holds exactly the unfinished flights. */
  lemma MapIsUnfinished(s: State, actions: seq<Action>, f: nat)
    requires Initial(s) && f < |Run(s, actions).flights|
    ensures var r := Run(s, actions);
            r.flights[f].done.None? <==> r.flights[f].key in r.inflight && r.inflight[r.flights[f].key] == f
  {
    RunKeeps(s, actions);
  }

  /** Whoever joined a flight, and the call that ran it, return one and the same result. */
  lemma WaitersAgree(s: State, actions: seq<Action>, c: nat, d: nat, f: nat)
    requires Initial(s) && c < |Run(s, actions).calls| && d < |Run(s, actions).calls|
    requires Run(s, actions).calls[c].stage.Returned? && Run(s, actions).calls[c].stage.via == Joined(f)
    requires Run(s, actions).calls[d].stage.Returned?
    requires Run(s, actions).calls[d].stage.via == Joined(f) || Run(s, actions).calls[d].stage.via == Owned(f)
    ensures Run(s, actions).calls[c].stage.state == Run(s, actions).calls[d].stage.state
    ensures Run(s, actions).calls[c].key == Run(s, actions).calls[d].key
  {
    RunKeeps(s, actions);
    assert CallFine(Run(s, actions), c) && CallFine(Run(s, actions), d);
  }

  lemma StepSameCheckers(s: State, a: Action)
    ensures Do(s, a).checkers == s.checkers
  {
  }

  lemma {:induction false} SameCheckers(s: State, actions: seq<Action>)
    ensures Run(s, actions).checkers == s.checkers
    decreases |actions|
  {
    if actions != [] {
      StepSameCheckers(s, actions[0]);
      SameCheckers(Do(s, actions[0]), actions[1..]);
    }
  }

  /**
   The age of a verdict answered from the cache, counted from the end of the
   probe that found it: less than one lifetime, and for a bulk kind less than
   two, plus the time between obtaining the verdict and caching it.
   */
  lemma StalenessBound(s: State, actions: seq<Action>, c: nat)
    requires Initial(s) && c < |Run(s, actions).calls|
    requires Run(s, actions).calls[c].stage.Returned? && Run(s, actions).calls[c].stage.via.Cached?
    ensures var r := Run(s, actions); var k := r.calls[c].key; var e := r.calls[c].stage.via.entry;
            var ttl := if k.kind in s.checkers.ttl then s.checkers.ttl[k.kind] else 0; var at := r.calls[c].stage.via.at;
            && e.verdict.probe < |r.log| && r.log[e.verdict.probe].finished.Some? && r.log[e.verdict.probe].key.kind == k.kind
            && r.calls[c].stage.state == e.verdict.state
            && var age, delay := at - r.log[e.verdict.probe].finished.value, e.at - e.got;
               && 0 <= age && 0 <= delay
               && (k.kind !in s.checkers.bulk ==> r.log[e.verdict.probe].key == k && age < ttl + delay)
               && age < 2 * ttl + delay
  {
    RunKeeps(s, actions);
    SameCheckers(s, actions);
    assert CallFine(Run(s, actions), c);
  }

  /** A probe that ends was running. */
  lemma EndLater(s: State, a: Action)
    requires Inv(s) && Enabled(s, a) && (a.Finish? || a.ListFails? || a.ListEnds?)
    ensures Later(s, Step(s, a))
  {
    assert CallFine(s, a.c);
  }

  lemma PublishLater(s: State, c: nat)
    requires Inv(s) && Enabled(s, Publish(c))
    ensures Later(s, DoPublish(s, c))
  {
    assert CallFine(s, c);
  }

  lemma StepLater(s: State, a: Action)
    requires Inv(s) && Enabled(s, a)
    ensures Later(s, Step(s, a))
  {
    if a.Finish? || a.ListFails? || a.ListEnds? {
      EndLater(s, a);
    } else if a.Publish? {
      PublishLater(s, a.c);
    }
  }

  /** A step of a call moves that call alone; the others move none, or add one that has not begun. */
  lemma StepMovesOne(s: State, a: Action)
    requires Enabled(s, a)
    ensures var t := Step(s, a);
            if a.Ask? then |t.calls| == |s.calls| + 1 && t.calls[..|s.calls|] == s.calls && (t.calls[|s.calls|].stage.Asked? || t.calls[|s.calls|].stage == Returned(Unknown, NoChecker))
            else if a.Invalidate? || a.InvalidateKind? || a.Tick? then t.calls == s.calls
            else |t.calls| == |s.calls| && t.calls[a.c].key == s.calls[a.c].key && forall d: nat | d < |s.calls| && d != a.c :: t.calls[d] == s.calls[d]
  {
  }

  // ---- the order of probes --------------------------------------------------------------------------

  /** Call c of the key has begun a probe, or taken a memo, and its result is not cached yet. */
  predicate Begun(s: State, k: Key, c: nat) {
    c < |s.calls| && s.calls[c].key == k && (s.calls[c].stage.Running? || s.calls[c].stage.Listed? || s.calls[c].stage.Obtained?)
  }

  function ProbeBegun(g: Stage): nat {
    match g
    case Running(_, p) => p
    case Listed(_, snap, _) => snap.probe
    case Obtained(_, v, _) => v.probe
    case _ => 0
  }

  predicate Single(s: State, k: Key) {
    k.kind !in s.checkers.bulk
  }

  /** Probe p belongs to a call that has not published yet. */
  ghost predicate Unpublished(s: State, k: Key, p: nat) {
    exists c: nat :: Begun(s, k, c) && ProbeBegun(s.calls[c].stage) == p
  }

  /** Probe p is published or older than the published one, or still to be published. */
  ghost predicate Accounted(s: State, p: nat)
    requires p < |s.log|
  {
    var k := s.log[p].key;
    (k in s.last && p <= s.last[k].probe) || Unpublished(s, k, p)
  }

  /** For every target probed on its own: what was published last is its latest probe but for the one under way. */
  ghost predicate InOrder(s: State) {
    && (forall k | k in s.last && Single(s, k) :: s.last[k].probe < |s.log|)
    && (forall c: nat | c < |s.calls| && Single(s, s.calls[c].key) && Begun(s, s.calls[c].key, c) && s.calls[c].key in s.last ::
          s.last[s.calls[c].key].probe < ProbeBegun(s.calls[c].stage))
    && (forall p: nat | p < |s.log| && Single(s, s.log[p].key) :: Accounted(s, p))
  }

  /** Nothing about a single probe under way is changed. */
  ghost predicate SameRun(s: State, t: State, c: nat) {
    forall k | Single(s, k) ::
      (Begun(t, k, c) <==> Begun(s, k, c)) && (Begun(s, k, c) ==> ProbeBegun(t.calls[c].stage) == ProbeBegun(s.calls[c].stage))
  }

  /** Nothing new is published or probed for a single target. */
  ghost predicate SameRecord(s: State, t: State) {
    && t.checkers == s.checkers && |t.log| >= |s.log|
    && (forall k | Single(s, k) :: (k in t.last <==> k in s.last) && (k in s.last ==> t.last[k] == s.last[k]))
    && (forall p | 0 <= p < |s.log| :: t.log[p].key == s.log[p].key)
    && (forall p | |s.log| <= p < |t.log| :: !Single(s, t.log[p].key))
  }

  /** A probe that was unpublished and is not call c's own still is. */
  lemma StillUnpublished(s: State, t: State, k: Key, p: nat)
    requires Unpublished(s, k, p)
    requires forall c: nat | Begun(s, k, c) && ProbeBegun(s.calls[c].stage) == p :: Begun(t, k, c) && ProbeBegun(t.calls[c].stage) == p
    ensures Unpublished(t, k, p)
  {
    var c: nat :| Begun(s, k, c) && ProbeBegun(s.calls[c].stage) == p;
    assert Begun(t, k, c);
  }

  lemma SameRunsInOrder(s: State, t: State)
    requires InOrder(s) && SameRecord(s, t) && forall c: nat :: SameRun(s, t, c)
    ensures InOrder(t)
  {
    forall p: nat | p < |t.log| && Single(t, t.log[p].key) ensures Accounted(t, p) {
      var k := s.log[p].key;
      assert Accounted(s, p);
      if Unpublished(s, k, p) {
        forall c: nat | Begun(s, k, c) && ProbeBegun(s.calls[c].stage) == p ensures Begun(t, k, c) && ProbeBegun(t.calls[c].stage) == p {
          assert SameRun(s, t, c);
        }
        StillUnpublished(s, t, k, p);
      }
    }
    forall c: nat | c < |t.calls| && Single(t, t.calls[c].key) && Begun(t, t.calls[c].key, c) && t.calls[c].key in t.last
      ensures t.last[t.calls[c].key].probe < ProbeBegun(t.calls[c].stage)
    {
      assert SameRun(s, t, c);
    }
  }

  /** The call that steps, when it neither begins nor publishes a single probe. */
  lemma ActorSameRun(s: State, a: Action)
    requires Inv(s) && Enabled(s, a) && !a.Ask? && !a.Invalidate? && !a.InvalidateKind? && !a.Tick?
    requires (a.Begin? || a.Publish?) ==> !Single(s, s.calls[a.c].key)
    ensures SameRun(s, Step(s, a), a.c)
  {
    assert CallFine(s, a.c);
  }

  lemma StepSameRecord(s: State, a: Action)
    requires Inv(s) && Enabled(s, a) && ((a.Begin? || a.Publish?) ==> !Single(s, s.calls[a.c].key))
    ensures SameRecord(s, Step(s, a))
  {
  }

  lemma OtherInOrder(s: State, a: Action)
    requires Inv(s) && InOrder(s) && Enabled(s, a) && ((a.Begin? || a.Publish?) ==> !Single(s, s.calls[a.c].key))
    ensures InOrder(Step(s, a))
  {
    var t := Step(s, a);
    StepMovesOne(s, a);
    StepSameRecord(s, a);
    forall c: nat ensures SameRun(s, t, c) {
      if !a.Ask? && !a.Invalidate? && !a.InvalidateKind? && !a.Tick? && c == a.c {
        ActorSameRun(s, a);
      }
    }
    SameRunsInOrder(s, t);
  }

  lemma BeginInOrder(s: State, c: nat)
    requires Inv(s) && InOrder(s) && Enabled(s, Begin(c)) && Single(s, s.calls[c].key)
    ensures InOrder(DoBegin(s, c))
  {
    var t, k := DoBegin(s, c), s.calls[c].key;
    assert Begun(t, k, c) && ProbeBegun(t.calls[c].stage) == |s.log|;
    forall p: nat | p < |t.log| && Single(t, t.log[p].key) ensures Accounted(t, p) {
      if p < |s.log| {
        assert Accounted(s, p);
        if Unpublished(s, s.log[p].key, p) {
          StillUnpublished(s, t, s.log[p].key, p);
        }
      }
    }
  }

  lemma NoOtherBegun(s: State, c: nat, d: nat)
    requires Inv(s) && c < |s.calls| && Owns(s.calls[c]) && d != c
    ensures !Begun(s, s.calls[c].key, d)
  {
    if Begun(s, s.calls[c].key, d) {
      SoleOwner(s, c, d);
    }
  }

  /** After the publication no call of the key is under way. */
  lemma NoneBegunAfter(s: State, c: nat)
    requires Inv(s) && Enabled(s, Publish(c))
    ensures forall d: nat :: !Begun(DoPublish(s, c), s.calls[c].key, d)
  {
    forall d: nat ensures !Begun(DoPublish(s, c), s.calls[c].key, d) {
      if d != c {
        NoOtherBegun(s, c, d);
      }
    }
  }

  lemma PublishAccounts(s: State, c: nat, p: nat)
    requires Inv(s) && InOrder(s) && Enabled(s, Publish(c)) && Single(s, s.calls[c].key)
    requires p < |s.log| && Single(s, s.log[p].key)
    ensures Accounted(DoPublish(s, c), p)
  {
    var t, k := DoPublish(s, c), s.calls[c].key;
    assert Accounted(s, p);
    if Unpublished(s, s.log[p].key, p) {
      if s.log[p].key == k {
        var d: nat :| Begun(s, k, d) && ProbeBegun(s.calls[d].stage) == p;
        if d != c {
          NoOtherBegun(s, c, d);
        }
      } else {
        StillUnpublished(s, t, s.log[p].key, p);
      }
    }
  }

  lemma PublishInOrder(s: State, c: nat)
    requires Inv(s) && InOrder(s) && Enabled(s, Publish(c)) && Single(s, s.calls[c].key)
    ensures InOrder(DoPublish(s, c))
  {
    var t := DoPublish(s, c);
    assert CallFine(s, c);
    NoneBegunAfter(s, c);
    forall p: nat | p < |t.log| && Single(t, t.log[p].key) ensures Accounted(t, p) {
      PublishAccounts(s, c, p);
    }
  }

  lemma StepInOrder(s: State, a: Action)
    requires Inv(s) && InOrder(s) && Enabled(s, a)
    ensures InOrder(Step(s, a))
  {
    if a.Begin? && Single(s, s.calls[a.c].key) {
      BeginInOrder(s, a.c);
    } else if a.Publish? && Single(s, s.calls[a.c].key) {
      PublishInOrder(s, a.c);
    } else {
      OtherInOrder(s, a);
    }
  }

  lemma {:induction false} RunInOrder(s: State, actions: seq<Action>)
    requires Inv(s) && InOrder(s)
    ensures Inv(Run(s, actions)) && InOrder(Run(s, actions))
    decreases |actions|
  {
    if actions != [] {
      if Enabled(s, actions[0]) {
        StepKeeps(s, actions[0]);
        StepInOrder(s, actions[0]);
        RunInOrder(Step(s, actions[0]), actions[1..]);
      } else {
        RunInOrder(s, actions[1..]);
      }
    }
  }

  /**
   Outside the bulk kinds a cache entry, if there is one, is the result of the
   key's last completed probe: every later probe of the key is one whose call
   has not published its result yet.
   */
  lemma CacheIsLastProbe(s: State, actions: seq<Action>, k: Key)
    requires Initial(s) && k in Run(s, actions).cache && k.kind !in s.checkers.bulk
    ensures var r := Run(s, actions); var mine := r.cache[k].verdict.probe;
            && mine < |r.log| && r.log[mine].key == k && r.log[mine].finished.Some? && r.log[mine].found.Some?
            && r.cache[k].verdict.state == StateOf(r.log[mine].found.value, k.target)
            && forall p: nat | mine < p < |r.log| && r.log[p].key == k :: Unpublished(r, k, p)
  {
    RunInOrder(s, actions);
    SameCheckers(s, actions);
    var r := Run(s, actions);
    assert EntryFine(r, k, r.cache[k]);
    forall p: nat | r.cache[k].verdict.probe < p < |r.log| && r.log[p].key == k ensures Unpublished(r, k, p) {
      assert Accounted(r, p);
    }
  }

  // ---- what is answered is what was found --------------------------------------------------------------

  /** The probe behind what a call returned; a call that gave up counts as the present. */
  function ProbeOf(s: State, via: Via): nat {
    match via
    case Cached(e, _) => e.verdict.probe
    case Joined(f) => if f < |s.flights| && s.flights[f].done.Some? then s.flights[f].done.value.probe else |s.log|
    case Owned(f) => if f < |s.flights| && s.flights[f].done.Some? then s.flights[f].done.value.probe else |s.log|
    case _ => |s.log|
  }

  lemma ReturnedFound(s: State, c: nat)
    requires Inv(s) && c < |s.calls| && s.calls[c].stage.Returned?
    requires !s.calls[c].stage.via.GaveUp? && !s.calls[c].stage.via.NoChecker?
    ensures Found(s, s.calls[c].key, Verdict(s.calls[c].stage.state, ProbeOf(s, s.calls[c].stage.via)))
  {
    assert CallFine(s, c);
  }

  /**
   Whether from the cache, by joining a flight or by probing: what a call returns
   is what the probe behind it found. That is the reported state of a single
   probe, unavailable for a failed list, and for a list the state of the target,
   misconfigured if it is not in it.
   */
  lemma AnswersAreFindings(s: State, actions: seq<Action>, c: nat)
    requires Initial(s) && c < |Run(s, actions).calls| && Run(s, actions).calls[c].stage.Returned?
    requires !Run(s, actions).calls[c].stage.via.GaveUp? && !Run(s, actions).calls[c].stage.via.NoChecker?
    ensures var r := Run(s, actions); var p := ProbeOf(r, r.calls[c].stage.via); var target := r.calls[c].key.target;
            && p < |r.log| && r.log[p].found.Some?
            && r.calls[c].stage.state ==
                 match r.log[p].found.value
                 case Reported(state) => state
                 case NoListing => Unavailable
                 case Listing(states) => if target in states then states[target] else Misconfigured
  {
    RunKeeps(s, actions);
    ReturnedFound(Run(s, actions), c);
  }

  lemma LaterOn(s: State, t: State, u: State)
    requires Later(s, t) && Later(t, u)
    ensures Later(s, u)
  {
  }

  lemma {:induction false} RunLater(s: State, actions: seq<Action>)
    requires Inv(s)
    ensures Later(s, Run(s, actions))
    decreases |actions|
  {
    if actions != [] {
      if Enabled(s, actions[0]) {
        StepKeeps(s, actions[0]);
        StepLater(s, actions[0]);
        RunLater(Step(s, actions[0]), actions[1..]);
        LaterOn(s, Step(s, actions[0]), Run(s, actions));
      } else {
        RunLater(s, actions[1..]);
      }
    }
  }

  lemma EndIsLogged(s: State, a: Action)
    requires Inv(s) && Enabled(s, a) && (a.Finish? || a.ListFails? || a.ListEnds?)
    ensures s.calls[a.c].stage.Running? && s.calls[a.c].stage.probe < |s.log| && |Step(s, a).log| == |s.log|
    ensures Step(s, a).log[s.calls[a.c].stage.probe] ==
              Probe(s.calls[a.c].key, Some(s.now), Some(if a.Finish? then Reported(a.state) else if a.ListFails? then NoListing else Listing(a.states)))
  {
    assert CallFine(s, a.c);
  }

  /**
   From the end of a probe to whoever is told: once the probe of call c has
   ended, every call that ever returns by it returns just that.
   */
  lemma EndReachesAll(s: State, before: seq<Action>, a: Action, after: seq<Action>, d: nat)
    requires Initial(s) && Enabled(Run(s, before), a) && (a.Finish? || a.ListFails? || a.ListEnds?)
    requires var u := Run(Step(Run(s, before), a), after);
             && d < |u.calls| && u.calls[d].stage.Returned? && !u.calls[d].stage.via.GaveUp? && !u.calls[d].stage.via.NoChecker?
             && Run(s, before).calls[a.c].stage.Running? && ProbeOf(u, u.calls[d].stage.via) == Run(s, before).calls[a.c].stage.probe
    ensures var call := Run(Step(Run(s, before), a), after).calls[d];
            call.stage.state ==
              match a
              case Finish(_, state) => state
              case ListFails(_) => Unavailable
              case ListEnds(_, states) => (if call.key.target in states then states[call.key.target] else Misconfigured)
              case _ => Unknown
  {
    var t := Run(s, before);
    RunKeeps(s, before);
    StepKeeps(t, a);
    EndIsLogged(t, a);
    RunKeeps(Step(t, a), after);
    RunLater(Step(t, a), after);
    ReturnedFound(Run(Step(t, a), after), d);
  }

  // ---- when the cache is used ----------------------------------------------------------------------------

  /** A forced call has nothing from the cache. */
  predicate IgnoresCache(c: Call) {
    c.force ==> !c.stage.Holding? && !(c.stage.Returned? && c.stage.via.Cached?)
  }

  lemma StepIgnoresCache(s: State, a: Action)
    requires Enabled(s, a) && forall c: nat | c < |s.calls| :: IgnoresCache(s.calls[c])
    ensures forall c: nat | c < |Step(s, a).calls| :: IgnoresCache(Step(s, a).calls[c])
  {
  }

  lemma {:induction false} RunIgnoresCache(s: State, actions: seq<Action>)
    requires forall c: nat | c < |s.calls| :: IgnoresCache(s.calls[c])
    ensures forall c: nat | c < |Run(s, actions).calls| :: IgnoresCache(Run(s, actions).calls[c])
    decreases |actions|
  {
    if actions != [] {
      if Enabled(s, actions[0]) {
        StepIgnoresCache(s, actions[0]);
      }
      RunIgnoresCache(Do(s, actions[0]), actions[1..]);
    }
  }

  /** A forced check is never answered from the cache. */
  lemma ForcedNeverCached(s: State, actions: seq<Action>, c: nat)
    requires Initial(s) && c < |Run(s, actions).calls| && Run(s, actions).calls[c].force
    ensures !(Run(s, actions).calls[c].stage.Returned? && Run(s, actions).calls[c].stage.via.Cached?)
  {
    RunIgnoresCache(s, actions);
    assert IgnoresCache(Run(s, actions).calls[c]);
  }

  /** What a call publishes is what it returns, what its waiters are given, and what the cache answers from now on. */
  lemma PublishCaches(s: State, actions: seq<Action>, c: nat)
    requires Initial(s) && Enabled(Run(s, actions), Publish(c))
    ensures var t := Step(Run(s, actions), Publish(c)); var call := t.calls[c];
            && call.stage.Returned? && call.stage.via.Owned? && call.stage.via.f < |t.flights|
            && t.flights[call.stage.via.f].done.Some? && t.flights[call.stage.via.f].done.value.state == call.stage.state
            && call.key in t.cache && t.cache[call.key].verdict.state == call.stage.state && t.cache[call.key].at == t.now
  {
    RunKeeps(s, actions);
    assert CallFine(Run(s, actions), c);
  }

  /** An undisturbed check that is not forced, up to its look at the cache. */
  function Looked(s: State, k: Key): State {
    Do(Do(Do(s, Ask(k, false)), Read(|s.calls|)), Test(|s.calls|))
  }

  /** It is answered from the cache exactly within the kind's lifetime of the writing of the entry. */
  lemma CacheServesIff(s: State, actions: seq<Action>, k: Key)
    requires Initial(s) && k.kind in s.checkers.ttl
    ensures var r := Run(s, actions); var t := Looked(r, k); var c := |r.calls|;
            && |t.calls| == c + 1 && t.log == r.log
            && if k in r.cache && r.now < r.cache[k].at + s.checkers.ttl[k.kind]
               then t.calls[c].stage == Returned(r.cache[k].verdict.state, Cached(r.cache[k], r.now))
               else t.calls[c].stage == Missed
  {
    RunKeeps(s, actions);
    SameCheckers(s, actions);
    var r := Run(s, actions);
    assert k in r.cache ==> EntryFine(r, k, r.cache[k]);
    LookedIs(r, k);
  }

  lemma LookedIs(s: State, k: Key)
    requires k.kind in s.checkers.ttl
    ensures Looked(s, k) == s.(calls := s.calls + [Call(k, false,
              if k in s.cache && s.now < s.cache[k].expiry then Returned(s.cache[k].verdict.state, Cached(s.cache[k], s.now)) else Missed)])
  {
    var c := |s.calls|;
    var s1 := Do(s, Ask(k, false));
    assert s1 == s.(calls := s.calls + [Call(k, false, Asked)]);
    assert Do(s1, Read(c)) == s.(calls := s.calls + [Call(k, false, Holding(if k in s.cache then Some(s.cache[k]) else None))]);
  }
}
