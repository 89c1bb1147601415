/**
 The cron registrations of the enabled tasks: Reload brings them in line with the
 table of tasks, touching only what changed.
 */
module Scheduler {
  import Texts

  datatype Task = Task(id: nat, enabled: bool, paused: bool, cron: string, timezone: string)

  /** A timer of the cron library: the task it fires and the schedule it fires it on. */
  datatype Timer = Timer(task: nat, cron: string, timezone: string)

  /** The parser of cron expressions and time zones. */
  type Parser = (string, string) -> bool

  const NUL := 0 as char

  /** Neither a cron expression nor the name of a time zone that parses holds a NUL. */
  ghost predicate RefusesNul(parses: Parser) {
    forall e, z :: parses(e, z) ==> NUL !in e && NUL !in z
  }

  /** The text that tells whether anything about the schedule changed. */
  function SpecKey(t: Task): string {
    t.cron + [NUL] + t.timezone
  }

  function Nuls(s: string): nat {
    if s == [] then 0 else (if s[0] == NUL then 1 else 0) + Nuls(s[1..])
  }

  lemma {:induction false} NulsOfConcat(s: string, t: string)
    ensures Nuls(s + t) == Nuls(s) + Nuls(t)
  {
    if s == [] {
      assert s + t == t;
    } else {
      assert (s + t)[1..] == s[1..] + t;
      NulsOfConcat(s[1..], t);
    }
  }

  lemma {:induction false} NoNuls(s: string)
    ensures Nuls(s) == 0 <==> NUL !in s
  {
    if s != [] {
      NoNuls(s[1..]);
      assert s == [s[0]] + s[1..];
    }
  }

  /** One key with a single NUL comes from one expression and one time zone only. */
  lemma SpecKeyTells(a: string, b: string, x: string, y: string)
    requires NUL !in a && NUL !in b && a + [NUL] + b == x + [NUL] + y
    ensures a == x && b == y
  {
    NulsOfConcat(a + [NUL], b);
    NulsOfConcat(a, [NUL]);
    NulsOfConcat(x + [NUL], y);
    NulsOfConcat(x, [NUL]);
    NoNuls(a);
    NoNuls(b);
    NoNuls(x);
    Texts.CutFinds(a, NUL, b);
    Texts.CutFinds(x, NUL, y);
  }

  /** The tasks that may fire, by id: enabled and not paused. */
  function Wanted(tasks: seq<Task>): map<nat, Task> {
    if tasks == [] then map[]
    else
      var t := tasks[|tasks| - 1];
      if t.enabled && !t.paused then Wanted(tasks[..|tasks| - 1])[t.id := t] else Wanted(tasks[..|tasks| - 1])
  }

  /** entries and specs by task; cron holds the library's timers by entry id. */
  datatype Table = Table(entries: map<nat, nat>, specs: map<nat, string>, cron: map<nat, Timer>, nextID: nat)

  const EMPTY_TABLE := Table(map[], map[], map[], 1)

  /** Every registration has its own timer with its own spec, and there is no other timer. */
  ghost predicate Sound(s: Table, parses: Parser) {
    && s.specs.Keys == s.entries.Keys
    && (forall id | id in s.entries :: Registered(s, parses, id))
    && (forall e | e in s.cron :: e < s.nextID && s.cron[e].task in s.entries && s.entries[s.cron[e].task] == e)
  }

  predicate Registered(s: Table, parses: Parser, id: nat)
    requires id in s.entries
  {
    && id in s.specs && s.entries[id] in s.cron
    && var timer := s.cron[s.entries[id]];
       timer.task == id && parses(timer.cron, timer.timezone) && s.specs[id] == timer.cron + [NUL] + timer.timezone
  }

  predicate Schedulable(wanted: map<nat, Task>, parses: Parser, id: nat) {
    id in wanted && parses(wanted[id].cron, wanted[id].timezone)
  }

  /** The timer of a registration is the one its task asks for now. */
  predicate UpToDate(s: Table, wanted: map<nat, Task>, id: nat) {
    && id in s.entries && s.entries[id] in s.cron && id in wanted && id in s.specs
    && s.cron[s.entries[id]] == Timer(id, wanted[id].cron, wanted[id].timezone)
    && s.specs[id] == SpecKey(wanted[id])
  }

  predicate Unchanged(s: Table, wanted: map<nat, Task>, id: nat) {
    id in s.entries && id in s.specs && id in wanted && s.specs[id] == SpecKey(wanted[id])
  }

  /** Exactly the schedulable tasks are registered, each up to date. */
  ghost predicate Settled(wanted: map<nat, Task>, parses: Parser, t: Table) {
    && Sound(t, parses)
    && (forall id :: id in t.entries <==> Schedulable(wanted, parses, id))
    && (forall id | id in t.entries :: UpToDate(t, wanted, id))
  }

  /** What Reload promises: exactly the schedulable tasks, each up to date, and the unchanged ones keep their entry. */
  ghost predicate Reconciled(s: Table, wanted: map<nat, Task>, parses: Parser, t: Table) {
    && Settled(wanted, parses, t) && t.nextID >= s.nextID
    && (forall id | id in t.entries :: if Unchanged(s, wanted, id) then t.entries[id] == s.entries[id] else t.entries[id] >= s.nextID)
    && ((forall id | id in t.entries :: Unchanged(s, wanted, id)) ==> t.nextID == s.nextID)
  }

  function Removed(s: Table, id: nat): Table
    requires id in s.entries
  {
    Table(s.entries - {id}, s.specs - {id}, s.cron - {s.entries[id]}, s.nextID)
  }

  function Added(s: Table, id: nat, t: Task): Table {
    Table(s.entries[id := s.nextID], s.specs[id := SpecKey(t)], s.cron[s.nextID := Timer(id, t.cron, t.timezone)], s.nextID + 1)
  }

  lemma RemovedSound(s: Table, parses: Parser, id: nat)
    requires Sound(s, parses) && id in s.entries
    ensures Sound(Removed(s, id), parses)
  {
    assert Registered(s, parses, id);
    forall j | j in s.entries && j != id ensures s.entries[j] != s.entries[id] && Registered(Removed(s, id), parses, j) {
      assert Registered(s, parses, j);
    }
  }

  lemma AddedRegistered(s: Table, parses: Parser, id: nat, t: Task, j: nat)
    requires Sound(s, parses) && id !in s.entries && parses(t.cron, t.timezone) && (j == id || j in s.entries)
    ensures Registered(Added(s, id, t), parses, j)
  {
    if j != id {
      assert Registered(s, parses, j);
    }
  }

  lemma AddedSound(s: Table, parses: Parser, id: nat, t: Task)
    requires Sound(s, parses) && id !in s.entries && parses(t.cron, t.timezone)
    ensures Sound(Added(s, id, t), parses)
  {
    forall j | j in Added(s, id, t).entries ensures Registered(Added(s, id, t), parses, j) {
      AddedRegistered(s, parses, id, t, j);
    }
  }

  lemma AddedUpToDate(s: Table, parses: Parser, id: nat, wanted: map<nat, Task>, j: nat)
    requires Sound(s, parses) && id !in s.entries && id in wanted
    ensures UpToDate(s, wanted, j) ==> UpToDate(Added(s, id, wanted[id]), wanted, j)
    ensures UpToDate(Added(s, id, wanted[id]), wanted, id)
  {
    if j in s.entries {
      assert Registered(s, parses, j);
    }
  }

  /** A registration whose spec still matches is the one the task asks for. */
  lemma MatchingSpec(s: Table, parses: Parser, wanted: map<nat, Task>, id: nat)
    requires RefusesNul(parses) && Sound(s, parses) && Unchanged(s, wanted, id)
    ensures UpToDate(s, wanted, id)
  {
    assert Registered(s, parses, id);
    var timer := s.cron[s.entries[id]];
    SpecKeyTells(timer.cron, timer.timezone, wanted[id].cron, wanted[id].timezone);
  }

  /** Of the registrations looked at, those that match are left, as they were. */
  ghost predicate Dropped(s: Table, t: Table, wanted: map<nat, Task>, todo: set<nat>) {
    && t.nextID == s.nextID
    && (forall id | id in t.entries :: id in s.entries && t.entries[id] == s.entries[id])
    && (forall id | id in t.specs :: id in s.specs && t.specs[id] == s.specs[id])
    && (forall id | id in s.entries && id in todo :: id in t.entries && id in t.specs)
    && (forall id | id in s.entries && id !in todo :: id in t.entries <==> Unchanged(s, wanted, id))
  }

  lemma DroppedMore(s: Table, t: Table, wanted: map<nat, Task>, todo: set<nat>, id: nat)
    requires Dropped(s, t, wanted, todo) && id in todo && id in t.entries && id in t.specs
    ensures if Unchanged(t, wanted, id) then Dropped(s, t, wanted, todo - {id}) else Dropped(s, Removed(t, id), wanted, todo - {id})
  {
    assert Unchanged(t, wanted, id) <==> Unchanged(s, wanted, id);
  }

  /** What was there is left, and of the tasks looked at the schedulable ones are registered, under new ids. */
  ghost predicate Completed(s: Table, t: Table, wanted: map<nat, Task>, parses: Parser, todo: set<nat>) {
    && t.nextID >= s.nextID
    && (forall id :: id in t.entries <==> id in s.entries || (id !in todo && Schedulable(wanted, parses, id)))
    && (forall id | id in t.entries :: UpToDate(t, wanted, id))
    && (forall id | id in t.entries :: if id in s.entries then t.entries[id] == s.entries[id] else t.entries[id] >= s.nextID)
    && (t.nextID == s.nextID || exists id :: id in t.entries && id !in s.entries)
  }

  lemma CompletedAdded(s: Table, t: Table, wanted: map<nat, Task>, parses: Parser, todo: set<nat>, id: nat)
    requires Sound(t, parses) && Completed(s, t, wanted, parses, todo) && id in todo && id in wanted
    requires id !in t.entries && Schedulable(wanted, parses, id)
    ensures Completed(s, Added(t, id, wanted[id]), wanted, parses, todo - {id})
  {
    var u := Added(t, id, wanted[id]);
    forall j | j in u.entries ensures UpToDate(u, wanted, j) {
      AddedUpToDate(t, parses, id, wanted, j);
    }
    assert id in u.entries && id !in s.entries;
  }

  lemma CompletedSame(s: Table, t: Table, wanted: map<nat, Task>, parses: Parser, todo: set<nat>, id: nat)
    requires Completed(s, t, wanted, parses, todo) && id in todo
    requires id in t.entries || !Schedulable(wanted, parses, id)
    ensures Completed(s, t, wanted, parses, todo - {id})
  {
    assert id in t.entries ==> UpToDate(t, wanted, id);
  }

  lemma CompletedMore(s: Table, t: Table, wanted: map<nat, Task>, parses: Parser, todo: set<nat>, id: nat)
    requires Sound(t, parses) && Completed(s, t, wanted, parses, todo) && id in todo && id in wanted
    ensures if id !in t.entries && Schedulable(wanted, parses, id) then Completed(s, Added(t, id, wanted[id]), wanted, parses, todo - {id})
            else Completed(s, t, wanted, parses, todo - {id})
  {
    if id !in t.entries && Schedulable(wanted, parses, id) {
      CompletedAdded(s, t, wanted, parses, todo, id);
    } else {
      CompletedSame(s, t, wanted, parses, todo, id);
    }
  }

  class Scheduler {
    var entries: map<nat, nat>
    var specs: map<nat, string>
    var cron: map<nat, Timer>
    var nextID: nat
    const parses: Parser

    ghost function View(): Table
      reads this
    {
      Table(entries, specs, cron, nextID)
    }

    ghost predicate Valid()
      reads this
    {
      RefusesNul(parses) && Sound(View(), parses)
    }

    constructor (parses: Parser)
      requires RefusesNul(parses)
      ensures Valid() && View() == EMPTY_TABLE && this.parses == parses
    {
      entries, specs, cron, nextID := map[], map[], map[], 1;
      this.parses := parses;
    }

    method Collect(tasks: seq<Task>) returns (wanted: map<nat, Task>)
      ensures wanted == Wanted(tasks)
    {
      wanted := map[];
      for i := 0 to |tasks|
        invariant wanted == Wanted(tasks[..i])
      {
        assert tasks[..i + 1][..i] == tasks[..i];
        if tasks[i].enabled && !tasks[i].paused {
          wanted := wanted[tasks[i].id := tasks[i]];
        }
      }
      assert tasks[..|tasks|] == tasks;
    }

    method Drop(id: nat)
      requires Valid() && id in entries
      modifies `entries, `specs, `cron
      ensures Valid() && View() == Removed(old(View()), id)
    {
      RemovedSound(View(), parses, id);
      cron := cron - {entries[id]};
      entries := entries - {id};
      specs := specs - {id};
    }

    method Add(id: nat, task: Task)
      requires Valid() && id !in entries && parses(task.cron, task.timezone)
      modifies `entries, `specs, `cron, `nextID
      ensures Valid() && View() == Added(old(View()), id, task)
    {
      AddedSound(View(), parses, id, task);
      cron := cron[nextID := Timer(id, task.cron, task.timezone)];
      entries := entries[id := nextID];
      specs := specs[id := SpecKey(task)];
      nextID := nextID + 1;
    }

    /** Removes the registrations that are not wanted or whose spec changed. */
    method DropStale(wanted: map<nat, Task>)
      requires Valid()
      modifies `entries, `specs, `cron
      ensures Valid() && Dropped(old(View()), View(), wanted, {})
    {
      var todo := entries.Keys;
      while todo != {}
        invariant Valid() && todo <= entries.Keys && nextID == old(nextID)
        invariant Dropped(old(View()), View(), wanted, todo)
        decreases todo
      {
        var id :| id in todo;
        assert Registered(View(), parses, id);
        DroppedMore(old(View()), View(), wanted, todo, id);
        if !(id in wanted && specs[id] == SpecKey(wanted[id])) {
          Drop(id);
        }
        todo := todo - {id};
      }
    }

    /** Registers what is missing; a task whose schedule does not parse is passed over. */
    method AddMissing(wanted: map<nat, Task>)
      requires Valid() && forall id | id in entries :: UpToDate(View(), wanted, id)
      modifies `entries, `specs, `cron, `nextID
      ensures Valid() && Completed(old(View()), View(), wanted, parses, {})
    {
      var todo := wanted.Keys;
      while todo != {}
        invariant todo <= wanted.Keys && Valid()
        invariant Completed(old(View()), View(), wanted, parses, todo)
        decreases todo
      {
        var id :| id in todo;
        CompletedMore(old(View()), View(), wanted, parses, todo, id);
        if id !in entries && parses(wanted[id].cron, wanted[id].timezone) {
          Add(id, wanted[id]);
        }
        todo := todo - {id};
      }
    }

    method Reload(tasks: seq<Task>)
      requires Valid()
      modifies this
      ensures Valid() && Reconciled(old(View()), Wanted(tasks), parses, View())
    {
      var wanted := Collect(tasks);
      ghost var before := View();
      DropStale(wanted);
      ghost var kept := View();
      MatchingKept(before, kept, parses, wanted);
      AddMissing(wanted);
      ThenReconciled(before, kept, View(), parses, wanted);
    }
  }

  lemma MatchingKept(s: Table, k: Table, parses: Parser, wanted: map<nat, Task>)
    requires RefusesNul(parses) && Sound(s, parses) && Sound(k, parses) && Dropped(s, k, wanted, {})
    ensures forall id | id in k.entries :: UpToDate(k, wanted, id)
    ensures forall id :: id in k.entries <==> Unchanged(s, wanted, id)
  {
    forall id | id in k.entries ensures UpToDate(k, wanted, id) {
      assert Registered(k, parses, id);
      MatchingSpec(k, parses, wanted, id);
    }
  }

  lemma ThenReconciled(s: Table, k: Table, t: Table, parses: Parser, wanted: map<nat, Task>)
    requires Sound(t, parses) && k.nextID == s.nextID && Completed(k, t, wanted, parses, {})
    requires forall id | id in k.entries :: id in s.entries && k.entries[id] == s.entries[id] && UpToDate(k, wanted, id)
    requires forall id :: id in k.entries <==> Unchanged(s, wanted, id)
    requires Sound(k, parses)
    ensures Reconciled(s, wanted, parses, t)
  {
    forall id | id in k.entries ensures Schedulable(wanted, parses, id) {
      assert Registered(k, parses, id);
    }
  }

  /** Wanted under an id is a task of that id. */
  lemma {:induction false} WantedIsATask(tasks: seq<Task>, id: nat)
    ensures id in Wanted(tasks) ==> Wanted(tasks)[id] in tasks && Wanted(tasks)[id].id == id
  {
    if tasks != [] {
      var n := |tasks| - 1;
      WantedIsATask(tasks[..n], id);
      assert tasks == tasks[..n] + [tasks[n]];
    }
  }

  lemma {:induction false} WantedIff(tasks: seq<Task>, t: Task)
    requires forall i, j | 0 <= i < j < |tasks| :: tasks[i].id != tasks[j].id
    ensures (t.id in Wanted(tasks) && Wanted(tasks)[t.id] == t) <==> t in tasks && t.enabled && !t.paused
  {
    if tasks != [] {
      var n := |tasks| - 1;
      WantedIff(tasks[..n], t);
      assert tasks == tasks[..n] + [tasks[n]];
      assert t in tasks[..n] ==> t.id != tasks[n].id;
    }
  }

  /** With ids that are unique, as they are in the table of tasks, exactly the enabled and unpaused ones are wanted. */
  lemma WantedMeaning(tasks: seq<Task>)
    requires forall i, j | 0 <= i < j < |tasks| :: tasks[i].id != tasks[j].id
    ensures forall t: Task :: (t.id in Wanted(tasks) && Wanted(tasks)[t.id] == t) <==> t in tasks && t.enabled && !t.paused
    ensures forall id | id in Wanted(tasks) :: exists t :: t in tasks && t.id == id
  {
    forall t: Task ensures (t.id in Wanted(tasks) && Wanted(tasks)[t.id] == t) <==> t in tasks && t.enabled && !t.paused {
      WantedIff(tasks, t);
    }
    forall id | id in Wanted(tasks) ensures exists t :: t in tasks && t.id == id {
      WantedIsATask(tasks, id);
    }
  }

  /**
   What Reload leaves, in terms of the tasks: registered are exactly the enabled
   and unpaused tasks whose schedule parses, each with one timer on its current
   expression and time zone, and there is no other timer.
   */
  lemma ReconciledMeaning(s: Table, tasks: seq<Task>, parses: Parser, t: Table)
    requires forall i, j | 0 <= i < j < |tasks| :: tasks[i].id != tasks[j].id
    requires Reconciled(s, Wanted(tasks), parses, t)
    ensures forall task | task in tasks :: task.id in t.entries <==> task.enabled && !task.paused && parses(task.cron, task.timezone)
    ensures forall task | task in tasks && task.id in t.entries ::
              t.entries[task.id] in t.cron && t.cron[t.entries[task.id]] == Timer(task.id, task.cron, task.timezone)
    ensures forall id | id in t.entries :: exists task :: task in tasks && task.id == id
    ensures forall e | e in t.cron :: t.cron[e].task in t.entries && t.entries[t.cron[e].task] == e
  {
    forall task | task in tasks
      ensures task.id in t.entries <==> task.enabled && !task.paused && parses(task.cron, task.timezone)
      ensures task.id in t.entries ==> t.entries[task.id] in t.cron && t.cron[t.entries[task.id]] == Timer(task.id, task.cron, task.timezone)
    {
      ReconciledOne(tasks, parses, t, task);
    }
    forall id | id in t.entries ensures exists task :: task in tasks && task.id == id {
      WantedIsATask(tasks, id);
    }
  }

  lemma ReconciledOne(tasks: seq<Task>, parses: Parser, t: Table, task: Task)
    requires forall i, j | 0 <= i < j < |tasks| :: tasks[i].id != tasks[j].id
    requires Settled(Wanted(tasks), parses, t) && task in tasks
    ensures task.id in t.entries <==> task.enabled && !task.paused && parses(task.cron, task.timezone)
    ensures task.id in t.entries ==> t.entries[task.id] in t.cron && t.cron[t.entries[task.id]] == Timer(task.id, task.cron, task.timezone)
  {
    OnlyTaskOf(tasks, task);
    WantedIff(tasks, task);
    assert task.id in t.entries <==> Schedulable(Wanted(tasks), parses, task.id);
    assert task.id in t.entries ==> UpToDate(t, Wanted(tasks), task.id);
  }

  /** What is wanted under the id of a task is that task. */
  lemma OnlyTaskOf(tasks: seq<Task>, t: Task)
    requires forall i, j | 0 <= i < j < |tasks| :: tasks[i].id != tasks[j].id
    requires t in tasks
    ensures t.id in Wanted(tasks) ==> Wanted(tasks)[t.id] == t
  {
    WantedIsATask(tasks, t.id);
  }

  /** Reloading again with the same tasks changes nothing at all. */
  lemma ReloadIsIdempotent(s: Table, wanted: map<nat, Task>, parses: Parser, t: Table, u: Table)
    requires Reconciled(s, wanted, parses, t) && Reconciled(t, wanted, parses, u)
    ensures u == t
  {
    SettledStays(wanted, parses, t, u);
    SettledTimers(wanted, parses, t, u);
  }

  lemma SettledStays(wanted: map<nat, Task>, parses: Parser, t: Table, u: Table)
    requires Settled(wanted, parses, t) && Reconciled(t, wanted, parses, u)
    ensures u.nextID == t.nextID && u.entries == t.entries && u.specs == t.specs
  {
    forall id | id in u.entries ensures Unchanged(t, wanted, id) && UpToDate(t, wanted, id) && UpToDate(u, wanted, id) {
      assert Schedulable(wanted, parses, id);
    }
    assert forall id :: id in u.entries <==> id in t.entries;
  }

  lemma SettledTimers(wanted: map<nat, Task>, parses: Parser, t: Table, u: Table)
    requires Settled(wanted, parses, t) && Settled(wanted, parses, u) && u.entries == t.entries
    ensures u.cron == t.cron
  {
    forall e | e in u.cron ensures e in t.cron && u.cron[e] == t.cron[e] {
      SameTimer(wanted, parses, u, t, e);
    }
    forall e | e in t.cron ensures e in u.cron {
      SameTimer(wanted, parses, t, u, e);
    }
  }

  lemma SameTimer(wanted: map<nat, Task>, parses: Parser, t: Table, u: Table, e: nat)
    requires Settled(wanted, parses, t) && Settled(wanted, parses, u) && u.entries == t.entries && e in t.cron
    ensures e in u.cron && u.cron[e] == t.cron[e]
  {
    assert UpToDate(t, wanted, t.cron[e].task) && UpToDate(u, wanted, t.cron[e].task);
  }

  lemma TimersAreValues(s: Table, parses: Parser)
    requires Sound(s, parses)
    ensures s.cron.Keys == s.entries.Values
  {
    forall i | i in s.entries ensures s.entries[i] in s.cron {
      assert Registered(s, parses, i);
    }
    forall e ensures e in s.cron.Keys <==> e in s.entries.Values {
      assert e in s.cron ==> s.entries[s.cron[e].task] == e;
    }
  }

  /** The timers are exactly the registrations: as many of them, each found from its task. */
  lemma NoLeakedTimer(s: Table, parses: Parser)
    requires Sound(s, parses)
    ensures s.cron.Keys == s.entries.Values && |s.cron| == |s.entries|
    ensures forall i, j | i in s.entries && j in s.entries && s.entries[i] == s.entries[j] :: i == j
  {
    forall i, j | i in s.entries && j in s.entries && s.entries[i] == s.entries[j] ensures i == j {
      assert Registered(s, parses, i) && Registered(s, parses, j);
    }
    TimersAreValues(s, parses);
    SameCount(s.entries);
  }

  lemma {:induction false} SameCount(m: map<nat, nat>)
    requires forall i, j | i in m && j in m && m[i] == m[j] :: i == j
    ensures |m| == |m.Values|
    decreases |m|
  {
    if m == map[] {
      assert m.Values == {};
    } else {
      var i :| i in m;
      var rest := m - {i};
      forall v ensures v in rest.Values <==> v in m.Values && v != m[i] {
        if v in m.Values && v != m[i] {
          var j :| j in m && m[j] == v;
          assert j in rest && rest[j] == v;
        }
      }
      SameCount(rest);
      assert rest.Values == m.Values - {m[i]} && |rest| == |m| - 1;
    }
  }
}
