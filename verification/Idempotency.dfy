/**
 Idempotency keys: set-if-absent with expiry in a shared store, and what any number of requests that
 reserve a key and then create a job do with it.
 */
module Idempotency {
  import opened Prelude
  import opened Tables

  /** An effective reservation, whether or not its reply reached the request. */
  datatype Grant = Grant(key: string, at: int)

  /**
   `now` is the store's clock, `expiry` its keys (None: no expiry), `pending` the reservations whose
   request has not tried to create its job, `jobs` the jobs with the reservation they used.
   */
  datatype State = State(now: int, expiry: map<string, Option<int>>, grants: seq<Grant>, pending: set<nat>,
    jobs: map<JobId, Option<nat>>)

  predicate Live(s: State, key: string) {
    key in s.expiry && (s.expiry[key].None? || s.now < s.expiry[key].value)
  }

  /** SETNX; a zero TTL sets the key for good.  `heard`: the reply reached the request. */
  function Reserve(ttl: nat, s: State, key: string, heard: bool): State
    requires !Live(s, key)
  {
    s.(expiry := s.expiry[key := if ttl == 0 then None else Some(s.now + ttl)],
       grants := s.grants + [Grant(key, s.now)],
       pending := if heard then s.pending + {|s.grants|} else s.pending)
  }

  datatype Step =
    | Tick(to: int)
    | Reserves(key: string, heard: bool)
    | Creates(grant: Option<nat>, id: JobId)
    | Drops(unused: nat)

  predicate Enabled(s: State, st: Step) {
    match st
    case Tick(to) => to >= s.now
    case Reserves(key, _) => !Live(s, key)
    case Creates(g, id) => id !in s.jobs && (g.Some? ==> g.value in s.pending)
    case Drops(g) => g in s.pending
  }

  function Next(ttl: nat, s: State, st: Step): State
    requires Enabled(s, st)
  {
    match st
    case Tick(to) => s.(now := to)
    case Reserves(key, heard) => Reserve(ttl, s, key, heard)
    case Creates(g, id) => s.(jobs := s.jobs[id := g], pending := if g.Some? then s.pending - {g.value} else s.pending)
    case Drops(g) => s.(pending := s.pending - {g})
  }

  const START := State(0, map[], [], {}, map[])

  // ----- what every run keeps -----

  /** Two reservations of one key are a TTL apart; with no expiry there is only one. */
  predicate Spaced(ttl: nat, a: Grant, b: Grant) {
    a.key == b.key ==> ttl > 0 && b.at >= a.at + ttl
  }

  predicate Remembered(ttl: nat, s: State, g: Grant) {
    && g.at <= s.now
    && g.key in s.expiry
    && if ttl == 0 then s.expiry[g.key].None? else s.expiry[g.key].Some? && s.expiry[g.key].value >= g.at + ttl
  }

  /** Grant i is the one the store's entry for its key comes from. */
  predicate Backs(ttl: nat, s: State, key: string, i: nat) {
    && i < |s.grants| && s.grants[i].key == key && key in s.expiry
    && s.expiry[key] == if ttl == 0 then None else Some(s.grants[i].at + ttl)
  }

  ghost predicate Backed(ttl: nat, s: State, key: string) {
    exists i: nat :: Backs(ttl, s, key, i)
  }

  ghost predicate GrantsOk(ttl: nat, s: State) {
    && (forall key :: key in s.expiry ==> Backed(ttl, s, key))
    && (forall i :: 0 <= i < |s.grants| ==> Remembered(ttl, s, s.grants[i]))
    && (forall i, j :: 0 <= i < j < |s.grants| ==> Spaced(ttl, s.grants[i], s.grants[j]))
  }

  /** A reservation serves one job, and only after its request gave it up. */
  ghost predicate JobsOk(s: State) {
    && (forall g :: g in s.pending ==> g < |s.grants|)
    && (forall id :: id in s.jobs && s.jobs[id].Some? ==>
          s.jobs[id].value < |s.grants| && s.jobs[id].value !in s.pending)
    && (forall a, b :: a in s.jobs && b in s.jobs && a != b && s.jobs[a].Some? ==> s.jobs[a] != s.jobs[b])
  }

  ghost predicate Inv(ttl: nat, s: State) {
    GrantsOk(ttl, s) && JobsOk(s)
  }

  lemma NextKeeps(ttl: nat, s: State, st: Step)
    requires Inv(ttl, s) && Enabled(s, st)
    ensures Inv(ttl, Next(ttl, s, st))
  {
    GrantsKeep(ttl, s, st);
    JobsKeep(ttl, s, st);
  }

  lemma JobsKeep(ttl: nat, s: State, st: Step)
    requires JobsOk(s) && Enabled(s, st)
    ensures JobsOk(Next(ttl, s, st))
  {
  }

  lemma GrantsKeep(ttl: nat, s: State, st: Step)
    requires GrantsOk(ttl, s) && Enabled(s, st)
    ensures GrantsOk(ttl, Next(ttl, s, st))
  {
    var s' := Next(ttl, s, st);
    forall i | 0 <= i < |s.grants|
      ensures Remembered(ttl, s', s.grants[i])
      ensures st.Reserves? ==> Spaced(ttl, s.grants[i], Grant(st.key, s.now))
    {
      assert Remembered(ttl, s, s.grants[i]);
    }
    forall key | key in s'.expiry ensures Backed(ttl, s', key) {
      StaysBacked(ttl, s, st, key);
    }
  }

  lemma StaysBacked(ttl: nat, s: State, st: Step, key: string)
    requires GrantsOk(ttl, s) && Enabled(s, st) && key in Next(ttl, s, st).expiry
    ensures Backed(ttl, Next(ttl, s, st), key)
  {
    var s' := Next(ttl, s, st);
    if st.Reserves? && st.key == key {
      assert Backs(ttl, s', key, |s.grants|);
    } else {
      assert Backed(ttl, s, key);
      var i: nat :| Backs(ttl, s, key, i);
      assert Backs(ttl, s', key, i);
    }
  }

  datatype KeyTrace = KeyTrace(states: seq<State>, steps: seq<Step>)

  predicate TookKey(ttl: nat, tr: KeyTrace, i: nat)
    requires |tr.states| == |tr.steps| + 1 && i < |tr.steps|
  {
    Enabled(tr.states[i], tr.steps[i]) && tr.states[i + 1] == Next(ttl, tr.states[i], tr.steps[i])
  }

  predicate IsKeyTrace(ttl: nat, tr: KeyTrace) {
    && |tr.states| == |tr.steps| + 1
    && tr.states[0] == START
    && forall i :: 0 <= i < |tr.steps| ==> TookKey(ttl, tr, i)
  }

  lemma {:induction false} InvAt(ttl: nat, tr: KeyTrace, i: nat)
    requires IsKeyTrace(ttl, tr) && i < |tr.states|
    ensures Inv(ttl, tr.states[i])
  {
    if i > 0 {
      InvAt(ttl, tr, i - 1);
      assert TookKey(ttl, tr, i - 1);
      NextKeeps(ttl, tr.states[i - 1], tr.steps[i - 1]);
    }
  }

  // ----- how many -----

  /** The reservations of a key within a closed span of time. */
  function Within(s: State, key: string, from: int, span: nat): set<nat> {
    set i | 0 <= i < |s.grants| && s.grants[i].key == key && from <= s.grants[i].at <= from + span
  }

  /** The jobs that used them. */
  function JobsWithin(s: State, key: string, from: int, span: nat): set<JobId> {
    set id | id in s.jobs && s.jobs[id].Some? && s.jobs[id].value in Within(s, key, from, span)
  }

  lemma {:induction false} InjectionBound(xs: set<nat>, f: nat -> int, n: nat)
    requires forall x :: x in xs ==> 0 <= f(x) < n
    requires forall x, y :: x in xs && y in xs && x != y ==> f(x) != f(y)
    ensures |xs| <= n
    decreases n
  {
    if n > 0 {
      if x :| x in xs && f(x) == n - 1 {
        InjectionBound(xs - {x}, f, n - 1);
      } else {
        InjectionBound(xs, f, n - 1);
      }
    }
  }

  /** The time slot of a moment, in TTLs from the start of the span. */
  function Slot(ttl: nat, from: int, at: int): int
    requires ttl > 0
  {
    (at - from) / ttl
  }

  lemma SlotsDiffer(ttl: nat, from: int, a: int, b: int)
    requires ttl > 0 && b >= a + ttl
    ensures Slot(ttl, from, a) < Slot(ttl, from, b)
  {
    QuotientLess(ttl, a - from, Slot(ttl, from, a), b - from, Slot(ttl, from, b));
  }

  /** Numbers a whole divisor apart have different quotients. */
  lemma QuotientLess(d: nat, x: int, p: int, y: int, q: int)
    requires d * p <= x && y < d * q + d && y >= x + d
    ensures p < q
  {
    if q <= p {
      ProductMonotone(d, q, p);
    }
  }

  lemma ProductMonotone(d: nat, q: int, p: int)
    requires q <= p
    ensures d * q <= d * p
  {
    assert d * p - d * q == d * (p - q);
  }

  lemma SlotMonotone(ttl: nat, x: int, y: int)
    requires ttl > 0 && x <= y
    ensures x / ttl <= y / ttl
  {
    QuotientLess(ttl, x, x / ttl, y + ttl, y / ttl + 1);
  }

  lemma SlotInRange(ttl: nat, from: int, at: int, span: nat)
    requires ttl > 0 && from <= at <= from + span
    ensures 0 <= Slot(ttl, from, at) < span / ttl + 1
  {
    SlotMonotone(ttl, at - from, span);
  }

  /** A span T sees at most floor(T / TTL) + 1 reservations of one key, and one ever without expiry. */
  lemma GrantsBound(ttl: nat, tr: KeyTrace, key: string, from: int, span: nat)
    requires IsKeyTrace(ttl, tr)
    ensures
      var s := tr.states[|tr.steps|];
      |Within(s, key, from, span)| <= if ttl == 0 then 1 else span / ttl + 1
  {
    var s := tr.states[|tr.steps|];
    InvAt(ttl, tr, |tr.steps|);
    var xs := Within(s, key, from, span);
    if ttl == 0 {
      forall i, j | i in xs && j in xs ensures i == j {
        assert i < j ==> Spaced(ttl, s.grants[i], s.grants[j]);
        assert j < i ==> Spaced(ttl, s.grants[j], s.grants[i]);
      }
      InjectionBound(xs, i => 0, 1);
    } else {
      var f := (i: nat) => if i < |s.grants| then Slot(ttl, from, s.grants[i].at) else 0;
      forall i | i in xs ensures 0 <= f(i) < span / ttl + 1 {
        SlotInRange(ttl, from, s.grants[i].at, span);
      }
      forall i, j | i in xs && j in xs && i != j ensures f(i) != f(j) {
        SlotsOf(ttl, s, from, if i < j then i else j, if i < j then j else i);
      }
      InjectionBound(xs, f, span / ttl + 1);
    }
  }

  lemma SlotsOf(ttl: nat, s: State, from: int, i: nat, j: nat)
    requires Inv(ttl, s) && ttl > 0 && i < j < |s.grants| && s.grants[i].key == s.grants[j].key
    ensures Slot(ttl, from, s.grants[i].at) < Slot(ttl, from, s.grants[j].at)
  {
    assert Spaced(ttl, s.grants[i], s.grants[j]);
    SlotsDiffer(ttl, from, s.grants[i].at, s.grants[j].at);
  }

  /** Jobs map one to one to the reservations they used, so the same bound holds for the jobs created. */
  lemma JobsBound(ttl: nat, tr: KeyTrace, key: string, from: int, span: nat)
    requires IsKeyTrace(ttl, tr)
    ensures
      var s := tr.states[|tr.steps|];
      |JobsWithin(s, key, from, span)| <= if ttl == 0 then 1 else span / ttl + 1
  {
    var s := tr.states[|tr.steps|];
    InvAt(ttl, tr, |tr.steps|);
    GrantsBound(ttl, tr, key, from, span);
    var grantOf := (id: JobId) => if id in s.jobs && s.jobs[id].Some? then s.jobs[id].value else 0;
    InjectionSize(JobsWithin(s, key, from, span), Within(s, key, from, span), grantOf);
  }

  /** Two reservations of one key, in any run, are at least a TTL apart. */
  lemma SpacedByTtl(ttl: nat, tr: KeyTrace, i: nat, j: nat)
    requires IsKeyTrace(ttl, tr) && i < j < |tr.states[|tr.steps|].grants|
    requires tr.states[|tr.steps|].grants[i].key == tr.states[|tr.steps|].grants[j].key
    ensures ttl > 0 && tr.states[|tr.steps|].grants[j].at - tr.states[|tr.steps|].grants[i].at >= ttl
  {
    InvAt(ttl, tr, |tr.steps|);
    assert Spaced(ttl, tr.states[|tr.steps|].grants[i], tr.states[|tr.steps|].grants[j]);
  }

  /** Some reservation of the key was made less than a TTL ago, or ever, if there is no TTL. */
  ghost predicate Held(ttl: nat, s: State, key: string) {
    exists g :: 0 <= g < |s.grants| && HeldBy(ttl, s, key, g)
  }

  predicate HeldBy(ttl: nat, s: State, key: string, g: nat)
    requires g < |s.grants|
  {
    s.grants[g].key == key && (ttl == 0 || s.now < s.grants[g].at + ttl)
  }

  /**
   The store's entry says no more and no less: a key is taken until its last reservation expires, and
   then it is free.
   */
  lemma LiveExactly(ttl: nat, s: State, key: string)
    requires Inv(ttl, s)
    ensures Live(s, key) <==> Held(ttl, s, key)
  {
    if Live(s, key) {
      assert Backed(ttl, s, key);
      var g: nat :| Backs(ttl, s, key, g);
      assert HeldBy(ttl, s, key, g);
    }
    if g :| 0 <= g < |s.grants| && HeldBy(ttl, s, key, g) {
      assert Remembered(ttl, s, s.grants[g]);
    }
  }

  // ----- one request among others -----

  /** What the other requests leave alone: nothing is forgotten, and reservations held by `mine` stay held. */
  ghost predicate Grew(s: State, s': State, mine: set<nat>) {
    && s.now <= s'.now
    && s.grants <= s'.grants
    && (forall id :: id in s.jobs ==> id in s'.jobs && s'.jobs[id] == s.jobs[id])
    && (forall g :: g in mine && g in s.pending ==> g in s'.pending)
  }

  /** The step uses no reservation of `mine`. */
  predicate ByOther(st: Step, mine: set<nat>) {
    match st
    case Tick(_) => true
    case Reserves(_, _) => true
    case Creates(g, _) => g.Some? ==> g.value !in mine
    case Drops(g) => g !in mine
  }

  lemma NextGrew(ttl: nat, s: State, st: Step, mine: set<nat>)
    requires Enabled(s, st) && ByOther(st, mine)
    ensures Grew(s, Next(ttl, s, st), mine)
  {
  }

  lemma ExtendKeyTrace(ttl: nat, tr: KeyTrace, st: Step)
    requires IsKeyTrace(ttl, tr) && Enabled(tr.states[|tr.steps|], st)
    ensures IsKeyTrace(ttl, ExtendKeys(ttl, tr, st))
  {
    var tr' := ExtendKeys(ttl, tr, st);
    forall i | 0 <= i < |tr'.steps| ensures TookKey(ttl, tr', i) {
      assert i < |tr.steps| ==> TookKey(ttl, tr, i);
    }
  }

  function ExtendKeys(ttl: nat, tr: KeyTrace, st: Step): KeyTrace
    requires |tr.states| == |tr.steps| + 1 && Enabled(tr.states[|tr.steps|], st)
  {
    KeyTrace(tr.states + [Next(ttl, tr.states[|tr.steps|], st)], tr.steps + [st])
  }

  /** Nobody will create a job on the reservation any more, and its key is taken until it expires. */
  ghost predicate Spent(ttl: nat, s: State, g: nat, key: string) {
    && g < |s.grants| && s.grants[g].key == key
    && g !in s.pending
    && (ttl == 0 || s.now < s.grants[g].at + ttl ==> Live(s, key))
  }

  lemma DroppedIsSpent(ttl: nat, s: State, g: nat)
    requires Inv(ttl, s) && g < |s.grants| && g !in s.pending
    ensures Spent(ttl, s, g, s.grants[g].key)
  {
    assert Remembered(ttl, s, s.grants[g]);
  }

  /** The key was live in s and has not expired by `now`. */
  predicate StillLive(s: State, key: string, now: int) {
    key in s.expiry && (s.expiry[key].None? || now < s.expiry[key].value)
  }

  /** While a key stays live nobody reserves it. */
  lemma NoneWhileLive(ttl: nat, s: State, s': State, g: nat)
    requires Inv(ttl, s) && Inv(ttl, s') && Grew(s, s', {}) && |s.grants| <= g < |s'.grants|
    ensures !StillLive(s, s'.grants[g].key, s'.now)
  {
    var key := s'.grants[g].key;
    if key in s.expiry {
      assert Backed(ttl, s, key);
      var i: nat :| Backs(ttl, s, key, i);
      SpacedAfter(ttl, s', i, g);
    }
  }

  lemma SpacedAfter(ttl: nat, s: State, i: nat, g: nat)
    requires Inv(ttl, s) && i < g < |s.grants| && s.grants[i].key == s.grants[g].key
    ensures ttl > 0 && s.grants[i].at + ttl <= s.grants[g].at <= s.now
  {
    assert Spaced(ttl, s.grants[i], s.grants[g]);
    assert Remembered(ttl, s, s.grants[g]);
  }
}
