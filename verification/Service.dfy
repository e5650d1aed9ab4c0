/**
 The service's methods, statement by statement, while every other actor of the system runs in
 between.  Each statement is one step of the machine, so whatever these methods do is part of a run
 and every guarantee about runs applies to it.
 */
module Service {
  import opened Prelude
  import opened Tables
  import opened Machine
  import opened Ownership
  import opened Consistency
  import opened Guarantees
  import opened Locks
  import Keys = Idempotency

  /** The step belongs to neither actor `me` nor the request that still holds a message of `mine`. */
  predicate ByOther(st: Step, me: Option<nat>, mine: set<JobId>) {
    match st
    case Create(_, _, _) => true
    case Enqueue(id) => id !in mine
    case Reject(id) => id !in mine
    case Handoff(w, id) => Some(w) != me && id !in mine
    case _ => Some(st.w) != me
  }

  /** What the other actors leave alone. */
  lemma OthersMove(s: Sys, st: Step, me: Option<nat>, mine: set<JobId>)
    requires Enabled(s, st) && ByOther(st, me, mine)
    ensures me.Some? ==> At(Next(s, st), me.value) == At(s, me.value)
    ensures forall id :: id in mine && id in s.inbox ==> id in Next(s, st).inbox
  {
  }

  /** The key store's run ends in `store`, and it knows each job there is. */
  ghost predicate Keyed(ttl: nat, keys: Keys.KeyTrace, store: Keys.State, jobs: set<JobId>) {
    Keys.IsKeyTrace(ttl, keys) && keys.states[|keys.steps|] == store && store.jobs.Keys == jobs
  }

  lemma KeyStep(ttl: nat, keys: Keys.KeyTrace, store: Keys.State, jobs: set<JobId>, st: Keys.Step, held: set<nat>)
    requires Keyed(ttl, keys, store, jobs) && Keys.Enabled(store, st) && Keys.ByOther(st, held)
    ensures
      Keyed(ttl, Keys.ExtendKeys(ttl, keys, st), Keys.Next(ttl, store, st), Keys.Next(ttl, store, st).jobs.Keys)
    ensures Keys.Grew(store, Keys.Next(ttl, store, st), held)
  {
    Keys.ExtendKeyTrace(ttl, keys, st);
    Keys.NextGrew(ttl, store, st, held);
  }

  lemma CreateStep(mode: Mode, cap: nat, tr: Trace, id: JobId, pair: Pair, at: Micros)
    requires IsTrace(mode, cap, tr) && CanCreate(Last(tr), id)
    ensures IsTrace(mode, cap, Extend(tr, Step.Create(id, pair, at)))
    ensures Last(Extend(tr, Step.Create(id, pair, at))) == DoCreate(Last(tr), id, pair, at)
    ensures Grows(Last(tr), DoCreate(Last(tr), id, pair, at)) && Last(tr).mode == mode
  {
    InvAt(mode, cap, tr, |tr.steps|);
    NextGrows(Last(tr), Step.Create(id, pair, at));
    ExtendTrace(mode, cap, tr, Step.Create(id, pair, at));
  }

  /** The database, the channel, the actors and the key store, with the runs that led here. */
  class Server {
    const mode: Mode
    const cap: nat
    const ttl: nat
    var sys: Sys
    var store: Keys.State
    ghost var trace: Trace
    ghost var keys: Keys.KeyTrace

    ghost predicate Valid() reads this {
      IsTrace(mode, cap, trace) && Last(trace) == sys && Keyed(ttl, keys, store, sys.db.jobs.Keys)
    }

    constructor (mode: Mode, cap: nat, ttl: nat)
      ensures Valid() && this.mode == mode && this.cap == cap && this.ttl == ttl
      ensures sys == Init(mode, cap) && store == Keys.START
    {
      this.mode, this.cap, this.ttl := mode, cap, ttl;
      sys, store := Init(mode, cap), Keys.START;
      trace, keys := Trace([Init(mode, cap)], []), Keys.KeyTrace([Keys.START], []);
    }

    lemma Sound()
      requires Valid()
      ensures Inv(sys) && sys.mode == mode
    {
      InvAt(mode, cap, trace, |trace.steps|);
    }

    lemma Same()
      requires Valid()
      ensures Grows(sys, sys) && Keys.Grew(store, store, {})
    {
      Sound();
      GrowsReflexive(sys);
    }

    lemma SoundKeys()
      requires Valid()
      ensures Keys.Inv(ttl, store)
    {
      Keys.InvAt(ttl, keys, |keys.steps|);
    }

    lemma NotLiveBefore(before: Keys.State, g: nat)
      requires Valid() && Keys.Inv(ttl, before) && Keys.Grew(before, store, {}) && |before.grants| <= g < |store.grants|
      ensures !Keys.StillLive(before, store.grants[g].key, store.now)
    {
      SoundKeys();
      Keys.NoneWhileLive(ttl, before, store, g);
    }

    /** A reservation nobody holds keeps its key taken until it expires. */
    lemma Spend(g: nat)
      requires Valid() && g < |store.grants| && g !in store.pending
      ensures Keys.Spent(ttl, store, g, store.grants[g].key)
    {
      SoundKeys();
      Keys.DroppedIsSpent(ttl, store, g);
    }

    /** One step, extending the run; the key store has no part in it. */
    method Take(st: Step)
      requires Valid() && Enabled(sys, st) && !st.Create?
      modifies this`sys, this`trace
      ensures Valid() && sys == Next(old(sys), st) && Grows(old(sys), sys)
      ensures trace == Extend(old(trace), st) && Continues(old(trace), trace)
    {
      Sound();
      NextGrows(sys, st);
      OnlyCreateAdds(sys, st);
      ExtendTrace(mode, cap, trace, st);
      trace := Extend(trace, st);
      sys := Next(sys, st);
    }

    /** A step of the key store alone. */
    method TakeKey(st: Keys.Step, ghost held: set<nat> := {})
      requires Valid() && Keys.Enabled(store, st) && !st.Creates? && Keys.ByOther(st, held)
      modifies this`store, this`keys
      ensures Valid() && store == Keys.Next(ttl, old(store), st) && Keys.Grew(old(store), store, held)
    {
      KeyStep(ttl, keys, store, sys.db.jobs.Keys, st, held);
      keys := Keys.ExtendKeys(ttl, keys, st);
      store := Keys.Next(ttl, store, st);
    }

    /** The one step in both: a new row, on the reservation its request holds, if it needs one. */
    method Create(g: Option<nat>, id: JobId, pair: Pair, at: Micros, ghost held: set<nat> := {})
      requires Valid() && id !in sys.db.jobs
      requires g.Some? ==> g.value in store.pending && g.value !in held
      modifies this
      ensures Valid() && Grows(old(sys), sys) && Keys.Grew(old(store), store, held)
      ensures sys == DoCreate(old(sys), id, pair, at) && sys.mode == mode
      ensures trace == Extend(old(trace), Step.Create(id, pair, at)) && Continues(old(trace), trace)
      ensures store == Keys.Next(ttl, old(store), Keys.Creates(g, id))
    {
      CreateStep(mode, cap, trace, id, pair, at);
      KeyStep(ttl, keys, store, sys.db.jobs.Keys, Keys.Creates(g, id), held);
      trace, keys := Extend(trace, Step.Create(id, pair, at)), Keys.ExtendKeys(ttl, keys, Keys.Creates(g, id));
      sys, store := DoCreate(sys, id, pair, at), Keys.Next(ttl, store, Keys.Creates(g, id));
    }

    /** Any number of steps of the other actors, the other requests and the clock. */
    method Others(me: Option<nat>, mine: set<JobId>, held: set<nat> := {})
      requires Valid()
      modifies this
      ensures Valid() && Grows(old(sys), sys) && Keys.Grew(old(store), store, held)
      ensures me.Some? ==> At(sys, me.value) == At(old(sys), me.value)
      ensures forall id :: id in mine && id in old(sys).inbox ==> id in sys.inbox
      ensures Continues(old(trace), trace)
    {
      Sound();
      GrowsReflexive(sys);
      var n: nat := *;
      while n > 0
        invariant Valid() && Grows(old(sys), sys) && Keys.Grew(old(store), store, held)
        invariant me.Some? ==> At(sys, me.value) == At(old(sys), me.value)
        invariant forall id :: id in mine && id in old(sys).inbox ==> id in sys.inbox
        invariant Continues(old(trace), trace)
      {
        ghost var before := sys;
        OneOther(me, mine, held);
        GrowsTransitive(old(sys), before, sys);
        n := n - 1;
      }
    }

    /** One step of somebody else, whichever it is. */
    method OneOther(me: Option<nat>, mine: set<JobId>, held: set<nat>)
      requires Valid()
      modifies this
      ensures Valid() && Grows(old(sys), sys) && Keys.Grew(old(store), store, held)
      ensures me.Some? ==> At(sys, me.value) == At(old(sys), me.value)
      ensures forall id :: id in mine && id in old(sys).inbox ==> id in sys.inbox
      ensures Continues(old(trace), trace)
    {
      Same();
      var st: Step, key: Keys.Step, g: Option<nat> := *, *, *;
      if Keys.Enabled(store, key) && !key.Creates? && Keys.ByOther(key, held) {
        TakeKey(key, held);
      } else if Enabled(sys, st) && ByOther(st, me, mine) {
        OtherStep(st, me, mine, g, held);
      }
    }

    method OtherStep(st: Step, me: Option<nat>, mine: set<JobId>, g: Option<nat>, held: set<nat>)
      requires Valid() && Enabled(sys, st) && ByOther(st, me, mine)
      modifies this
      ensures Valid() && Grows(old(sys), sys) && Keys.Grew(old(store), store, held)
      ensures me.Some? ==> At(sys, me.value) == At(old(sys), me.value)
      ensures forall id :: id in mine && id in old(sys).inbox ==> id in sys.inbox
      ensures Continues(old(trace), trace)
    {
      Same();
      OthersMove(sys, st, me, mine);
      if !st.Create? {
        Take(st);
      } else if g.Some? ==> g.value in store.pending && g.value !in held {
        Create(g, st.id, st.pair, st.at, held);
      }
    }
  }

  // ----- how a job leaves an actor's hands -----

  /** `done` tells whether the job was completed; if not, it failed or was lost, and either way for good. */
  predicate Settled(s: Sys, id: JobId, done: bool) {
    && id in s.db.jobs && id in s.fetched
    && if done then s.db.jobs[id].status == Done
       else s.db.jobs[id].status == Failed || (id in s.lost && s.db.jobs[id].status == Held(s.mode))
  }

  /** A step of the run is the failure of the job's fetch or transaction, with this message. */
  ghost predicate Erred(tr: Trace, id: JobId, msg: string) {
    exists i :: 0 <= i < |tr.steps| && ErredAt(tr, i, id, msg)
  }

  predicate ErredAt(tr: Trace, i: nat, id: JobId, msg: string) {
    && i < |tr.steps| && i < |tr.states|
    && (tr.steps[i].Fail? || tr.steps[i].Abandon?)
    && tr.steps[i].msg == msg && Cur(At(tr.states[i], tr.steps[i].w)) == id
  }

  /** The error returned for the job is the one its fetch or transaction failed with, and the one a failed row shows. */
  ghost predicate Reported(s: Sys, tr: Trace, id: JobId, err: Option<string>) {
    && id in s.db.jobs
    && (err.Some? ==> Erred(tr, id, err.value))
    && (s.db.jobs[id].status == Failed ==> s.db.jobs[id].error == err)
  }

  lemma ErredStays(tr: Trace, tr': Trace, id: JobId, msg: string)
    requires Erred(tr, id, msg) && Continues(tr, tr')
    ensures Erred(tr', id, msg)
  {
    var i :| 0 <= i < |tr.steps| && ErredAt(tr, i, id, msg);
    assert ErredAt(tr', i, id, msg);
  }

  lemma LastErred(tr: Trace, st: Step, id: JobId, msg: string)
    requires |tr.states| == |tr.steps| + 1 && Enabled(Last(tr), st) && (st.Fail? || st.Abandon?)
    requires st.msg == msg && Cur(At(Last(tr), st.w)) == id
    ensures Erred(Extend(tr, st), id, msg)
  {
    assert ErredAt(Extend(tr, st), |tr.steps|, id, msg);
  }

  lemma ReportedStays(s: Sys, tr: Trace, s': Sys, tr': Trace, id: JobId, done: bool, err: Option<string>)
    requires Settled(s, id, done) && Reported(s, tr, id, err) && Grows(s, s') && Continues(tr, tr')
    ensures Reported(s', tr', id, err)
  {
    if err.Some? {
      ErredStays(tr, tr', id, err.value);
    }
  }

  lemma SettledStays(s: Sys, s': Sys, id: JobId, done: bool)
    requires Settled(s, id, done) && Grows(s, s')
    ensures Settled(s', id, done)
  {
  }

  /** The polling actor with the jobs from i on still to do. */
  function Rest(jobs: seq<JobId>, i: nat): Actor
    requires i <= |jobs|
  {
    if i == |jobs| then IDLE_ACTOR else Actor(Marking, jobs[i..])
  }

  lemma RestAdvances(jobs: seq<JobId>, i: nat)
    requires i < |jobs|
    ensures Rest(jobs, i).pc.Marking? && Cur(Rest(jobs, i)) == jobs[i]
    ensures Advance(Rest(jobs, i)) == Rest(jobs, i + 1)
  {
  }

  /** Each outcome tells whether its job completed and, if not, the error it failed with. */
  ghost predicate AllSettled(s: Sys, tr: Trace, jobs: seq<JobId>, outcomes: seq<Option<string>>) {
    && |outcomes| <= |jobs|
    && forall k :: 0 <= k < |outcomes| ==>
      Settled(s, jobs[k], outcomes[k].None?) && Reported(s, tr, jobs[k], outcomes[k])
  }

  lemma AllSettledExtends(s: Sys, tr: Trace, s': Sys, tr': Trace, jobs: seq<JobId>, outcomes: seq<Option<string>>,
      o: Option<string>)
    requires AllSettled(s, tr, jobs, outcomes) && Grows(s, s') && Continues(tr, tr') && |outcomes| < |jobs|
    requires Settled(s', jobs[|outcomes|], o.None?) && Reported(s', tr', jobs[|outcomes|], o)
    ensures AllSettled(s', tr', jobs, outcomes + [o])
  {
    forall k | 0 <= k < |outcomes|
      ensures Settled(s', jobs[k], outcomes[k].None?) && Reported(s', tr', jobs[k], outcomes[k])
    {
      SettledStays(s, s', jobs[k], outcomes[k].None?);
      ReportedStays(s, tr, s', tr', jobs[k], outcomes[k].None?, outcomes[k]);
    }
  }

  /** The batch's loop after i rounds. */
  ghost predicate Rounds(before: Sys, s: Sys, tr: Trace, w: nat, jobs: seq<JobId>, i: nat,
      outcomes: seq<Option<string>>, firstErr: Option<string>)
  {
    && Grows(before, s)
    && i <= |jobs| && At(s, w) == Rest(jobs, i)
    && |outcomes| == i && AllSettled(s, tr, jobs, outcomes)
    && firstErr == FirstError(outcomes)
  }

  lemma OneMoreRound(before: Sys, s: Sys, tr: Trace, s': Sys, tr': Trace, w: nat, jobs: seq<JobId>, i: nat,
      outcomes: seq<Option<string>>, firstErr: Option<string>, err: Option<string>)
    requires Rounds(before, s, tr, w, jobs, i, outcomes, firstErr) && i < |jobs| && Grows(s, s') && Continues(tr, tr')
    requires At(s', w) == Advance(At(s, w)) && Settled(s', Cur(At(s, w)), err.None?)
    requires Reported(s', tr', Cur(At(s, w)), err)
    ensures Rounds(before, s', tr', w, jobs, i + 1, outcomes + [err],
      if err.Some? && firstErr.None? then err else firstErr)
  {
    RestAdvances(jobs, i);
    GrowsTransitive(before, s, s');
    AllSettledExtends(s, tr, s', tr', jobs, outcomes, err);
    FirstErrorAppend(outcomes, err);
  }

  lemma CommitSettles(s: Sys, w: nat)
    requires Owned(s) && CanCommit(s, w)
    ensures Settled(DoCommit(s, w), Cur(At(s, w)), true)
  {
    assert ActorOk(s, At(s, w)) && Cur(At(s, w)) in At(s, w).work;
  }

  lemma GiveUpSettles(s: Sys, w: nat)
    requires Owned(s) && CanGiveUp(s, w)
    ensures Settled(DoGiveUp(s, w), Cur(At(s, w)), false)
  {
    assert ActorOk(s, At(s, w)) && Cur(At(s, w)) in At(s, w).work;
  }

  lemma WriteFailedSettles(s: Sys, w: nat, at: Micros, ok: bool)
    requires Owned(s) && CanWriteFailed(s, w, ok)
    ensures Settled(DoWriteFailed(s, w, at, ok), Cur(At(s, w)), false)
    ensures !ok ==> Cur(At(s, w)) in DoWriteFailed(s, w, at, ok).lost
    ensures ok ==> DoWriteFailed(s, w, at, ok).db.jobs[Cur(At(s, w))].error == Some(At(s, w).pc.msg)
  {
    assert ActorOk(s, At(s, w)) && Cur(At(s, w)) in At(s, w).work;
  }

  lemma CurrentRow(s: Sys, w: nat)
    requires Owned(s) && At(s, w).work != []
    ensures Cur(At(s, w)) in s.db.jobs
  {
    assert ActorOk(s, At(s, w));
  }

  /** The error of the first job that did not complete. */
  function FirstError(outcomes: seq<Option<string>>): Option<string> {
    if outcomes == [] then None
    else if outcomes[0].Some? then outcomes[0]
    else FirstError(outcomes[1..])
  }

  lemma {:induction false} FirstErrorAppend(outcomes: seq<Option<string>>, o: Option<string>)
    ensures FirstError(outcomes + [o]) == if FirstError(outcomes).Some? then FirstError(outcomes) else o
  {
    if outcomes == [] {
      assert [] + [o] == [o];
    } else {
      assert (outcomes + [o])[1..] == outcomes[1..] + [o];
      FirstErrorAppend(outcomes[1..], o);
    }
  }

  lemma {:induction false} FirstErrorNone(outcomes: seq<Option<string>>)
    ensures FirstError(outcomes) == None <==> forall k :: 0 <= k < |outcomes| ==> outcomes[k] == None
  {
    if outcomes != [] {
      FirstErrorNone(outcomes[1..]);
      assert forall k :: 1 <= k < |outcomes| ==> outcomes[k] == outcomes[1..][k - 1];
    }
  }

  lemma {:induction false} FirstErrorAt(outcomes: seq<Option<string>>) returns (k: nat)
    requires FirstError(outcomes).Some?
    ensures k < |outcomes| && outcomes[k] == FirstError(outcomes) && forall j :: 0 <= j < k ==> outcomes[j] == None
  {
    if outcomes[0].Some? {
      k := 0;
    } else {
      var j := FirstErrorAt(outcomes[1..]);
      k := j + 1;
      assert forall i :: 1 <= i < k ==> outcomes[i] == outcomes[1..][i - 1];
    }
  }

  // ----- what can stand in a statement's way -----

  /** The next statement of actor w would have to wait for a lock. */
  ghost predicate Stuck(s: Sys, w: nat) {
    exists v :: WaitsFor(s, w, v)
  }

  /** At some state from step `from` on, it would have. */
  ghost predicate WaitedIn(tr: Trace, from: nat, w: nat) {
    exists i :: from <= i < |tr.states| && Stuck(tr.states[i], w)
  }

  lemma AppendStuck(s: Sys, w: nat)
    requires Owned(s) && At(s, w).pc.Appending? && Fits(At(s, w).pc.quote.price) && !CanAppend(s, w)
    ensures Stuck(s, w)
  {
    var v := BlockedOnHistory(s, w);
  }

  lemma ReferStuck(s: Sys, w: nat)
    requires Owned(s) && At(s, w).pc.Referencing? && !CanRefer(s, w)
    ensures Stuck(s, w)
  {
    var v := BlockedOnShare(s, w);
  }

  lemma UpsertStuck(s: Sys, w: nat)
    requires Owned(s) && At(s, w).pc.Upserting? && !CanUpsert(s, w)
    ensures Stuck(s, w)
  {
    var v := BlockedOnQuote(s, w);
  }

  lemma FinishStuck(s: Sys, w: nat)
    requires Owned(s) && At(s, w).pc.Finishing? && !CanFinish(s, w)
    ensures Stuck(s, w)
  {
    var v := BlockedOnRow(s, w);
  }

  lemma StatusStuck(s: Sys, w: nat)
    requires Owned(s) && (At(s, w).pc.Marking? || At(s, w).pc.Failing?) && !RowReady(s, w)
    ensures Stuck(s, w)
  {
    var v := StatusWriteWaits(s, w);
  }

  lemma StuckIn(tr: Trace, from: nat, w: nat)
    requires |tr.states| == |tr.steps| + 1 && from <= |tr.steps|
    ensures Stuck(Last(tr), w) ==> WaitedIn(tr, from, w)
  {
    assert Last(tr) == tr.states[|tr.steps|];
  }

  lemma WaitedStays(tr: Trace, tr': Trace, from: nat, w: nat)
    requires Continues(tr, tr')
    ensures WaitedIn(tr, from, w) ==> WaitedIn(tr', from, w)
  {
    if i :| from <= i < |tr.states| && Stuck(tr.states[i], w) {
      assert Stuck(tr'.states[i], w);
    }
  }

  lemma LaterWindow(tr: Trace, from: nat, later: nat, w: nat)
    requires from <= later
    ensures WaitedIn(tr, later, w) ==> WaitedIn(tr, from, w)
  {
  }

  // ----- what a fetch answers -----

  datatype Answer = Quoted(price: real, at: int) | FetchFailed(msg: string, atDeadline: bool)

  const OVERFLOW := "numeric field overflow"

  /** The fetch of the job is on record as answered, for the job's own pair. */
  ghost predicate AsAnswered(s: Sys, id: JobId, answer: Answer) {
    && id in s.db.jobs && id in s.fetched
    && s.fetched[id] == match answer
       case Quoted(price, at) => Some(Quote(s.db.jobs[id].pair, price, at))
       case FetchFailed(_, _) => None
  }

  /** The error of the job's completion if nothing but its fetch decides. */
  function OutcomeOf(answer: Answer): Option<string> {
    match answer
    case Quoted(price, _) => if Fits(price) then None else Some(OVERFLOW)
    case FetchFailed(msg, _) => Some(msg)
  }

  /** What the recovery makes of a panic. */
  function Told(answer: Answer, panic: Option<string>): Answer {
    if panic.Some? then FetchFailed("panic: " + panic.value, false) else answer
  }

  ghost predicate AllAnswered(s: Sys, jobs: seq<JobId>, n: nat, answers: JobId -> Answer)
    requires n <= |jobs|
  {
    forall k :: 0 <= k < n ==> AsAnswered(s, jobs[k], answers(jobs[k]))
  }

  lemma AnswerStays(s: Sys, s': Sys, id: JobId, answer: Answer)
    requires AsAnswered(s, id, answer) && Grows(s, s')
    ensures AsAnswered(s', id, answer)
  {
  }

  lemma OneMoreAnswer(s: Sys, s': Sys, jobs: seq<JobId>, i: nat, answers: JobId -> Answer)
    requires i < |jobs| && AllAnswered(s, jobs, i, answers) && Grows(s, s')
    requires AsAnswered(s', jobs[i], answers(jobs[i]))
    ensures AllAnswered(s', jobs, i + 1, answers)
  {
    forall k | 0 <= k < i ensures AsAnswered(s', jobs[k], answers(jobs[k])) {
      AnswerStays(s, s', jobs[k], answers(jobs[k]));
    }
  }

  /** The fetches alone decided. */
  predicate Decided(jobs: seq<JobId>, outcomes: seq<Option<string>>, answers: JobId -> Answer) {
    |outcomes| <= |jobs| && forall k :: 0 <= k < |outcomes| ==> outcomes[k] == OutcomeOf(answers(jobs[k]))
  }

  /** The batch's loop after i rounds, with what the fetches answered; `clean` if nothing else got in the way. */
  ghost predicate Batch(before: Sys, s: Sys, tr: Trace, w: nat, jobs: seq<JobId>, i: nat,
      outcomes: seq<Option<string>>, firstErr: Option<string>, answers: JobId -> Answer, clean: bool)
  {
    && Rounds(before, s, tr, w, jobs, i, outcomes, firstErr)
    && AllAnswered(s, jobs, i, answers)
    && (clean ==> Decided(jobs, outcomes, answers))
  }

  lemma NextInBatch(before: Sys, s: Sys, tr: Trace, s': Sys, tr': Trace, w: nat, jobs: seq<JobId>, i: nat,
      outcomes: seq<Option<string>>, firstErr: Option<string>, answers: JobId -> Answer, clean: bool,
      err: Option<string>, clean': bool)
    requires Batch(before, s, tr, w, jobs, i, outcomes, firstErr, answers, clean) && i < |jobs|
    requires Grows(s, s') && Continues(tr, tr')
    requires At(s', w) == Advance(At(s, w)) && Settled(s', Cur(At(s, w)), err.None?)
    requires Reported(s', tr', Cur(At(s, w)), err) && AsAnswered(s', Cur(At(s, w)), answers(jobs[i]))
    requires clean' ==> clean && err == OutcomeOf(answers(jobs[i]))
    ensures Batch(before, s', tr', w, jobs, i + 1, outcomes + [err],
      if err.Some? && firstErr.None? then err else firstErr, answers, clean')
  {
    RestAdvances(jobs, i);
    OneMoreRound(before, s, tr, s', tr', w, jobs, i, outcomes, firstErr, err);
    OneMoreAnswer(s, s', jobs, i, answers);
  }

  /** All of the jobs are through. */
  ghost predicate Processed(s: Sys, tr: Trace, jobs: seq<JobId>, outcomes: seq<Option<string>>,
      answers: JobId -> Answer, clean: bool)
  {
    && |outcomes| == |jobs|
    && AllSettled(s, tr, jobs, outcomes)
    && AllAnswered(s, jobs, |jobs|, answers)
    && (clean ==> Decided(jobs, outcomes, answers))
  }

  lemma LastRound(before: Sys, s: Sys, tr: Trace, w: nat, jobs: seq<JobId>, outcomes: seq<Option<string>>,
      firstErr: Option<string>, answers: JobId -> Answer, clean: bool)
    requires Batch(before, s, tr, w, jobs, |jobs|, outcomes, firstErr, answers, clean)
    ensures Processed(s, tr, jobs, outcomes, answers, clean) && firstErr == FirstError(outcomes)
    ensures Grows(before, s) && At(s, w) == IDLE_ACTOR
    ensures firstErr.None? <==> AllDone(s, jobs)
  {
    NoErrorAllDone(s, tr, jobs, outcomes);
  }

  lemma FirstRound(s: Sys, tr: Trace, w: nat, jobs: seq<JobId>, answers: JobId -> Answer, clean: bool)
    requires Grows(s, s) && At(s, w) == if jobs == [] then IDLE_ACTOR else Actor(Marking, jobs)
    ensures Batch(s, s, tr, w, jobs, 0, [], None, answers, clean)
  {
  }

  predicate AllDone(s: Sys, jobs: seq<JobId>) {
    forall id :: id in jobs ==> id in s.db.jobs && s.db.jobs[id].status == Done
  }

  /** No error means that every job is done. */
  lemma NoErrorAllDone(s: Sys, tr: Trace, jobs: seq<JobId>, outcomes: seq<Option<string>>)
    requires AllSettled(s, tr, jobs, outcomes) && |outcomes| == |jobs|
    ensures FirstError(outcomes).None? <==> AllDone(s, jobs)
  {
    FirstErrorNone(outcomes);
    assert forall k :: 0 <= k < |jobs| ==> jobs[k] in jobs;
  }

  // ----- what a claim and a consumer took -----

  /** Step i of the run is the end of w's claim of that limit, and hands out these jobs. */
  predicate HandsOver(tr: Trace, i: int, w: nat, limit: int, out: seq<JobId>) {
    && 0 <= i < |tr.steps| && i < |tr.states|
    && tr.steps[i] == Return(w, out)
    && ScanDone(At(tr.states[i], w).pc) && At(tr.states[i], w).pc.limit == limit
  }

  /** A step from step `from` on is. */
  ghost predicate HandedOver(tr: Trace, from: nat, w: nat, limit: int, out: seq<JobId>) {
    exists i :: from <= i && HandsOver(tr, i, w, limit, out)
  }

  lemma HandedOverStays(tr: Trace, tr': Trace, from: nat, w: nat, limit: int, out: seq<JobId>)
    requires Continues(tr, tr')
    ensures HandedOver(tr, from, w, limit, out) ==> HandedOver(tr', from, w, limit, out)
  {
    if i :| from <= i && HandsOver(tr, i, w, limit, out) {
      assert HandsOver(tr', i, w, limit, out);
    }
  }

  /** Some time from step `from` on the channel was empty. */
  ghost predicate WasEmpty(tr: Trace, from: nat) {
    exists i :: from <= i < |tr.states| && tr.states[i].buf == []
  }

  lemma EmptyNow(tr: Trace, from: nat)
    requires |tr.states| == |tr.steps| + 1 && from <= |tr.steps| && Last(tr).buf == []
    ensures WasEmpty(tr, from)
  {
    assert tr.states[|tr.steps|] == Last(tr);
  }

  lemma EmptyStays(tr: Trace, tr': Trace, from: nat)
    requires Continues(tr, tr')
    ensures WasEmpty(tr, from) ==> WasEmpty(tr', from)
  {
    if i :| from <= i < |tr.states| && tr.states[i].buf == [] {
      assert tr'.states[i] == tr.states[i];
    }
  }

  ghost predicate Handled(before: Sys, s: Sys, handled: seq<JobId>, answers: JobId -> Answer,
      panics: JobId -> Option<string>)
  {
    forall id :: id in handled ==>
      && AsAnswered(s, id, Told(answers(id), panics(id)))
      && id in s.delivered && id !in before.delivered
  }

  lemma StillHandled(before: Sys, s: Sys, s': Sys, handled: seq<JobId>, answers: JobId -> Answer,
      panics: JobId -> Option<string>)
    requires Handled(before, s, handled, answers, panics) && Grows(s, s')
    ensures Handled(before, s', handled, answers, panics)
  {
    forall id | id in handled ensures AsAnswered(s', id, Told(answers(id), panics(id))) {
      AnswerStays(s, s', id, Told(answers(id), panics(id)));
    }
  }

  lemma OneMoreHandled(before: Sys, s: Sys, s': Sys, handled: seq<JobId>, id: JobId, answers: JobId -> Answer,
      panics: JobId -> Option<string>)
    requires Handled(before, s, handled, answers, panics) && Grows(before, s) && Grows(s, s') && Distinct(handled)
    requires AsAnswered(s', id, Told(answers(id), panics(id))) && id in s'.delivered && id !in s.delivered
    ensures Handled(before, s', handled + [id], answers, panics) && Distinct(handled + [id])
  {
    StillHandled(before, s, s', handled, answers, panics);
    DistinctAppend(handled, [id]);
  }

  // ----- the service, on one goroutine -----

  class FXRatesService {
    const server: Server
    const me: nat // the actor this goroutine is
    ghost var faults: nat // times the server or the connection failed it

    constructor (server: Server, me: nat)
      ensures this.server == server && this.me == me && faults == 0
    {
      this.server, this.me, faults := server, me, 0;
    }

    /** Whether the server or the connection fails the next call. */
    method Fault() returns (failed: bool)
      modifies this
      ensures faults == old(faults) + if failed then 1 else 0
    {
      failed := *;
      if failed { faults := faults + 1; }
    }

    /** Since then nothing failed this goroutine, and it met no lock it had to wait for. */
    ghost predicate Clean(before: nat, from: nat)
      reads this, server
    {
      faults == before && !WaitedIn(server.trace, from, me)
    }

    /** Clean all the way means clean up to a point and clean from there. */
    lemma CleanSplits(before: nat, from: nat, between: nat, tr: Trace)
      requires before <= between <= faults && from <= |tr.steps| && Continues(tr, server.trace)
      ensures Clean(before, from) ==>
        between == before && !WaitedIn(tr, from, me) && Clean(between, |tr.steps|)
    {
      WaitedStays(tr, server.trace, from, me);
      LaterWindow(server.trace, from, |tr.steps|, me);
    }

    // Each statement first lets the other actors run.  It fails when the server or the connection
    // fails, when it has to wait for a lock that does not come free in time, or for its own price.

    method Begin() returns (err: Option<string>)
      requires server.Valid() && At(server.sys, me).pc.Opening?
      modifies server, this
      ensures server.Valid() && Grows(old(server.sys), server.sys) && Continues(old(server.trace), server.trace)
      ensures faults >= old(faults)
      ensures At(server.sys, me).work == At(old(server.sys), me).work
      ensures if err.None? then At(server.sys, me).pc.Appending? else At(server.sys, me).pc.Opening?
      ensures err.None? ==> At(server.sys, me).pc.quote == At(old(server.sys), me).pc.quote
      ensures err.Some? ==> faults > old(faults)
    {
      server.Others(Some(me), {});
      var now := *;
      var failed := Fault();
      if failed { return Some("begin"); }
      server.Take(Step.Begin(me, now));
      err := None;
    }

    method AppendHistory() returns (err: Option<string>)
      requires server.Valid() && At(server.sys, me).pc.Appending?
      modifies server, this
      ensures server.Valid() && Grows(old(server.sys), server.sys) && Continues(old(server.trace), server.trace)
      ensures faults >= old(faults)
      ensures At(server.sys, me).work == At(old(server.sys), me).work
      ensures if err.None? then At(server.sys, me).pc.Upserting? else InTx(At(server.sys, me).pc)
      ensures err.None? ==> At(server.sys, me).pc.quote == At(old(server.sys), me).pc.quote
      ensures !Fits(At(old(server.sys), me).pc.quote.price) ==> err == Some(OVERFLOW)
      ensures err.Some? && Fits(At(old(server.sys), me).pc.quote.price) ==>
        faults > old(faults) || Stuck(server.sys, me)
    {
      server.Others(Some(me), {});
      if !Fits(At(server.sys, me).pc.quote.price) { return Some(OVERFLOW); }
      if !CanAppend(server.sys, me) {
        server.Sound();
        AppendStuck(server.sys, me);
        return Some("append history: lock timeout");
      }
      var failed := Fault();
      if failed { return Some("append history"); }
      server.Take(Append(me));
      if At(server.sys, me).pc.Referencing? {
        err := CheckReference();
      } else {
        err := None;
      }
    }

    method CheckReference() returns (err: Option<string>)
      requires server.Valid() && At(server.sys, me).pc.Referencing?
      modifies server, this
      ensures server.Valid() && Grows(old(server.sys), server.sys) && Continues(old(server.trace), server.trace)
      ensures faults >= old(faults)
      ensures At(server.sys, me).work == At(old(server.sys), me).work
      ensures if err.None? then At(server.sys, me).pc.Upserting? else InTx(At(server.sys, me).pc)
      ensures err.None? ==> At(server.sys, me).pc.quote == At(old(server.sys), me).pc.quote
      ensures err.Some? ==> faults > old(faults) || Stuck(server.sys, me)
    {
      server.Others(Some(me), {});
      if !CanRefer(server.sys, me) {
        server.Sound();
        ReferStuck(server.sys, me);
        return Some("append history: lock timeout");
      }
      var failed := Fault();
      if failed { return Some("append history"); }
      server.Take(Refer(me));
      err := None;
    }

    method UpsertQuote() returns (err: Option<string>)
      requires server.Valid() && At(server.sys, me).pc.Upserting?
      modifies server, this
      ensures server.Valid() && Grows(old(server.sys), server.sys) && Continues(old(server.trace), server.trace)
      ensures faults >= old(faults)
      ensures At(server.sys, me).work == At(old(server.sys), me).work
      ensures if err.None? then At(server.sys, me).pc.Finishing? else InTx(At(server.sys, me).pc)
      ensures err.None? ==> At(server.sys, me).pc.quote == At(old(server.sys), me).pc.quote
      ensures err.Some? ==> faults > old(faults) || Stuck(server.sys, me)
    {
      server.Others(Some(me), {});
      if !CanUpsert(server.sys, me) {
        server.Sound();
        UpsertStuck(server.sys, me);
        return Some("upsert: lock timeout");
      }
      var failed := Fault();
      if failed { return Some("upsert"); }
      server.Take(Upsert(me));
      err := None;
    }

    method UpdateStatusDone() returns (err: Option<string>)
      requires server.Valid() && At(server.sys, me).pc.Finishing?
      modifies server, this
      ensures server.Valid() && Grows(old(server.sys), server.sys) && Continues(old(server.trace), server.trace)
      ensures faults >= old(faults)
      ensures At(server.sys, me).work == At(old(server.sys), me).work
      ensures if err.None? then At(server.sys, me).pc.Committing? else InTx(At(server.sys, me).pc)
      ensures err.None? ==> At(server.sys, me).pc.quote == At(old(server.sys), me).pc.quote
      ensures err.Some? ==> faults > old(faults) || Stuck(server.sys, me)
    {
      server.Others(Some(me), {});
      if !CanFinish(server.sys, me) {
        server.Sound();
        FinishStuck(server.sys, me);
        return Some("update status: lock timeout");
      }
      var failed := Fault();
      if failed { return Some("update status"); }
      server.Take(Finish(me));
      err := None;
    }

    /** The function CompleteQuoteUpdate passes to Do: it stops at the first statement that fails. */
    method WriteQuote() returns (err: Option<string>)
      requires server.Valid() && At(server.sys, me).pc.Appending?
      modifies server, this
      ensures server.Valid() && Grows(old(server.sys), server.sys) && Continues(old(server.trace), server.trace)
      ensures faults >= old(faults)
      ensures At(server.sys, me).work == At(old(server.sys), me).work
      ensures if err.None? then At(server.sys, me).pc.Committing? else InTx(At(server.sys, me).pc)
      ensures !Fits(At(old(server.sys), me).pc.quote.price) ==> err == Some(OVERFLOW)
      ensures err.Some? && Fits(At(old(server.sys), me).pc.quote.price) ==>
        faults > old(faults) || Stuck(server.sys, me)
    {
      err := AppendHistory();
      if err.Some? { return; }
      err := UpsertQuote();
      if err.Some? { return; }
      err := UpdateStatusDone();
    }

    /** UnitOfWork.Do: begin, run the function, roll back on its error, else commit. */
    method Do() returns (err: Option<string>)
      requires server.Valid() && At(server.sys, me).pc.Opening?
      modifies server, this
      ensures server.Valid() && Grows(old(server.sys), server.sys) && Continues(old(server.trace), server.trace)
      ensures faults >= old(faults)
      ensures At(server.sys, me) == Advance(At(old(server.sys), me))
      ensures Settled(server.sys, Cur(At(old(server.sys), me)), err.None?)
      ensures err.Some? ==> Cur(At(old(server.sys), me)) in server.sys.lost
      ensures err.Some? ==> Erred(server.trace, Cur(At(old(server.sys), me)), err.value)
      ensures Clean(old(faults), |old(server.trace).steps|) ==>
        err == if Fits(At(old(server.sys), me).pc.quote.price) then None else Some(OVERFLOW)
      ensures !Fits(At(old(server.sys), me).pc.quote.price) ==> err.Some?
    {
      err := Begin();
      if err.Some? {
        RollBack(err.value);
        return;
      }
      ghost var tr, f := server.trace, faults;
      err := WriteAndCommit();
      CleanSplits(old(faults), |old(server.trace).steps|, f, tr);
    }

    /** The rest of Do, once the transaction is open. */
    method WriteAndCommit() returns (err: Option<string>)
      requires server.Valid() && At(server.sys, me).pc.Appending?
      modifies server, this
      ensures server.Valid() && Grows(old(server.sys), server.sys) && Continues(old(server.trace), server.trace)
      ensures faults >= old(faults)
      ensures At(server.sys, me) == Advance(At(old(server.sys), me))
      ensures Settled(server.sys, Cur(At(old(server.sys), me)), err.None?)
      ensures err.Some? ==> Cur(At(old(server.sys), me)) in server.sys.lost
      ensures err.Some? ==> Erred(server.trace, Cur(At(old(server.sys), me)), err.value)
      ensures Clean(old(faults), |old(server.trace).steps|) ==>
        err == if Fits(At(old(server.sys), me).pc.quote.price) then None else Some(OVERFLOW)
      ensures !Fits(At(old(server.sys), me).pc.quote.price) ==> err.Some?
    {
      err := WriteQuote();
      ghost var tr := server.trace;
      StuckIn(tr, |old(server.trace).steps|, me);
      if err.Some? {
        RollBack(err.value);
        WaitedStays(tr, server.trace, |old(server.trace).steps|, me);
      } else {
        err := Commit();
      }
    }

    /** Nothing is written: the transaction ends, or never began, and the job is given up. */
    method RollBack(msg: string)
      requires server.Valid() && CanGiveUp(server.sys, me)
      modifies server, this
      ensures server.Valid() && Grows(old(server.sys), server.sys) && Continues(old(server.trace), server.trace)
      ensures faults >= old(faults)
      ensures At(server.sys, me) == Advance(At(old(server.sys), me))
      ensures Settled(server.sys, Cur(At(old(server.sys), me)), false)
      ensures Cur(At(old(server.sys), me)) in server.sys.lost
      ensures Erred(server.trace, Cur(At(old(server.sys), me)), msg)
      ensures faults == old(faults)
    {
      server.Sound();
      GiveUpSettles(server.sys, me);
      LastErred(server.trace, Abandon(me, msg), Cur(At(server.sys, me)), msg);
      server.Take(Abandon(me, msg));
    }

    /** A commit that returns an error is taken to have rolled back. */
    method Commit() returns (err: Option<string>)
      requires server.Valid() && CanCommit(server.sys, me)
      modifies server, this
      ensures server.Valid() && Grows(old(server.sys), server.sys) && Continues(old(server.trace), server.trace)
      ensures faults >= old(faults)
      ensures At(server.sys, me) == Advance(At(old(server.sys), me))
      ensures Settled(server.sys, Cur(At(old(server.sys), me)), err.None?)
      ensures err.Some? ==> Cur(At(old(server.sys), me)) in server.sys.lost
      ensures err.Some? ==> Erred(server.trace, Cur(At(old(server.sys), me)), err.value)
      ensures err.Some? ==> faults > old(faults)
    {
      server.Others(Some(me), {});
      var failed := Fault();
      if failed {
        RollBack("commit");
        return Some("commit");
      }
      server.Sound();
      CommitSettles(server.sys, me);
      server.Take(Step.Commit(me));
      err := None;
    }

    /** The status write after a failed fetch, with the fetch's message; its own error is ignored. */
    method UpdateStatusFailed()
      requires server.Valid() && At(server.sys, me).pc.Failing?
      modifies server, this
      ensures server.Valid() && Grows(old(server.sys), server.sys) && Continues(old(server.trace), server.trace)
      ensures faults >= old(faults)
      ensures At(server.sys, me) == Advance(At(old(server.sys), me))
      ensures Settled(server.sys, Cur(At(old(server.sys), me)), false)
      ensures var id := Cur(At(old(server.sys), me));
        if At(old(server.sys), me).pc.late then id in server.sys.lost
        else id in server.sys.lost || server.sys.db.jobs[id].error == Some(At(old(server.sys), me).pc.msg)
      ensures !At(old(server.sys), me).pc.late && Clean(old(faults), |old(server.trace).steps|) ==>
        var row := server.sys.db.jobs[Cur(At(old(server.sys), me))];
        row.status == Failed && row.error == Some(At(old(server.sys), me).pc.msg)
    {
      server.Others(Some(me), {});
      server.Sound();
      var now := *;
      var failed := Fault();
      var ok := !failed && !At(server.sys, me).pc.late && RowReady(server.sys, me);
      if !RowReady(server.sys, me) {
        StatusStuck(server.sys, me);
      }
      ghost var tr := server.trace;
      StuckIn(tr, |old(server.trace).steps|, me);
      WriteFailedSettles(server.sys, me, now, ok);
      server.Take(WriteFailed(me, now, ok));
      WaitedStays(tr, server.trace, |old(server.trace).steps|, me);
    }

    /**
     The fetch, which answers as it answers: for the job's pair, or with an error, perhaps that of
     its own deadline.
     */
    method FetchQuote(answer: Answer, deadline: bool) returns (err: Option<string>, late: bool)
      requires server.Valid() && At(server.sys, me).pc.Fetching? && (deadline ==> server.mode.Chan?)
      modifies server
      ensures server.Valid() && Grows(old(server.sys), server.sys) && Continues(old(server.trace), server.trace)
      ensures At(server.sys, me).work == At(old(server.sys), me).work
      ensures err == if answer.Quoted? then None else Some(answer.msg)
      ensures late <==> answer.FetchFailed? && answer.atDeadline && deadline
      ensures AsAnswered(server.sys, Cur(At(old(server.sys), me)), answer)
      ensures At(server.sys, me).pc == if answer.Quoted?
        then Opening(server.sys.fetched[Cur(At(old(server.sys), me))].value) else Failing(answer.msg, late)
      ensures err.Some? ==> Erred(server.trace, Cur(At(old(server.sys), me)), err.value)
    {
      server.Others(Some(me), {});
      server.Sound();
      CurrentRow(server.sys, me);
      late := answer.FetchFailed? && answer.atDeadline && deadline;
      if answer.FetchFailed? {
        LastErred(server.trace, Fail(me, answer.msg, late), Cur(At(server.sys, me)), answer.msg);
        server.Take(Fail(me, answer.msg, late));
        err := Some(answer.msg);
      } else {
        server.Take(Fetch(me, Quote(server.sys.db.jobs[Cur(At(server.sys, me))].pair, answer.price, answer.at)));
        err := None;
      }
    }

    /**
     Returns no error exactly when the job is done, for good; otherwise it failed or was lost, for good.
     A failed fetch's error is the one returned and the one the row shows; a fetched quote that could not
     be stored leaves the row as it was.  If the context has a deadline and the fetch fails by it, the
     failure cannot be recorded on that context, and the job is lost.  If nothing else fails and no lock
     is in the way, the fetch alone decides: the job is done with its quote, if that fits, and else the
     error says why it is not.
     */
    method CompleteQuoteUpdate(answer: Answer, deadline: bool) returns (err: Option<string>, late: bool)
      requires server.Valid() && At(server.sys, me).pc.Fetching? && (deadline ==> server.mode.Chan?)
      modifies server, this
      ensures server.Valid() && Grows(old(server.sys), server.sys) && Continues(old(server.trace), server.trace)
      ensures faults >= old(faults)
      ensures At(server.sys, me) == Advance(At(old(server.sys), me))
      ensures Settled(server.sys, Cur(At(old(server.sys), me)), err.None?)
      ensures AsAnswered(server.sys, Cur(At(old(server.sys), me)), answer)
      ensures var id := Cur(At(old(server.sys), me));
        if answer.FetchFailed? then err == Some(answer.msg) && (id in server.sys.lost ||
          server.sys.db.jobs[id].error == err)
        else err.None? || id in server.sys.lost
      ensures Reported(server.sys, server.trace, Cur(At(old(server.sys), me)), err)
      ensures late <==> answer.FetchFailed? && answer.atDeadline && deadline
      ensures late ==> Cur(At(old(server.sys), me)) in server.sys.lost
      ensures Clean(old(faults), |old(server.trace).steps|) ==>
        && err == OutcomeOf(answer)
        && (answer.FetchFailed? && !late ==> server.sys.db.jobs[Cur(At(old(server.sys), me))].status == Failed)
    {
      ghost var id := Cur(At(server.sys, me));
      err, late := FetchQuote(answer, deadline);
      ghost var s, tr := server.sys, server.trace;
      if err.Some? {
        UpdateStatusFailed();
        ErredStays(tr, server.trace, id, err.value);
      } else {
        err := Do();
      }
      LaterWindow(server.trace, |old(server.trace).steps|, |tr.steps|, me);
      server.Sound();
      LostIsHeld(server.sys);
    }

    // ----- the polling worker -----

    /**
     The claim statement: any row order the server may choose, a failure at any point, and others in
     between.  The jobs returned were never handed to anyone before, and they are what the claim's
     last step, its commit, hands out.  It fails only if the server or the connection does, or for a
     negative limit.
     */
    method ClaimQueued(limit: int) returns (r: Result<seq<JobId>>)
      requires server.Valid() && server.mode.DbPoll? && At(server.sys, me) == IDLE_ACTOR
      modifies server, this
      ensures server.Valid() && Grows(old(server.sys), server.sys) && Continues(old(server.trace), server.trace)
      ensures faults >= old(faults)
      ensures r.Err? ==> At(server.sys, me) == IDLE_ACTOR
      ensures r.Ok? ==> |r.value| <= limit && Distinct(r.value)
      ensures r.Ok? ==> At(server.sys, me) == if r.value == [] then IDLE_ACTOR else Actor(Marking, r.value)
      ensures r.Ok? ==> forall id :: id in r.value ==> id !in old(server.sys).delivered
      ensures r.Ok? ==> |server.trace.steps| > |old(server.trace).steps|
      ensures r.Ok? ==> HandsOver(server.trace, |server.trace.steps| - 1, me, limit, r.value)
      ensures r.Err? ==> faults > old(faults) || limit < 0
    {
      var err := LockRows(limit);
      if err.Some? { return Err(err.value); }
      r := FinishClaim(limit);
    }

    /** The query half of the claim; the server rejects a negative limit. */
    method LockRows(limit: int) returns (err: Option<string>)
      requires server.Valid() && server.mode.DbPoll? && At(server.sys, me) == IDLE_ACTOR
      modifies server, this
      ensures server.Valid() && Grows(old(server.sys), server.sys) && Continues(old(server.trace), server.trace)
      ensures faults >= old(faults)
      ensures err.Some? ==> At(server.sys, me) == IDLE_ACTOR
      ensures err.None? ==> limit >= 0 && ScanDone(At(server.sys, me).pc) && At(server.sys, me).pc.limit == limit
      ensures err.Some? ==> faults > old(faults) || limit < 0
    {
      server.Others(Some(me), {});
      if limit < 0 { return Some("limit"); }
      StartClaim(limit);
      err := VisitRows(limit);
    }

    /** The rows one by one, until there are enough or no more, unless the statement fails. */
    method VisitRows(limit: nat) returns (err: Option<string>)
      requires server.Valid() && At(server.sys, me).pc.Scanning? && At(server.sys, me).pc.limit == limit
      modifies server, this
      ensures server.Valid() && Grows(old(server.sys), server.sys) && Continues(old(server.trace), server.trace)
      ensures faults >= old(faults)
      ensures err.Some? ==> At(server.sys, me) == IDLE_ACTOR
      ensures err.None? ==> ScanDone(At(server.sys, me).pc) && At(server.sys, me).pc.limit == limit
      ensures err.Some? ==> faults > old(faults)
    {
      server.Same();
      while !ScanDone(At(server.sys, me).pc)
        invariant server.Valid() && Grows(old(server.sys), server.sys) && Continues(old(server.trace), server.trace)
        invariant At(server.sys, me).pc.Scanning? && At(server.sys, me).pc.limit == limit && faults >= old(faults)
        decreases |At(server.sys, me).pc.todo|
      {
        err := VisitNext(limit);
        if err.Some? { return; }
      }
      server.Others(Some(me), {});
      err := None;
    }

    method VisitNext(limit: nat) returns (err: Option<string>)
      requires server.Valid() && CanVisit(server.sys, me) && At(server.sys, me).pc.limit == limit
      modifies server, this
      ensures server.Valid() && Grows(old(server.sys), server.sys) && Continues(old(server.trace), server.trace)
      ensures faults >= old(faults)
      ensures err.Some? ==> At(server.sys, me) == IDLE_ACTOR
      ensures err.None? ==> At(server.sys, me).pc.Scanning? && At(server.sys, me).pc.limit == limit
      ensures err.None? ==> |At(server.sys, me).pc.todo| < |At(old(server.sys), me).pc.todo|
      ensures err.Some? ==> faults > old(faults)
    {
      server.Others(Some(me), {});
      var failed := Fault();
      if failed {
        server.Take(Cancel(me));
        return Some("claim");
      }
      server.Take(VisitRow(me));
      err := None;
    }

    method StartClaim(limit: nat)
      requires server.Valid() && server.mode.DbPoll? && At(server.sys, me) == IDLE_ACTOR
      modifies server
      ensures server.Valid() && Grows(old(server.sys), server.sys) && Continues(old(server.trace), server.trace)
      ensures At(server.sys, me).pc.Scanning? && At(server.sys, me).pc.limit == limit
    {
      server.Sound();
      SnapshotExists(server.sys.db.jobs);
      var rows :| IsSnapshot(server.sys.db.jobs, rows);
      server.Take(Claim(me, limit, rows));
    }

    /** The update half of the claim commits, and the rows are read, or one of the two fails. */
    method FinishClaim(limit: nat) returns (r: Result<seq<JobId>>)
      requires server.Valid() && ScanDone(At(server.sys, me).pc) && At(server.sys, me).pc.limit == limit
      modifies server, this
      ensures server.Valid() && Grows(old(server.sys), server.sys) && Continues(old(server.trace), server.trace)
      ensures faults >= old(faults)
      ensures r.Err? ==> At(server.sys, me) == IDLE_ACTOR
      ensures r.Ok? ==> |r.value| <= limit && Distinct(r.value)
      ensures r.Ok? ==> At(server.sys, me) == if r.value == [] then IDLE_ACTOR else Actor(Marking, r.value)
      ensures r.Ok? ==> forall id :: id in r.value ==> id !in old(server.sys).delivered
      ensures r.Ok? ==> |server.trace.steps| > |old(server.trace).steps|
      ensures r.Ok? ==> HandsOver(server.trace, |server.trace.steps| - 1, me, limit, r.value)
      ensures r.Err? ==> faults > old(faults)
    {
      var failed := Fault();
      if failed {
        var lost := *;
        var msg := BreakOff(lost);
        return Err(msg);
      }
      var out := ReturnRows(limit);
      r := Ok(out);
    }

    /** The claim's transaction ends without its commit, or with it and the rows unread. */
    method BreakOff(lost: bool) returns (msg: string)
      requires server.Valid() && ScanDone(At(server.sys, me).pc)
      modifies server
      ensures server.Valid() && Grows(old(server.sys), server.sys) && Continues(old(server.trace), server.trace)
      ensures At(server.sys, me) == IDLE_ACTOR
    {
      if lost {
        server.Take(Lose(me));
        return "read";
      }
      server.Take(Cancel(me));
      msg := "claim";
    }

    method ReturnRows(limit: nat) returns (out: seq<JobId>)
      requires server.Valid() && ScanDone(At(server.sys, me).pc) && At(server.sys, me).pc.limit == limit
      modifies server
      ensures server.Valid() && Grows(old(server.sys), server.sys) && Continues(old(server.trace), server.trace)
      ensures |out| <= limit && Distinct(out) && forall id :: id in out ==> id !in old(server.sys).delivered
      ensures At(server.sys, me) == if out == [] then IDLE_ACTOR else Actor(Marking, out)
      ensures |server.trace.steps| > |old(server.trace).steps|
      ensures HandsOver(server.trace, |server.trace.steps| - 1, me, limit, out)
    {
      server.Sound();
      assert multiset(At(server.sys, me).pc.picked) == multiset(At(server.sys, me).pc.picked);
      out :| multiset(out) == multiset(At(server.sys, me).pc.picked);
      ReturnIsFresh(server.sys, me, out);
      server.Take(Return(me, out));
    }

    /** The batch's own status write; its result is ignored. */
    method UpdateStatusProcessing()
      requires server.Valid() && At(server.sys, me).pc.Marking?
      modifies server
      ensures server.Valid() && Grows(old(server.sys), server.sys) && Continues(old(server.trace), server.trace)
      ensures At(server.sys, me) == Actor(Fetching, At(old(server.sys), me).work)
    {
      server.Others(Some(me), {});
      var failed := *;
      server.Take(Mark(me, !failed && RowReady(server.sys, me)));
    }

    /**
     Whatever fails and whoever runs in between: every claimed job is fetched and settled, the batch
     returns no error exactly when the claim worked and every job of it is done, and otherwise it
     returns the claim's error or that of the first job that is not done.  If nothing fails and no lock
     is in the way, the fetches alone decide.
     */
    method ProcessQueueBatch(limit: int, answers: JobId -> Answer)
      returns (err: Option<string>, claimed: Result<seq<JobId>>, outcomes: seq<Option<string>>)
      requires server.Valid() && server.mode.DbPoll? && At(server.sys, me) == IDLE_ACTOR
      modifies server, this
      ensures server.Valid() && Grows(old(server.sys), server.sys) && Continues(old(server.trace), server.trace)
      ensures faults >= old(faults)
      ensures At(server.sys, me) == IDLE_ACTOR
      ensures claimed.Err? ==> err == Some(claimed.error) && outcomes == []
      ensures claimed.Err? ==> faults > old(faults) || limit < 0
      ensures claimed.Ok? ==> |claimed.value| <= limit && Distinct(claimed.value)
      ensures claimed.Ok? ==> HandedOver(server.trace, |old(server.trace).steps|, me, limit, claimed.value)
      ensures claimed.Ok? ==> forall id :: id in claimed.value ==> id !in old(server.sys).delivered
      ensures claimed.Ok? ==> err == FirstError(outcomes)
      ensures claimed.Ok? ==>
        Processed(server.sys, server.trace, claimed.value, outcomes, answers,
          Clean(old(faults), |old(server.trace).steps|))
      ensures err.None? <==> claimed.Ok? && AllDone(server.sys, claimed.value)
    {
      claimed := ClaimQueued(limit);
      outcomes := [];
      if claimed.Err? {
        return Some(claimed.error), claimed, [];
      }
      ghost var tr, f := server.trace, faults;
      err, outcomes := ProcessClaimed(claimed.value, answers);
      HandedOverStays(tr, server.trace, |old(server.trace).steps|, me, limit, claimed.value);
      CleanSplits(old(faults), |old(server.trace).steps|, f, tr);
    }

    /** The loop over the claimed jobs: a failure never stops the jobs after it. */
    method ProcessClaimed(jobs: seq<JobId>, answers: JobId -> Answer)
      returns (firstErr: Option<string>, outcomes: seq<Option<string>>)
      requires server.Valid() && server.mode.DbPoll?
      requires At(server.sys, me) == if jobs == [] then IDLE_ACTOR else Actor(Marking, jobs)
      modifies server, this
      ensures server.Valid() && Grows(old(server.sys), server.sys) && Continues(old(server.trace), server.trace)
      ensures faults >= old(faults)
      ensures At(server.sys, me) == IDLE_ACTOR
      ensures firstErr == FirstError(outcomes) && (firstErr.None? <==> AllDone(server.sys, jobs))
      ensures Processed(server.sys, server.trace, jobs, outcomes, answers,
        Clean(old(faults), |old(server.trace).steps|))
    {
      outcomes, firstErr := [], None;
      server.Same();
      ghost var before := server.sys;
      FirstRound(server.sys, server.trace, me, jobs, answers, Clean(old(faults), |old(server.trace).steps|));
      for i := 0 to |jobs|
        invariant server.Valid() && Continues(old(server.trace), server.trace) && faults >= old(faults)
        invariant Batch(before, server.sys, server.trace, me, jobs, i, outcomes, firstErr, answers,
          Clean(old(faults), |old(server.trace).steps|))
      {
        ghost var s, tr, f := server.sys, server.trace, faults;
        ghost var clean := Clean(old(faults), |old(server.trace).steps|);
        RestAdvances(jobs, i);
        var err := ProcessJob(answers(jobs[i]));
        CleanSplits(old(faults), |old(server.trace).steps|, f, tr);
        NextInBatch(before, s, tr, server.sys, server.trace, me, jobs, i, outcomes, firstErr, answers, clean,
          err, Clean(old(faults), |old(server.trace).steps|));
        outcomes := outcomes + [err];
        if err.Some? && firstErr.None? {
          firstErr := err;
        }
      }
      LastRound(before, server.sys, server.trace, me, jobs, outcomes, firstErr, answers,
        Clean(old(faults), |old(server.trace).steps|));
    }

    /** One round of the loop. */
    method ProcessJob(answer: Answer) returns (err: Option<string>)
      requires server.Valid() && At(server.sys, me).pc.Marking?
      modifies server, this
      ensures server.Valid() && Grows(old(server.sys), server.sys) && Continues(old(server.trace), server.trace)
      ensures faults >= old(faults)
      ensures At(server.sys, me) == Advance(At(old(server.sys), me))
      ensures Settled(server.sys, Cur(At(old(server.sys), me)), err.None?)
      ensures Reported(server.sys, server.trace, Cur(At(old(server.sys), me)), err)
      ensures AsAnswered(server.sys, Cur(At(old(server.sys), me)), answer)
      ensures Clean(old(faults), |old(server.trace).steps|) ==> err == OutcomeOf(answer)
    {
      UpdateStatusProcessing();
      ghost var tr := server.trace;
      var late;
      err, late := CompleteQuoteUpdate(answer, false);
      LaterWindow(server.trace, |old(server.trace).steps|, |tr.steps|, me);
    }

    // ----- the channel worker -----

    /**
     One message, on a context with a deadline.  A fetch that fails by the deadline leaves its job queued
     for good; a panic inside the fetch leads to one attempt to mark the job failed, on a context
     without the deadline.
     */
    method ProcessOne(answer: Answer, panic: Option<string>) returns (late: bool, err: Option<string>)
      requires server.Valid() && server.mode.Chan? && At(server.sys, me).pc.Fetching?
      modifies server, this
      ensures server.Valid() && Grows(old(server.sys), server.sys) && Continues(old(server.trace), server.trace)
      ensures faults >= old(faults)
      ensures At(server.sys, me) == IDLE_ACTOR
      ensures Settled(server.sys, Cur(At(old(server.sys), me)), err.None?)
      ensures Reported(server.sys, server.trace, Cur(At(old(server.sys), me)), err)
      ensures AsAnswered(server.sys, Cur(At(old(server.sys), me)), Told(answer, panic))
      ensures late <==> panic.None? && answer.FetchFailed? && answer.atDeadline
      ensures late ==> var id := Cur(At(old(server.sys), me));
        id in server.sys.lost && server.sys.db.jobs[id].status == Queued
      ensures Clean(old(faults), |old(server.trace).steps|) ==>
        && err == OutcomeOf(Told(answer, panic))
        && (Told(answer, panic).FetchFailed? && !late ==>
              server.sys.db.jobs[Cur(At(old(server.sys), me))].status == Failed)
    {
      server.Sound();
      SingleJob(server.sys, me);
      if panic.Some? {
        late := false;
        err := Recover(panic.value);
      } else {
        err, late := CompleteQuoteUpdate(answer, true);
      }
      server.Sound();
      LostIsHeld(server.sys);
    }

    /** The deferred recovery: a completion whose fetch fails with the panic's text, on the worker's own context. */
    method Recover(panic: string) returns (err: Option<string>)
      requires server.Valid() && At(server.sys, me).pc.Fetching?
      modifies server, this
      ensures server.Valid() && Grows(old(server.sys), server.sys) && Continues(old(server.trace), server.trace)
      ensures faults >= old(faults)
      ensures At(server.sys, me) == Advance(At(old(server.sys), me)) && err == Some("panic: " + panic)
      ensures Settled(server.sys, Cur(At(old(server.sys), me)), false)
      ensures AsAnswered(server.sys, Cur(At(old(server.sys), me)), FetchFailed("panic: " + panic, false))
      ensures Reported(server.sys, server.trace, Cur(At(old(server.sys), me)), err)
      ensures Clean(old(faults), |old(server.trace).steps|) ==>
        server.sys.db.jobs[Cur(At(old(server.sys), me))].status == Failed
    {
      var late;
      err, late := CompleteQuoteUpdate(FetchFailed("panic: " + panic, false), false);
    }

    /** Receive: the oldest buffered message, or the message of a sender that waits on the empty channel. */
    method Receive() returns (got: Option<JobId>)
      requires server.Valid() && server.mode.Chan? && At(server.sys, me) == IDLE_ACTOR
      modifies server
      ensures server.Valid() && Grows(old(server.sys), server.sys) && Continues(old(server.trace), server.trace)
      ensures got.None? ==> At(server.sys, me) == IDLE_ACTOR
      ensures got.Some? ==> At(server.sys, me) == Actor(Fetching, [got.value])
      ensures got.Some? ==> got.value !in old(server.sys).delivered && got.value in server.sys.delivered
      ensures got.None? ==> server.sys.buf == []
    {
      server.Others(Some(me), {});
      server.Sound();
      assert forall id :: id in old(server.sys).delivered ==> id in server.sys.delivered;
      var sender: JobId := *;
      if CanReceive(server.sys, me) {
        got := Some(server.sys.buf[0]);
        server.Take(Step.Receive(me));
      } else if CanHandoff(server.sys, me, sender) {
        got := Some(sender);
        server.Take(Handoff(me, sender));
      } else {
        got := None;
      }
    }

    method HandleNext(answers: JobId -> Answer, panics: JobId -> Option<string>) returns (got: Option<JobId>)
      requires server.Valid() && server.mode.Chan? && At(server.sys, me) == IDLE_ACTOR
      modifies server, this
      ensures server.Valid() && Grows(old(server.sys), server.sys) && Continues(old(server.trace), server.trace)
      ensures faults >= old(faults)
      ensures At(server.sys, me) == IDLE_ACTOR
      ensures got.Some? ==> got.value !in old(server.sys).delivered && got.value in server.sys.delivered
      ensures got.Some? ==> AsAnswered(server.sys, got.value, Told(answers(got.value), panics(got.value)))
      ensures got.None? ==> server.sys.buf == []
    {
      got := Receive();
      if got.Some? {
        var late, err := ProcessOne(answers(got.value), panics(got.value));
      }
    }

    /**
     The consumer loop, for the rounds before it is cancelled or the channel is closed: what it handles is
     new, distinct and fetched, and only a round that finds the channel empty handles nothing.
     */
    method Start(rounds: nat, answers: JobId -> Answer, panics: JobId -> Option<string>)
      returns (handled: seq<JobId>, idle: nat)
      requires server.Valid() && server.mode.Chan? && At(server.sys, me) == IDLE_ACTOR
      modifies server, this
      ensures server.Valid() && Grows(old(server.sys), server.sys) && Continues(old(server.trace), server.trace)
      ensures faults >= old(faults)
      ensures At(server.sys, me) == IDLE_ACTOR
      ensures Distinct(handled) && |handled| + idle == rounds
      ensures idle > 0 ==> WasEmpty(server.trace, |old(server.trace).steps|)
      ensures forall id :: id in handled ==>
        && AsAnswered(server.sys, id, Told(answers(id), panics(id)))
        && id in server.sys.delivered && id !in old(server.sys).delivered
    {
      handled, idle := [], 0;
      server.Same();
      ghost var before := server.sys;
      for i := 0 to rounds
        invariant server.Valid() && Grows(before, server.sys) && At(server.sys, me) == IDLE_ACTOR
        invariant Continues(old(server.trace), server.trace) && faults >= old(faults)
        invariant Distinct(handled) && |handled| + idle == i
        invariant idle > 0 ==> WasEmpty(server.trace, |old(server.trace).steps|)
        invariant Handled(before, server.sys, handled, answers, panics)
      {
        ghost var s, tr := server.sys, server.trace;
        var got := HandleNext(answers, panics);
        GrowsTransitive(before, s, server.sys);
        EmptyStays(tr, server.trace, |old(server.trace).steps|);
        if got.Some? {
          OneMoreHandled(before, s, server.sys, handled, got.value, answers, panics);
          handled := handled + [got.value];
        } else {
          EmptyNow(server.trace, |old(server.trace).steps|);
          StillHandled(before, s, server.sys, handled, answers, panics);
          idle := idle + 1;
        }
      }
    }
  }

  // ----- the channel -----

  /** Some time from step `from` on, the message waited and the buffer was full. */
  ghost predicate WasFull(tr: Trace, from: nat, id: JobId) {
    exists i :: from <= i < |tr.states| && id in tr.states[i].inbox && |tr.states[i].buf| == tr.states[i].cap
  }

  /** ProvideChanBus's Enqueue, called by the request that created the job. */
  class ChanBus {
    const server: Server

    constructor (server: Server)
      ensures this.server == server
    {
      this.server := server;
    }

    /**
     Returns nil exactly when the message entered the channel (or a waiting receiver took it); then
     the job is buffered or delivered, and otherwise it never will be.  A message is refused only if
     the buffer was full when it was first offered; the buffer stays within its capacity.
     */
    method Enqueue(id: JobId, cancelled: bool) returns (err: Option<string>)
      requires server.Valid() && server.mode.Chan? && id in server.sys.inbox
      modifies server
      ensures server.Valid() && Grows(old(server.sys), server.sys) && Continues(old(server.trace), server.trace)
      ensures id !in server.sys.inbox
      ensures err.None? <==> (id in server.sys.buf || id in server.sys.delivered)
      ensures err.Some? <==> id in server.sys.lost
      ensures |server.sys.buf| <= server.sys.cap && Keys.Grew(old(server.store), server.store, {})
      ensures err.Some? ==> WasFull(server.trace, |old(server.trace).steps|, id)
      ensures err.Some? ==> err.value == if cancelled then "context canceled" else "queue full"
    {
      server.Others(None, {id});
      var sent := TrySend(id);
      if sent { return None; }
      ghost var offered := server.trace;
      FullNow(offered, |old(server.trace).steps|, id);
      err := AwaitRoom(id, cancelled);
      FullStays(offered, server.trace, |old(server.trace).steps|, id);
    }

    /** The timer runs: room or a receiver may turn up before it fires or the request is cancelled. */
    method AwaitRoom(id: JobId, cancelled: bool) returns (err: Option<string>)
      requires server.Valid() && server.mode.Chan? && id in server.sys.inbox
      modifies server
      ensures server.Valid() && Grows(old(server.sys), server.sys) && Continues(old(server.trace), server.trace)
      ensures id !in server.sys.inbox
      ensures err.None? <==> (id in server.sys.buf || id in server.sys.delivered)
      ensures err.Some? <==> id in server.sys.lost
      ensures |server.sys.buf| <= server.sys.cap && Keys.Grew(old(server.store), server.store, {})
      ensures err.Some? ==> err.value == if cancelled then "context canceled" else "queue full"
    {
      server.Others(None, {id});
      var inTime := *;
      if inTime {
        var sent := TrySend(id);
        if sent { return None; }
      }
      Refuse(id);
      err := Some(if cancelled then "context canceled" else "queue full");
    }

    method TrySend(id: JobId) returns (sent: bool)
      requires server.Valid() && server.mode.Chan? && id in server.sys.inbox
      modifies server
      ensures server.Valid() && Grows(old(server.sys), server.sys) && Continues(old(server.trace), server.trace)
      ensures server.store == old(server.store)
      ensures sent ==> Arrived(server.sys, id)
      ensures !sent ==>
        server.sys == old(server.sys) && server.trace == old(server.trace) && |server.sys.buf| == server.sys.cap
    {
      var receiver: nat := *;
      if CanHandoff(server.sys, receiver, id) {
        PassOn(receiver, id);
        sent := true;
      } else if CanEnqueue(server.sys, id) {
        Buffer(id);
        sent := true;
      } else {
        server.Sound();
        server.Same();
        sent := false;
      }
    }

    method PassOn(receiver: nat, id: JobId)
      requires server.Valid() && CanHandoff(server.sys, receiver, id)
      modifies server
      ensures server.Valid() && Grows(old(server.sys), server.sys) && Continues(old(server.trace), server.trace) &&
        Arrived(server.sys, id)
      ensures server.store == old(server.store)
    {
      server.Sound();
      HandoffArrives(server.sys, receiver, id);
      server.Take(Handoff(receiver, id));
    }

    method Buffer(id: JobId)
      requires server.Valid() && CanEnqueue(server.sys, id)
      modifies server
      ensures server.Valid() && Grows(old(server.sys), server.sys) && Continues(old(server.trace), server.trace) &&
        Arrived(server.sys, id)
      ensures server.store == old(server.store)
    {
      server.Sound();
      EnqueueArrives(server.sys, id);
      server.Take(Step.Enqueue(id));
    }

    /** The request ends without a dispatch. */
    method Refuse(id: JobId)
      requires server.Valid() && CanReject(server.sys, id)
      modifies server
      ensures server.Valid() && Grows(old(server.sys), server.sys) && Continues(old(server.trace), server.trace) &&
        Refused(server.sys, id)
      ensures server.store == old(server.store)
    {
      server.Sound();
      RejectRefuses(server.sys, id);
      server.Take(Reject(id));
    }
  }

  /** The message is with the workers, and the buffer within its capacity. */
  predicate Arrived(s: Sys, id: JobId) {
    id !in s.inbox && id !in s.lost && (id in s.buf || id in s.delivered) && |s.buf| <= s.cap
  }

  lemma HandoffArrives(s: Sys, w: nat, id: JobId)
    requires Owned(s) && CanHandoff(s, w, id)
    ensures Arrived(DoHandoff(s, w, id), id)
  {
  }

  /** The message is with nobody, for good. */
  predicate Refused(s: Sys, id: JobId) {
    id !in s.inbox && id in s.lost && id !in s.buf && id !in s.delivered && |s.buf| <= s.cap
  }

  lemma RejectRefuses(s: Sys, id: JobId)
    requires Owned(s) && CanReject(s, id)
    ensures Refused(DoReject(s, id), id)
  {
  }

  lemma EnqueueArrives(s: Sys, id: JobId)
    requires Owned(s) && CanEnqueue(s, id)
    ensures Arrived(DoEnqueue(s, id), id)
  {
  }

  lemma FullNow(tr: Trace, from: nat, id: JobId)
    requires |tr.states| == |tr.steps| + 1 && from <= |tr.steps|
    requires id in Last(tr).inbox && |Last(tr).buf| == Last(tr).cap
    ensures WasFull(tr, from, id)
  {
    assert tr.states[|tr.steps|] == Last(tr);
  }

  lemma FullStays(tr: Trace, tr': Trace, from: nat, id: JobId)
    requires WasFull(tr, from, id) && tr.states <= tr'.states
    ensures WasFull(tr', from, id)
  {
    var i :| from <= i < |tr.states| && id in tr.states[i].inbox && |tr.states[i].buf| == tr.states[i].cap;
    assert tr'.states[i] == tr.states[i];
  }

  /** What a claim returns is within its limit, without repeats, and new to everyone. */
  lemma ReturnIsFresh(s: Sys, w: nat, out: seq<JobId>)
    requires Owned(s) && CanReturn(s, w, out)
    ensures |out| <= At(s, w).pc.limit && Distinct(out)
    ensures forall id :: id in out ==> id !in s.delivered
  {
    assert ActorOk(s, At(s, w));
    DistinctPermutation(At(s, w).pc.picked, out);
  }

  lemma LostIsHeld(s: Sys)
    requires Owned(s)
    ensures forall id :: id in s.lost ==> id in s.db.jobs && s.db.jobs[id].status == Held(s.mode)
  {
  }

  lemma SingleJob(s: Sys, w: nat)
    requires Owned(s) && !s.mode.DbPoll? && At(s, w).work != []
    ensures |At(s, w).work| == 1
  {
    assert ActorOk(s, At(s, w));
  }
}
