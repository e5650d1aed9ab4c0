/**
 Bounded waiting.  While claims do not overlap and later requests carry later times, a queued job
 with r queued jobs no younger than it (itself included) is taken within ceil(r / L) claims of
 limit at least L.
 */
module Fairness {
  import opened Prelude
  import opened Tables
  import opened Machine
  import opened Ownership
  import opened Serial
  import opened Consistency
  import opened Guarantees

  /** The queued jobs requested no later than t. */
  function Ahead(s: Sys, t: Micros): set<JobId> {
    set id | id in s.db.jobs && s.db.jobs[id].status == Queued && s.db.jobs[id].requestedAt <= t
  }

  predicate NoScan(s: Sys) {
    forall w :: w in s.actors ==> !s.actors[w].pc.Scanning?
  }

  /** The steps considered: claims start only when none is in progress, and new requests are later. */
  predicate Fair(s: Sys, st: Step, t: Micros, l: nat) {
    match st
    case Create(_, _, at) => at > t
    case Claim(_, limit, _) => NoScan(s) && limit >= l
    case _ => true
  }

  /** A claim that committed, whether or not its rows could be read. */
  predicate Succeeds(st: Step) { st.Return? || st.Lose? }

  function Successes(run: seq<Step>): nat {
    if run == [] then 0 else Successes(run[..|run| - 1]) + if Succeeds(run[|run| - 1]) then 1 else 0
  }

  // ----- what a lone claim keeps -----

  /** The claim has every job of Ahead still to come or already picked, oldest first. */
  ghost predicate ScanOk(s: Sys, pc: Pc, t: Micros, l: nat)
    requires pc.Scanning?
  {
    && pc.limit >= l
    && (forall id :: id in Ahead(s, t) ==> id in pc.picked || id in pc.todo)
    && (forall id :: id in pc.picked || id in pc.todo ==> id in s.db.jobs)
    && (forall i, j :: 0 <= i < j < |pc.todo| ==>
      s.db.jobs[pc.todo[i]].requestedAt <= s.db.jobs[pc.todo[j]].requestedAt)
    && (forall x, y :: x in pc.picked && y in pc.todo ==> s.db.jobs[x].requestedAt <= s.db.jobs[y].requestedAt)
  }

  ghost predicate LoneScan(s: Sys, t: Micros, l: nat) {
    && (forall v, w :: v in s.actors && w in s.actors && s.actors[v].pc.Scanning? && s.actors[w].pc.Scanning? ==>
      v == w)
    && (forall w :: w in s.actors && s.actors[w].pc.Scanning? ==> ScanOk(s, s.actors[w].pc, t, l))
  }

  /** A queued row is locked by no one but a claim. */
  lemma QueuedIsFree(s: Sys, w: nat, id: JobId)
    requires Owned(s) && s.mode.DbPoll? && id in s.db.jobs && s.db.jobs[id].status == Queued
    ensures ClaimFree(s, w, id) ||
      exists v :: v != w && v in s.actors && s.actors[v].pc.Scanning? && id in s.actors[v].pc.locked
  {
    forall v | v in s.actors && !s.actors[v].pc.Scanning?
      ensures id !in JobLocks(s.actors[v]) && id !in JobShares(s.actors[v])
    {
      assert ActorOk(s, At(s, v));
      if s.actors[v].work != [] {
        assert Cur(s.actors[v]) in s.actors[v].work;
      }
    }
  }

  /** Of the queued rows it visits, a claim passes over only those that another claim holds. */
  lemma SkipsOnlyHeld(s: Sys, w: nat)
    requires Owned(s) && CanVisit(s, w)
    requires At(s, w).pc.todo[0] in s.db.jobs && s.db.jobs[At(s, w).pc.todo[0]].status == Queued
    ensures At(s, w).pc.todo[0] in Visit(s, w).picked
      || exists v :: v != w && v in s.actors && s.actors[v].pc.Scanning? && At(s, w).pc.todo[0] in s.actors[v].pc.locked
  {
    assert ActorOk(s, At(s, w));
    QueuedIsFree(s, w, At(s, w).pc.todo[0]);
  }

  // ----- one step -----

  /** Only a claim takes a job out of the queue, and only a request puts one in. */
  lemma OtherAhead(s: Sys, st: Step, t: Micros)
    requires Owned(s) && s.mode.DbPoll? && Enabled(s, st) && !st.Create? && !Succeeds(st)
    ensures Ahead(Next(s, st), t) == Ahead(s, t)
  {
    if st.Mark? || st.WriteFailed? || st.Commit? {
      assert ActorOk(s, At(s, st.w)) && Cur(At(s, st.w)) in At(s, st.w).work;
    } else {
      QuietStep(s, st);
    }
  }

  lemma ScanFrame(s: Sys, s': Sys, pc: Pc, t: Micros, l: nat)
    requires pc.Scanning? && ScanOk(s, pc, t, l)
    requires Ahead(s', t) <= Ahead(s, t)
    requires forall j :: j in s.db.jobs ==> j in s'.db.jobs && s'.db.jobs[j].requestedAt == s.db.jobs[j].requestedAt
    ensures ScanOk(s', pc, t, l)
  {
  }

  lemma ClaimScan(s: Sys, w: nat, limit: nat, rows: seq<JobId>, t: Micros, l: nat)
    requires Owned(s) && CanClaim(s, w, rows) && NoScan(s) && limit >= l
    ensures LoneScan(DoClaim(s, w, limit, rows), t, l)
    ensures Ahead(DoClaim(s, w, limit, rows), t) == Ahead(s, t)
  {
    var s' := DoClaim(s, w, limit, rows);
    assert ScanOk(s', s'.actors[w].pc, t, l);
  }

  /** The visited row, if it is ahead, is free and is picked. */
  lemma VisitScan(s: Sys, w: nat, t: Micros, l: nat)
    requires Owned(s) && s.mode.DbPoll? && CanVisit(s, w) && LoneScan(s, t, l)
    ensures ScanOk(s, Visit(s, w), t, l)
  {
    var pc := At(s, w).pc;
    assert ScanOk(s, pc, t, l);
    AheadIsPicked(s, w, t, l);
    var x, rest := pc.todo[0], pc.todo[1..];
    assert pc.todo == [x] + rest;
    forall y | y in rest ensures s.db.jobs[x].requestedAt <= s.db.jobs[y].requestedAt {
      var i :| 0 <= i < |rest| && rest[i] == y;
      assert pc.todo[i + 1] == y;
    }
    forall i, j | 0 <= i < j < |rest| ensures s.db.jobs[rest[i]].requestedAt <= s.db.jobs[rest[j]].requestedAt {
      assert rest[i] == pc.todo[i + 1] && rest[j] == pc.todo[j + 1];
    }
  }

  lemma AheadIsPicked(s: Sys, w: nat, t: Micros, l: nat)
    requires Owned(s) && s.mode.DbPoll? && CanVisit(s, w) && LoneScan(s, t, l)
    ensures At(s, w).pc.todo[0] in Ahead(s, t) ==> At(s, w).pc.todo[0] in Visit(s, w).picked
  {
    if At(s, w).pc.todo[0] in Ahead(s, t) {
      SkipsOnlyHeld(s, w);
    }
  }

  lemma VisitKeepsScan(s: Sys, w: nat, t: Micros, l: nat)
    requires Owned(s) && s.mode.DbPoll? && CanVisit(s, w) && LoneScan(s, t, l)
    ensures LoneScan(DoVisit(s, w), t, l)
  {
    VisitScan(s, w, t, l);
    var s' := DoVisit(s, w);
    assert s'.db == s.db;
    ScanFrame(s, s', Visit(s, w), t, l);
  }

  /** A committed claim takes everything ahead, or as many jobs ahead as its limit. */
  lemma SuccessTakes(s: Sys, w: nat, jobs: map<JobId, Job>, t: Micros, l: nat)
    requires Owned(s) && ScanDone(At(s, w).pc) && ScanOk(s, At(s, w).pc, t, l)
    requires jobs == MarkClaimed(s.db.jobs, Elements(At(s, w).pc.picked))
    ensures
      var left := Ahead(s.(db := s.db.(jobs := jobs)), t);
      left == {} || |left| + l <= |Ahead(s, t)|
  {
    var pc := At(s, w).pc;
    assert ActorOk(s, At(s, w));
    var left := Ahead(s.(db := s.db.(jobs := jobs)), t);
    var taken := Elements(pc.picked);
    assert left == Ahead(s, t) - taken;
    if y :| y in left {
      assert y in pc.todo;
      assert taken <= Ahead(s, t);
      DistinctSize(pc.picked);
    }
  }

  /** After a claim ended no claim is in progress. */
  lemma EndedScan(s: Sys, s': Sys, w: nat, t: Micros, l: nat)
    requires LoneScan(s, t, l) && At(s, w).pc.Scanning?
    requires forall v :: v in s'.actors ==>
      if v == w then !s'.actors[v].pc.Scanning? else v in s.actors && s'.actors[v] == s.actors[v]
    ensures LoneScan(s', t, l)
  {
  }

  /** Steps that neither start nor advance a claim. */
  lemma OtherScan(s: Sys, s': Sys, t: Micros, l: nat)
    requires LoneScan(s, t, l) && Ahead(s', t) == Ahead(s, t) && Grows(s, s')
    requires forall v :: v in s'.actors && s'.actors[v].pc.Scanning? ==> v in s.actors && s'.actors[v] == s.actors[v]
    ensures LoneScan(s', t, l)
  {
    forall v | v in s'.actors && s'.actors[v].pc.Scanning? ensures ScanOk(s', s'.actors[v].pc, t, l) {
      ScanFrame(s, s', s.actors[v].pc, t, l);
    }
  }

  lemma OtherActors(s: Sys, st: Step, v: nat)
    requires Owned(s) && Enabled(s, st) && !st.Claim? && !st.VisitRow?
    requires v in Next(s, st).actors && Next(s, st).actors[v].pc.Scanning?
    ensures v in s.actors && Next(s, st).actors[v] == s.actors[v]
  {
  }

  /** What a fair step does to the jobs ahead. */
  lemma FairStep(s: Sys, st: Step, t: Micros, l: nat)
    requires Owned(s) && s.mode.DbPoll? && Enabled(s, st) && Fair(s, st, t, l) && LoneScan(s, t, l)
    ensures LoneScan(Next(s, st), t, l)
    ensures !Succeeds(st) ==> Ahead(Next(s, st), t) == Ahead(s, t)
    ensures Succeeds(st) ==> Ahead(Next(s, st), t) == {} || |Ahead(Next(s, st), t)| + l <= |Ahead(s, t)|
  {
    var s' := Next(s, st);
    if st.Claim? {
      ClaimScan(s, st.w, st.limit, st.rows, t, l);
    } else if st.VisitRow? {
      VisitKeepsScan(s, st.w, t, l);
      OtherAhead(s, st, t);
    } else if Succeeds(st) {
      SuccessStep(s, st, t, l);
    } else {
      NextGrows(s, st);
      if st.Create? {
        assert Ahead(s', t) == Ahead(s, t);
      } else {
        OtherAhead(s, st, t);
      }
      forall v | v in s'.actors && s'.actors[v].pc.Scanning? ensures v in s.actors && s'.actors[v] == s.actors[v] {
        OtherActors(s, st, v);
      }
      OtherScan(s, s', t, l);
    }
  }

  lemma SuccessStep(s: Sys, st: Step, t: Micros, l: nat)
    requires Owned(s) && Enabled(s, st) && LoneScan(s, t, l) && Succeeds(st)
    ensures LoneScan(Next(s, st), t, l)
    ensures Ahead(Next(s, st), t) == {} || |Ahead(Next(s, st), t)| + l <= |Ahead(s, t)|
  {
    var s', w := Next(s, st), st.w;
    if st.Return? {
      PermutationElements(At(s, w).pc.picked, st.out);
    }
    assert s'.db.jobs == MarkClaimed(s.db.jobs, Elements(At(s, w).pc.picked));
    SuccessTakes(s, w, s'.db.jobs, t, l);
    assert Ahead(s', t) == Ahead(s.(db := s.db.(jobs := s'.db.jobs)), t);
    EndedScan(s, s', w, t, l);
  }

  // ----- runs -----

  function Times(n: nat, l: nat): nat { if n == 0 then 0 else Times(n - 1, l) + l }

  lemma {:induction false} TimesIsProduct(n: nat, l: nat)
    ensures Times(n, l) == n * l
  {
    if n > 0 {
      TimesIsProduct(n - 1, l);
    }
  }

  lemma {:induction false} AheadShrinks(cap: nat, tr: Trace, i: nat, k: nat, t: Micros, l: nat)
    requires IsTrace(DbPoll, cap, tr) && i <= k <= |tr.steps| && NoScan(tr.states[i])
    requires forall m :: i <= m < k ==> Fair(tr.states[m], tr.steps[m], t, l)
    ensures LoneScan(tr.states[k], t, l)
    ensures Ahead(tr.states[k], t) == {}
         || |Ahead(tr.states[k], t)| + Times(Successes(tr.steps[i..k]), l) <= |Ahead(tr.states[i], t)|
    decreases k
  {
    if i < k {
      AheadShrinks(cap, tr, i, k - 1, t, l);
      assert tr.steps[i..k][..k - 1 - i] == tr.steps[i..k - 1];
      FairStepAt(cap, tr, k - 1, t, l);
    } else {
      assert tr.steps[i..k] == [];
    }
  }

  lemma FairStepAt(cap: nat, tr: Trace, k: nat, t: Micros, l: nat)
    requires IsTrace(DbPoll, cap, tr) && k < |tr.steps|
    requires Fair(tr.states[k], tr.steps[k], t, l) && LoneScan(tr.states[k], t, l)
    ensures LoneScan(tr.states[k + 1], t, l)
    ensures !Succeeds(tr.steps[k]) ==> Ahead(tr.states[k + 1], t) == Ahead(tr.states[k], t)
    ensures Succeeds(tr.steps[k]) ==>
      Ahead(tr.states[k + 1], t) == {} || |Ahead(tr.states[k + 1], t)| + l <= |Ahead(tr.states[k], t)|
  {
    InvAt(DbPoll, cap, tr, k);
    assert Took(tr, k);
    FairStep(tr.states[k], tr.steps[k], t, l);
  }

  /** With r jobs no younger, ceil(r / l) successful claims of limit at least l are enough. */
  lemma BoundedWaiting(cap: nat, tr: Trace, i: nat, k: nat, id: JobId, l: nat)
    requires IsTrace(DbPoll, cap, tr) && i <= k <= |tr.steps| && NoScan(tr.states[i])
    requires id in tr.states[i].db.jobs
    requires forall m :: i <= m < k ==> Fair(tr.states[m], tr.steps[m], tr.states[i].db.jobs[id].requestedAt, l)
    requires Successes(tr.steps[i..k]) * l >= |Ahead(tr.states[i], tr.states[i].db.jobs[id].requestedAt)|
    ensures id in tr.states[k].db.jobs && tr.states[k].db.jobs[id].status != Queued
  {
    var s, s' := tr.states[i], tr.states[k];
    var t := s.db.jobs[id].requestedAt;
    AheadShrinks(cap, tr, i, k, t, l);
    RunGrows(DbPoll, cap, tr, i, k);
    TimesIsProduct(Successes(tr.steps[i..k]), l);
    assert s'.db.jobs[id].status == Queued ==> id in Ahead(s', t);
  }
}
