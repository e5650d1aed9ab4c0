/**
 Who may work on a job: an invariant of every run.  The lists of the actors, the rows a claim has
 picked, the channel and the inbox never share a job, and no two actors hold conflicting row locks.
 */
module Ownership {
  import opened Prelude
  import opened Tables
  import opened Machine

  // ----- the invariant -----

  ghost predicate FetchedQuote(s: Sys, id: JobId, q: Quote) {
    && id in s.fetched && s.fetched[id] == Some(q)
    && id in s.db.jobs && s.db.jobs[id].pair == q.pair
  }

  /** What an actor at each program point may rely on. */
  ghost predicate PcOk(s: Sys, a: Actor) {
    var id, src := Cur(a), Source(s.mode);
    match a.pc
    case Idle => true
    case Scanning(limit, todo, locked, picked) =>
      && s.mode.DbPoll?
      && Distinct(todo) && Distinct(picked) && |picked| <= limit
      && (forall j :: j in todo ==> j in s.db.jobs && j !in locked)
      && (forall j :: j in locked ==> j in s.db.jobs)
      && (forall j :: j in picked ==> j in locked && s.db.jobs[j].status == Queued)
    case Marking => s.mode.DbPoll? && id !in s.fetched
    case Fetching => id !in s.fetched
    case Failing(_, _) => id in s.fetched && s.fetched[id] == None
    case Opening(q) => FetchedQuote(s, id, q)
    case Appending(q, _) => FetchedQuote(s, id, q)
    case Referencing(q, _) => FetchedQuote(s, id, q) && Fits(q.price) && KeyOf(q, src) !in s.db.history
    case Upserting(q, _, wrote) =>
      FetchedQuote(s, id, q) && Fits(q.price) && (wrote <==> KeyOf(q, src) !in s.db.history)
    case Finishing(q, _, wrote) =>
      FetchedQuote(s, id, q) && Fits(q.price) && (wrote <==> KeyOf(q, src) !in s.db.history)
    case Committing(q, at, wrote, row) =>
      && FetchedQuote(s, id, q) && Fits(q.price) && (wrote <==> KeyOf(q, src) !in s.db.history)
      && row == WithStatus(s.db.jobs[id], Done, None, at)
  }

  ghost predicate WorkOk(s: Sys, a: Actor) {
    && Distinct(a.work)
    && (a.work == [] <==> a.pc.Idle? || a.pc.Scanning?)
    && (!s.mode.DbPoll? ==> |a.work| <= 1)
    && (forall j :: j in a.work ==>
          && j in s.db.jobs && s.db.jobs[j].status == Held(s.mode)
          && j in s.delivered
          && j !in s.inbox && j !in s.buf && j !in s.lost)
    && (forall j :: j in a.work && j != Cur(a) ==> j !in s.fetched)
  }

  ghost predicate ActorOk(s: Sys, a: Actor) {
    WorkOk(s, a) && PcOk(s, a)
  }

  /** Two different actors: no job in common, and every lock both hold is one both may hold. */
  ghost predicate Apart(mode: Mode, a: Actor, b: Actor) {
    && (forall j :: j in a.work ==> j !in b.work)
    && JobLocks(a) !! JobLocks(b)
    && (a.pc.Scanning? ==> JobLocks(a) !! JobShares(b))
    && (b.pc.Scanning? ==> JobLocks(b) !! JobShares(a))
    && HistoryLocks(mode, a) !! HistoryLocks(mode, b)
    && QuoteLocks(a) !! QuoteLocks(b)
  }

  ghost predicate ActorsOk(s: Sys) {
    && (forall w :: ActorOk(s, At(s, w)))
    && (forall v, w :: v != w ==> Apart(s.mode, At(s, v), At(s, w)))
  }

  ghost predicate PoolsOk(s: Sys) {
    && (s.mode.DbPoll? ==> s.inbox == {} && s.buf == [])
    && |s.buf| <= s.cap
    && Distinct(s.buf)
    && (forall j :: j in s.inbox || j in s.buf ==>
          j in s.db.jobs && s.db.jobs[j].status == Queued && j !in s.delivered && j !in s.lost)
    && (forall j :: j in s.inbox ==> j !in s.buf)
    && (forall j :: j in s.lost ==> j in s.db.jobs && s.db.jobs[j].status == Held(s.mode))
    && Distinct(s.delivered)
    && (forall j :: j in s.delivered ==> j in s.db.jobs && (s.mode.DbPoll? ==> s.db.jobs[j].status != Queued))
    && (forall j :: j in s.fetched ==> j in s.delivered)
  }

  ghost predicate Owned(s: Sys) {
    ActorsOk(s) && PoolsOk(s)
  }

  // ----- what one actor's step may disturb -----

  /** Every fact about `b` survives a change of the shared state that leaves b's own jobs and keys alone. */
  lemma Frame(s: Sys, s': Sys, b: Actor)
    requires ActorOk(s, b) && s'.mode == s.mode
    requires forall j :: j in s.db.jobs ==> j in s'.db.jobs
    requires forall j :: j in b.work || j in JobLocks(b) ==> j in s.db.jobs ==> s'.db.jobs[j] == s.db.jobs[j]
    requires forall j :: j in b.work ==>
      (j in s.fetched <==> j in s'.fetched) && (j in s.fetched ==> s'.fetched[j] == s.fetched[j])
    requires forall j :: j in b.work ==> j !in s'.inbox && j !in s'.buf && j !in s'.lost && j in s'.delivered
    requires forall k :: k in s.db.history ==> k in s'.db.history
    requires forall k :: k in HistoryLocks(s.mode, b) ==> k !in s'.db.history
    ensures ActorOk(s', b)
  {
    if b.work != [] {
      assert Cur(b) in b.work;
    }
  }

  lemma Assemble(s: Sys, s': Sys, w: nat)
    requires ActorsOk(s) && s'.mode == s.mode
    requires forall v :: v != w ==> At(s', v) == At(s, v)
    requires ActorOk(s', At(s', w))
    requires forall v :: v != w ==> ActorOk(s', At(s, v)) && Apart(s.mode, At(s', w), At(s, v))
    ensures ActorsOk(s')
  {
    forall v ensures ActorOk(s', At(s', v)) {
      if v != w { assert At(s', v) == At(s, v); }
    }
    forall u, v | u != v ensures Apart(s'.mode, At(s', u), At(s', v)) {
      if u == w {
        assert Apart(s.mode, At(s', w), At(s, v));
      } else if v == w {
        assert Apart(s.mode, At(s', w), At(s, u));
      } else {
        assert Apart(s.mode, At(s, u), At(s, v));
      }
    }
  }

  // ----- one lemma per kind of step -----

  lemma CreateKeeps(s: Sys, id: JobId, pair: Pair, at: Micros)
    requires Owned(s) && CanCreate(s, id)
    ensures Owned(DoCreate(s, id, pair, at))
  {
    var s' := DoCreate(s, id, pair, at);
    forall v ensures ActorOk(s', At(s', v)) {
      assert ActorOk(s, At(s, v));
      Frame(s, s', At(s, v));
    }
    forall u, v | u != v ensures Apart(s'.mode, At(s', u), At(s', v)) {
      assert Apart(s.mode, At(s, u), At(s, v));
    }
  }

  lemma EnqueueKeeps(s: Sys, id: JobId)
    requires Owned(s) && CanEnqueue(s, id)
    ensures Owned(DoEnqueue(s, id))
  {
    var s' := DoEnqueue(s, id);
    forall v ensures ActorOk(s', At(s', v)) {
      assert ActorOk(s, At(s, v));
      Frame(s, s', At(s, v));
    }
    forall u, v | u != v ensures Apart(s'.mode, At(s', u), At(s', v)) {
      assert Apart(s.mode, At(s, u), At(s, v));
    }
    DistinctAppend(s.buf, [id]);
  }

  lemma RejectKeeps(s: Sys, id: JobId)
    requires Owned(s) && CanReject(s, id)
    ensures Owned(DoReject(s, id))
  {
    var s' := DoReject(s, id);
    forall v ensures ActorOk(s', At(s', v)) {
      assert ActorOk(s, At(s, v));
      Frame(s, s', At(s, v));
    }
    forall u, v | u != v ensures Apart(s'.mode, At(s', u), At(s', v)) {
      assert Apart(s.mode, At(s, u), At(s, v));
    }
  }

  lemma HandoffKeeps(s: Sys, w: nat, id: JobId)
    requires Owned(s) && CanHandoff(s, w, id)
    ensures Owned(DoHandoff(s, w, id))
  {
    var s' := DoHandoff(s, w, id);
    DistinctAppend(s.delivered, [id]);
    forall v | v != w ensures ActorOk(s', At(s, v)) && Apart(s.mode, At(s', w), At(s, v)) {
      assert ActorOk(s, At(s, v));
      Frame(s, s', At(s, v));
    }
    Assemble(s, s', w);
  }

  lemma ReceiveKeeps(s: Sys, w: nat)
    requires Owned(s) && CanReceive(s, w)
    ensures Owned(DoReceive(s, w))
  {
    var s' := DoReceive(s, w);
    DistinctAppend(s.delivered, [s.buf[0]]);
    DistinctTail(s.buf);
    forall v | v != w ensures ActorOk(s', At(s, v)) && Apart(s.mode, At(s', w), At(s, v)) {
      assert ActorOk(s, At(s, v));
      Frame(s, s', At(s, v));
    }
    Assemble(s, s', w);
  }

  lemma ClaimKeeps(s: Sys, w: nat, limit: nat, rows: seq<JobId>)
    requires Owned(s) && CanClaim(s, w, rows)
    ensures Owned(DoClaim(s, w, limit, rows))
  {
    var s' := DoClaim(s, w, limit, rows);
    forall v | v != w ensures ActorOk(s', At(s, v)) && Apart(s.mode, At(s', w), At(s, v)) {
      assert ActorOk(s, At(s, v));
      Frame(s, s', At(s, v));
    }
    Assemble(s, s', w);
  }

  lemma VisitOk(s: Sys, w: nat)
    requires Owned(s) && CanVisit(s, w)
    ensures ActorOk(s, Actor(Visit(s, w), []))
  {
    var a := At(s, w);
    assert ActorOk(s, a);
    DistinctTail(a.pc.todo);
    if a.pc.todo[0] in s.db.jobs && s.db.jobs[a.pc.todo[0]].status == Queued {
      DistinctAppend(a.pc.picked, [a.pc.todo[0]]);
    }
  }

  lemma VisitKeeps(s: Sys, w: nat)
    requires Owned(s) && CanVisit(s, w)
    ensures Owned(DoVisit(s, w))
  {
    var s' := DoVisit(s, w);
    var a, a' := At(s, w), At(s', w);
    VisitOk(s, w);
    assert ActorOk(s', a');
    forall v | v != w ensures ActorOk(s', At(s, v)) && Apart(s.mode, a', At(s, v)) {
      assert ActorOk(s, At(s, v)) && Apart(s.mode, a, At(s, v));
      Frame(s, s', At(s, v));
      if a'.pc.locked != a.pc.locked && v in s.actors {
        assert ClaimFree(s, w, a.pc.todo[0]);
      }
    }
    Assemble(s, s', w);
  }

  /** The rows a claim picked are locked by it alone, so marking them disturbs no other actor. */
  lemma ClaimWriteFrame(s: Sys, s': Sys, w: nat, v: nat)
    requires Owned(s) && v != w && At(s, w).pc.Scanning?
    requires s'.mode == s.mode && s'.fetched == s.fetched && s'.inbox == s.inbox && s'.buf == s.buf
    requires s'.db == s.db.(jobs := MarkClaimed(s.db.jobs, Elements(At(s, w).pc.picked)))
    requires forall j :: j in s'.lost ==> j in s.lost || j in At(s, w).pc.picked
    requires forall j :: j in s.delivered ==> j in s'.delivered
    ensures ActorOk(s', At(s, v))
    ensures forall j :: j in At(s, w).pc.picked ==> j !in At(s, v).work && j !in JobLocks(At(s, v))
  {
    var a, b := At(s, w), At(s, v);
    assert ActorOk(s, a) && ActorOk(s, b) && Apart(s.mode, a, b);
    Frame(s, s', b);
  }

  lemma ReturnActor(s: Sys, w: nat, out: seq<JobId>)
    requires Owned(s) && CanReturn(s, w, out)
    ensures ActorOk(DoReturn(s, w, out), At(DoReturn(s, w, out), w))
    ensures PoolsOk(DoReturn(s, w, out))
    ensures Elements(out) == Elements(At(s, w).pc.picked)
  {
    assert ActorOk(s, At(s, w));
    DistinctPermutation(At(s, w).pc.picked, out);
    PermutationElements(At(s, w).pc.picked, out);
    DistinctAppend(s.delivered, out);
  }

  lemma ReturnKeeps(s: Sys, w: nat, out: seq<JobId>)
    requires Owned(s) && CanReturn(s, w, out)
    ensures Owned(DoReturn(s, w, out))
  {
    var s' := DoReturn(s, w, out);
    ReturnActor(s, w, out);
    forall v | v != w ensures ActorOk(s', At(s, v)) && Apart(s.mode, At(s', w), At(s, v)) {
      ClaimWriteFrame(s, s', w, v);
      assert forall j :: j in out ==> j in Elements(out);
    }
    Assemble(s, s', w);
  }

  lemma LoseKeeps(s: Sys, w: nat)
    requires Owned(s) && CanLose(s, w)
    ensures Owned(DoLose(s, w))
  {
    var s' := DoLose(s, w);
    assert ActorOk(s, At(s, w));
    forall v | v != w ensures ActorOk(s', At(s, v)) && Apart(s.mode, At(s', w), At(s, v)) {
      ClaimWriteFrame(s, s', w, v);
    }
    Assemble(s, s', w);
  }

  lemma CancelKeeps(s: Sys, w: nat)
    requires Owned(s) && CanCancel(s, w)
    ensures Owned(DoCancel(s, w))
  {
    var s' := DoCancel(s, w);
    forall v | v != w ensures ActorOk(s', At(s, v)) && Apart(s.mode, At(s', w), At(s, v)) {
      assert ActorOk(s, At(s, v));
      Frame(s, s', At(s, v));
    }
    Assemble(s, s', w);
  }

  /** Actor w wrote, by its own step, at most the row of its current job and the history key it holds. */
  lemma CurrentFrame(s: Sys, s': Sys, w: nat, v: nat)
    requires Owned(s) && v != w && At(s, w).work != [] && s'.mode == s.mode
    requires Cur(At(s, w)) !in JobLocks(At(s, v))
    requires s.db.jobs.Keys == s'.db.jobs.Keys
    requires forall j :: j in s.db.jobs && j != Cur(At(s, w)) ==> s'.db.jobs[j] == s.db.jobs[j]
    requires forall j :: j != Cur(At(s, w)) ==>
      (j in s.fetched <==> j in s'.fetched) && (j in s.fetched ==> s'.fetched[j] == s.fetched[j])
    requires s'.inbox == s.inbox && s'.buf == s.buf && s'.delivered == s.delivered
    requires forall j :: j in s'.lost ==> j in s.lost || j == Cur(At(s, w))
    requires forall k :: k in s.db.history ==> k in s'.db.history
    requires forall k :: k in s'.db.history ==> k in s.db.history || k in HistoryLocks(s.mode, At(s, w))
    ensures ActorOk(s', At(s, v))
  {
    var a, b := At(s, w), At(s, v);
    assert ActorOk(s, b) && Apart(s.mode, a, b);
    assert Cur(a) in a.work;
    Frame(s, s', b);
  }

  /** The list going on keeps the actor sound and takes no lock. */
  lemma AdvanceOk(s: Sys, s': Sys, w: nat)
    requires Owned(s) && At(s, w).work != [] && s'.mode == s.mode
    requires s.db.jobs.Keys == s'.db.jobs.Keys
    requires forall j :: j in s.db.jobs && j != Cur(At(s, w)) ==> s'.db.jobs[j] == s.db.jobs[j]
    requires s'.fetched == s.fetched && s'.delivered == s.delivered && s'.inbox == s.inbox && s'.buf == s.buf
    requires forall j :: j in s'.lost ==> j in s.lost || j == Cur(At(s, w))
    ensures ActorOk(s', Advance(At(s, w)))
    ensures forall v :: v != w ==> Apart(s.mode, Advance(At(s, w)), At(s, v))
  {
    var a := At(s, w);
    assert ActorOk(s, a);
    DistinctTail(a.work);
    forall v | v != w ensures Apart(s.mode, Advance(a), At(s, v)) {
      assert Apart(s.mode, a, At(s, v));
    }
  }

  lemma MarkOk(s: Sys, w: nat, ok: bool)
    requires Owned(s) && CanMark(s, w, ok)
    ensures ActorOk(DoMark(s, w, ok), At(DoMark(s, w, ok), w)) && PoolsOk(DoMark(s, w, ok))
  {
    assert ActorOk(s, At(s, w)) && Cur(At(s, w)) in At(s, w).work;
  }

  lemma MarkKeeps(s: Sys, w: nat, ok: bool)
    requires Owned(s) && CanMark(s, w, ok)
    ensures Owned(DoMark(s, w, ok))
  {
    var s' := DoMark(s, w, ok);
    var a := At(s, w);
    MarkOk(s, w, ok);
    assert ActorOk(s, a) && Cur(a) in a.work;
    forall v | v != w ensures ActorOk(s', At(s, v)) && Apart(s.mode, At(s', w), At(s, v)) {
      assert Apart(s.mode, a, At(s, v)) && ActorOk(s, At(s, v));
      if ok {
        CurrentFrame(s, s', w, v);
      } else {
        Frame(s, s', At(s, v));
      }
    }
    Assemble(s, s', w);
  }

  lemma FetchOk(s: Sys, w: nat, q: Quote)
    requires Owned(s) && CanFetch(s, w, q)
    ensures ActorOk(DoFetch(s, w, q), At(DoFetch(s, w, q), w)) && PoolsOk(DoFetch(s, w, q))
  {
    assert ActorOk(s, At(s, w)) && Cur(At(s, w)) in At(s, w).work;
  }

  lemma FetchKeeps(s: Sys, w: nat, q: Quote)
    requires Owned(s) && CanFetch(s, w, q)
    ensures Owned(DoFetch(s, w, q))
  {
    var s' := DoFetch(s, w, q);
    var a := At(s, w);
    FetchOk(s, w, q);
    assert ActorOk(s, a) && Cur(a) in a.work;
    forall v | v != w ensures ActorOk(s', At(s, v)) && Apart(s.mode, At(s', w), At(s, v)) {
      assert Apart(s.mode, a, At(s, v)) && ActorOk(s, At(s, v));
      Frame(s, s', At(s, v));
    }
    Assemble(s, s', w);
  }

  lemma FailOk(s: Sys, w: nat, msg: string, late: bool)
    requires Owned(s) && CanFail(s, w, late)
    ensures ActorOk(DoFail(s, w, msg, late), At(DoFail(s, w, msg, late), w)) && PoolsOk(DoFail(s, w, msg, late))
  {
    assert ActorOk(s, At(s, w)) && Cur(At(s, w)) in At(s, w).work;
  }

  lemma FailKeeps(s: Sys, w: nat, msg: string, late: bool)
    requires Owned(s) && CanFail(s, w, late)
    ensures Owned(DoFail(s, w, msg, late))
  {
    var s' := DoFail(s, w, msg, late);
    var a := At(s, w);
    FailOk(s, w, msg, late);
    assert ActorOk(s, a) && Cur(a) in a.work;
    forall v | v != w ensures ActorOk(s', At(s, v)) && Apart(s.mode, At(s', w), At(s, v)) {
      assert Apart(s.mode, a, At(s, v)) && ActorOk(s, At(s, v));
      Frame(s, s', At(s, v));
    }
    Assemble(s, s', w);
  }

  lemma WriteFailedKeeps(s: Sys, w: nat, at: Micros, ok: bool)
    requires Owned(s) && CanWriteFailed(s, w, ok)
    ensures Owned(DoWriteFailed(s, w, at, ok))
  {
    var s' := DoWriteFailed(s, w, at, ok);
    var a := At(s, w);
    assert ActorOk(s, a) && Cur(a) in a.work;
    AdvanceOk(s, s', w);
    forall v | v != w ensures ActorOk(s', At(s, v)) {
      assert Apart(s.mode, a, At(s, v)) && ActorOk(s, At(s, v));
      if ok {
        CurrentFrame(s, s', w, v);
      } else {
        Frame(s, s', At(s, v));
      }
    }
    Assemble(s, s', w);
  }

  lemma GiveUpKeeps(s: Sys, w: nat)
    requires Owned(s) && CanGiveUp(s, w)
    ensures Owned(DoGiveUp(s, w))
  {
    var s' := DoGiveUp(s, w);
    var a := At(s, w);
    assert ActorOk(s, a) && Cur(a) in a.work;
    AdvanceOk(s, s', w);
    forall v | v != w ensures ActorOk(s', At(s, v)) {
      assert Apart(s.mode, a, At(s, v)) && ActorOk(s, At(s, v));
      Frame(s, s', At(s, v));
    }
    Assemble(s, s', w);
  }

  /** A statement inside a transaction changes only the actor that issued it. */
  lemma StatementKeeps(s: Sys, w: nat, a': Actor)
    requires Owned(s) && ActorOk(s, a')
    requires forall v :: v != w ==> Apart(s.mode, a', At(s, v))
    ensures Owned(Put(s, w, a'))
  {
    var s' := Put(s, w, a');
    assert ActorOk(s', a');
    forall v | v != w ensures ActorOk(s', At(s, v)) {
      assert ActorOk(s, At(s, v));
    }
    Assemble(s, s', w);
  }

  lemma BeginKeeps(s: Sys, w: nat, at: Micros)
    requires Owned(s) && CanBegin(s, w)
    ensures Owned(DoBegin(s, w, at))
  {
    var a' := At(DoBegin(s, w, at), w);
    assert ActorOk(s, At(s, w));
    forall v | v != w ensures Apart(s.mode, a', At(s, v)) {
      assert Apart(s.mode, At(s, w), At(s, v));
    }
    StatementKeeps(s, w, a');
  }

  lemma AppendKeeps(s: Sys, w: nat)
    requires Owned(s) && CanAppend(s, w)
    ensures Owned(DoAppend(s, w))
  {
    var a' := At(DoAppend(s, w), w);
    assert ActorOk(s, At(s, w));
    forall v | v != w ensures Apart(s.mode, a', At(s, v)) {
      assert Apart(s.mode, At(s, w), At(s, v));
    }
    StatementKeeps(s, w, a');
  }

  lemma ReferKeeps(s: Sys, w: nat)
    requires Owned(s) && CanRefer(s, w)
    ensures Owned(DoRefer(s, w))
  {
    var a' := At(DoRefer(s, w), w);
    assert ActorOk(s, At(s, w));
    forall v | v != w ensures Apart(s.mode, a', At(s, v)) {
      assert Apart(s.mode, At(s, w), At(s, v));
    }
    StatementKeeps(s, w, a');
  }

  lemma UpsertKeeps(s: Sys, w: nat)
    requires Owned(s) && CanUpsert(s, w)
    ensures Owned(DoUpsert(s, w))
  {
    var a' := At(DoUpsert(s, w), w);
    assert ActorOk(s, At(s, w));
    forall v | v != w ensures Apart(s.mode, a', At(s, v)) {
      assert Apart(s.mode, At(s, w), At(s, v));
    }
    StatementKeeps(s, w, a');
  }

  lemma FinishKeeps(s: Sys, w: nat)
    requires Owned(s) && CanFinish(s, w)
    ensures Owned(DoFinish(s, w))
  {
    var a' := At(DoFinish(s, w), w);
    assert ActorOk(s, At(s, w));
    forall v | v != w ensures Apart(s.mode, a', At(s, v)) {
      assert Apart(s.mode, At(s, w), At(s, v));
    }
    StatementKeeps(s, w, a');
  }

  lemma CommitKeeps(s: Sys, w: nat)
    requires Owned(s) && CanCommit(s, w)
    ensures Owned(DoCommit(s, w))
  {
    var s' := DoCommit(s, w);
    var a := At(s, w);
    assert ActorOk(s, a) && Cur(a) in a.work;
    AdvanceOk(s, s', w);
    forall v | v != w ensures ActorOk(s', At(s, v)) {
      assert Apart(s.mode, a, At(s, v)) && ActorOk(s, At(s, v));
      CurrentFrame(s, s', w, v);
    }
    Assemble(s, s', w);
  }

  /** Every step of every actor keeps the ownership invariant. */
  lemma NextKeeps(s: Sys, st: Step)
    requires Owned(s) && Enabled(s, st)
    ensures Owned(Next(s, st))
  {
    match st
    case Create(id, pair, at) => CreateKeeps(s, id, pair, at);
    case Enqueue(id) => EnqueueKeeps(s, id);
    case Reject(id) => RejectKeeps(s, id);
    case Handoff(w, id) => HandoffKeeps(s, w, id);
    case Receive(w) => ReceiveKeeps(s, w);
    case Claim(w, limit, rows) => ClaimKeeps(s, w, limit, rows);
    case VisitRow(w) => VisitKeeps(s, w);
    case Return(w, out) => ReturnKeeps(s, w, out);
    case Lose(w) => LoseKeeps(s, w);
    case Cancel(w) => CancelKeeps(s, w);
    case Mark(w, ok) => MarkKeeps(s, w, ok);
    case Fetch(w, q) => FetchKeeps(s, w, q);
    case Fail(w, msg, late) => FailKeeps(s, w, msg, late);
    case WriteFailed(w, at, ok) => WriteFailedKeeps(s, w, at, ok);
    case Begin(w, at) => BeginKeeps(s, w, at);
    case Append(w) => AppendKeeps(s, w);
    case Refer(w) => ReferKeeps(s, w);
    case Upsert(w) => UpsertKeeps(s, w);
    case Finish(w) => FinishKeeps(s, w);
    case Commit(w) => CommitKeeps(s, w);
    case Abandon(w, _) => GiveUpKeeps(s, w);
  }
}
