/** What the three committed tables say about each other and about the fetches, in every reachable state. */
module Consistency {
  import opened Prelude
  import opened Tables
  import opened Machine
  import opened Ownership
  import opened Serial

  // ----- the invariants -----

  predicate JobOk(row: Job) {
    (row.completedAt.Some? <==> row.status.Terminal()) && (row.error.Some? <==> row.status == Failed)
  }

  /** The job fetched this quote and is done. */
  ghost predicate DoneWith(db: Db, fetched: map<JobId, Option<Quote>>, id: JobId, q: Quote) {
    id in db.jobs && db.jobs[id].status == Done && id in fetched && fetched[id] == Some(q)
  }

  ghost predicate FetchedOk(db: Db, fetched: map<JobId, Option<Quote>>) {
    forall id :: id in fetched ==> id in db.jobs && (fetched[id].Some? ==> fetched[id].value.pair == db.jobs[id].pair)
  }

  /** Timestamps and messages follow the status; a finished job agrees with its fetch. */
  ghost predicate JobsOk(src: string, db: Db, fetched: map<JobId, Option<Quote>>) {
    && (forall id :: id in db.jobs ==> JobOk(db.jobs[id]))
    && (forall id :: id in db.jobs && db.jobs[id].status == Failed ==> id in fetched && fetched[id] == None)
    && (forall id :: id in db.jobs && db.jobs[id].status == Done ==>
          id in fetched && fetched[id].Some? && KeyOf(fetched[id].value, src) in db.history)
  }

  /** A history row is the quote fetched by the done job it names. */
  ghost predicate RowBacked(src: string, db: Db, fetched: map<JobId, Option<Quote>>, k: HistoryKey, row: HistoryRow) {
    && row.updateId in fetched && fetched[row.updateId].Some?
    && var q := fetched[row.updateId].value;
    && DoneWith(db, fetched, row.updateId, q) && k == KeyOf(q, src) && row == HistoryRowOf(q, row.updateId)
  }

  ghost predicate HistoryOk(src: string, db: Db, fetched: map<JobId, Option<Quote>>) {
    forall k :: k in db.history ==> RowBacked(src, db, fetched, k, db.history[k])
  }

  /** A quotes row is the quote fetched by some done job. */
  ghost predicate QuoteBacked(db: Db, fetched: map<JobId, Option<Quote>>, p: Pair, row: QuoteRow, id: JobId) {
    && id in fetched && fetched[id].Some?
    && DoneWith(db, fetched, id, fetched[id].value)
    && fetched[id].value.pair == p && row == QuoteRowOf(fetched[id].value)
  }

  ghost predicate QuotesOk(db: Db, fetched: map<JobId, Option<Quote>>) {
    forall p :: p in db.quotes ==> exists id :: QuoteBacked(db, fetched, p, db.quotes[p], id)
  }

  ghost predicate TablesOk(src: string, db: Db, fetched: map<JobId, Option<Quote>>) {
    FetchedOk(db, fetched) && JobsOk(src, db, fetched) && HistoryOk(src, db, fetched) && QuotesOk(db, fetched)
  }

  /** Each job is completed at most once in the log, with the quote it fetched. */
  ghost predicate LogOk(s: Sys) {
    && (forall i :: 0 <= i < |s.log| && s.log[i].Completed? ==> DoneWith(s.db, s.fetched, s.log[i].id, s.log[i].quote))
    && (forall i, j :: 0 <= i < j < |s.log| && s.log[i].Completed? && s.log[j].Completed? ==>
      s.log[i].id != s.log[j].id)
  }

  ghost predicate HeldBy(s: Sys, w: nat, id: JobId) {
    w in s.actors && id in s.actors[w].work
  }

  ghost predicate InHand(s: Sys, id: JobId) {
    exists w :: HeldBy(s, w, id)
  }

  /** No unfinished job is forgotten. */
  ghost predicate Covered(s: Sys) {
    forall id :: id in s.db.jobs && !s.db.jobs[id].status.Terminal() ==>
      if s.mode.DbPoll?
      then s.db.jobs[id].status == Processing ==> id in s.lost || InHand(s, id)
      else s.db.jobs[id].status == Queued && (id in s.inbox || id in s.buf || id in s.lost || InHand(s, id))
  }

  ghost predicate Inv(s: Sys) {
    && Owned(s)
    && SerialOk(s)
    && TablesOk(Source(s.mode), s.db, s.fetched)
    && LogOk(s)
    && Covered(s)
  }

  // ----- the tables through each kind of write -----

  /** What done jobs fetched stays what they fetched. */
  ghost predicate Remembers(db: Db, fetched: map<JobId, Option<Quote>>, db': Db, fetched': map<JobId, Option<Quote>>) {
    forall id, q :: DoneWith(db, fetched, id, q) ==> DoneWith(db', fetched', id, q)
  }

  lemma RowsStayBacked(src: string, db: Db, fetched: map<JobId, Option<Quote>>,
      db': Db, fetched': map<JobId, Option<Quote>>)
    requires HistoryOk(src, db, fetched) && QuotesOk(db, fetched) && Remembers(db, fetched, db', fetched')
    ensures forall k :: k in db.history ==> RowBacked(src, db', fetched', k, db.history[k])
    ensures forall p :: p in db.quotes ==> exists id :: QuoteBacked(db', fetched', p, db.quotes[p], id)
  {
    forall k | k in db.history ensures RowBacked(src, db', fetched', k, db.history[k]) {
      assert RowBacked(src, db, fetched, k, db.history[k]);
    }
    forall p | p in db.quotes ensures exists id :: QuoteBacked(db', fetched', p, db.quotes[p], id) {
      var id :| QuoteBacked(db, fetched, p, db.quotes[p], id);
      assert QuoteBacked(db', fetched', p, db.quotes[p], id);
    }
  }

  lemma FetchedGrows(src: string, db: Db, fetched: map<JobId, Option<Quote>>, id: JobId, f: Option<Quote>)
    requires TablesOk(src, db, fetched) && id !in fetched && id in db.jobs
    requires f.Some? ==> f.value.pair == db.jobs[id].pair
    ensures TablesOk(src, db, fetched[id := f])
  {
    RowsStayBacked(src, db, fetched, db, fetched[id := f]);
  }

  /** Rows of unfinished jobs may be rewritten to any sound row that is not Done. */
  lemma JobsRewritten(src: string, db: Db, jobs: map<JobId, Job>, fetched: map<JobId, Option<Quote>>)
    requires TablesOk(src, db, fetched)
    requires forall j :: j in db.jobs ==> j in jobs && jobs[j].pair == db.jobs[j].pair
    requires forall j :: j in db.jobs && db.jobs[j].status.Terminal() ==> jobs[j] == db.jobs[j]
    requires forall j :: j in jobs ==> JobOk(jobs[j])
    requires forall j :: j in jobs && jobs[j].status == Done ==> j in db.jobs && db.jobs[j].status == Done
    requires forall j :: j in jobs && jobs[j].status == Failed ==> j in fetched && fetched[j] == None
    ensures TablesOk(src, db.(jobs := jobs), fetched)
  {
    RowsStayBacked(src, db, fetched, db.(jobs := jobs), fetched);
  }

  /** A completed job brings its history key, its quotes row and its status together. */
  lemma CompleteKeepsTables(src: string, db: Db, id: JobId, q: Quote, now: Micros, fetched: map<JobId, Option<Quote>>)
    requires TablesOk(src, db, fetched)
    requires id in fetched && fetched[id] == Some(q)
    requires Complete(db, id, q, src, now).Ok?
    ensures TablesOk(src, Complete(db, id, q, src, now).value, fetched)
  {
    CompleteRemembers(src, db, id, q, now, fetched);
    RowsStayBacked(src, db, fetched, Complete(db, id, q, src, now).value, fetched);
    JobsAfterComplete(src, db, id, q, now, fetched);
    HistoryAfterComplete(src, db, id, q, now, fetched);
    QuotesAfterComplete(src, db, id, q, now, fetched);
  }

  lemma JobsAfterComplete(src: string, db: Db, id: JobId, q: Quote, now: Micros, fetched: map<JobId, Option<Quote>>)
    requires FetchedOk(db, fetched) && JobsOk(src, db, fetched)
    requires id in fetched && fetched[id] == Some(q) && Complete(db, id, q, src, now).Ok?
    ensures FetchedOk(Complete(db, id, q, src, now).value, fetched)
    ensures JobsOk(src, Complete(db, id, q, src, now).value, fetched)
  {
  }

  lemma QuotesAfterComplete(src: string, db: Db, id: JobId, q: Quote, now: Micros, fetched: map<JobId, Option<Quote>>)
    requires id in fetched && fetched[id] == Some(q) && Complete(db, id, q, src, now).Ok?
    requires forall p :: p in db.quotes ==>
      exists j :: QuoteBacked(Complete(db, id, q, src, now).value, fetched, p, db.quotes[p], j)
    ensures QuotesOk(Complete(db, id, q, src, now).value, fetched)
  {
    var db' := Complete(db, id, q, src, now).value;
    CompleteRemembers(src, db, id, q, now, fetched);
    assert QuoteBacked(db', fetched, q.pair, db'.quotes[q.pair], id);
  }

  lemma CompleteRemembers(src: string, db: Db, id: JobId, q: Quote, now: Micros, fetched: map<JobId, Option<Quote>>)
    requires id in fetched && fetched[id] == Some(q) && Complete(db, id, q, src, now).Ok?
    ensures Remembers(db, fetched, Complete(db, id, q, src, now).value, fetched)
    ensures DoneWith(Complete(db, id, q, src, now).value, fetched, id, q)
  {
  }

  lemma HistoryAfterComplete(src: string, db: Db, id: JobId, q: Quote, now: Micros, fetched: map<JobId, Option<Quote>>)
    requires Complete(db, id, q, src, now).Ok? && id in fetched && fetched[id] == Some(q)
    requires forall k :: k in db.history ==>
      RowBacked(src, Complete(db, id, q, src, now).value, fetched, k, db.history[k])
    ensures HistoryOk(src, Complete(db, id, q, src, now).value, fetched)
  {
    var db' := Complete(db, id, q, src, now).value;
    forall k | k in db'.history ensures RowBacked(src, db', fetched, k, db'.history[k]) {
      if k in db.history {
        assert RowBacked(src, db', fetched, k, db.history[k]);
      }
    }
  }

  // ----- every step -----

  lemma ClaimTables(s: Sys, w: nat, ids: set<JobId>)
    requires Owned(s) && At(s, w).pc.Scanning? && ids == Elements(At(s, w).pc.picked)
    requires TablesOk(Source(s.mode), s.db, s.fetched)
    ensures TablesOk(Source(s.mode), s.db.(jobs := MarkClaimed(s.db.jobs, ids)), s.fetched)
  {
    assert ActorOk(s, At(s, w));
    JobsRewritten(Source(s.mode), s.db, MarkClaimed(s.db.jobs, ids), s.fetched);
  }

  lemma StatusTables(s: Sys, w: nat, status: Status, error: Option<string>, now: Micros)
    requires Owned(s) && At(s, w).work != [] && TablesOk(Source(s.mode), s.db, s.fetched)
    requires (status == Processing && error == None) || (status == Failed && error.Some? && At(s, w).pc.Failing?)
    ensures TablesOk(Source(s.mode), SetStatus(s.db, Cur(At(s, w)), status, error, now), s.fetched)
  {
    var a := At(s, w);
    assert ActorOk(s, a) && Cur(a) in a.work;
    JobsRewritten(Source(s.mode), s.db, SetStatus(s.db, Cur(a), status, error, now).jobs, s.fetched);
  }

  lemma FetchTables(s: Sys, w: nat, f: Option<Quote>)
    requires Owned(s) && At(s, w).pc.Fetching? && TablesOk(Source(s.mode), s.db, s.fetched)
    requires f.Some? ==> CanFetch(s, w, f.value)
    ensures TablesOk(Source(s.mode), s.db, s.fetched[Cur(At(s, w)) := f])
  {
    assert ActorOk(s, At(s, w)) && Cur(At(s, w)) in At(s, w).work;
    FetchedGrows(Source(s.mode), s.db, s.fetched, Cur(At(s, w)), f);
  }

  lemma CommitTables(s: Sys, w: nat)
    requires Owned(s) && CanCommit(s, w) && TablesOk(Source(s.mode), s.db, s.fetched)
    ensures TablesOk(Source(s.mode), Flush(s.mode, s.db, At(s, w)), s.fetched)
  {
    var a := At(s, w);
    CommitIsSerial(s, w);
    assert ActorOk(s, a) && Cur(a) in a.work;
    CompleteKeepsTables(Source(s.mode), s.db, Cur(a), a.pc.quote, a.pc.at, s.fetched);
  }

  /** A commit keeps the tables in agreement. */
  lemma LoudTables(s: Sys, st: Step)
    requires Owned(s) && Enabled(s, st) && Commits(st) && TablesOk(Source(s.mode), s.db, s.fetched)
    ensures TablesOk(Source(s.mode), Next(s, st).db, Next(s, st).fetched)
  {
    match st
    case Create(id, pair, at) =>
      JobsRewritten(Source(s.mode), s.db, DoCreate(s, id, pair, at).db.jobs, s.fetched);
    case Return(w, out) =>
      PermutationElements(At(s, w).pc.picked, out);
      ClaimTables(s, w, Elements(out));
    case Lose(w) => ClaimTables(s, w, Elements(At(s, w).pc.picked));
    case Mark(w, ok) =>
      assert ActorOk(s, At(s, w));
      StatusTables(s, w, Processing, None, 0);
    case WriteFailed(w, at, ok) =>
      assert ActorOk(s, At(s, w));
      StatusTables(s, w, Failed, Some(At(s, w).pc.msg), at);
    case Commit(w) => CommitTables(s, w);
  }

  lemma NextTables(s: Sys, st: Step)
    requires Owned(s) && Enabled(s, st) && TablesOk(Source(s.mode), s.db, s.fetched)
    ensures TablesOk(Source(s.mode), Next(s, st).db, Next(s, st).fetched)
  {
    if Commits(st) {
      LoudTables(s, st);
    } else if st.Fetch? {
      FetchTables(s, st.w, Some(st.quote));
    } else if st.Fail? {
      FetchTables(s, st.w, None);
    } else {
      QuietStep(s, st);
    }
  }

  // ----- what never goes back -----

  /** No step deletes a job, rewrites a finished one, forgets a fetch, or touches a lost one. */
  ghost predicate Grows(s: Sys, s': Sys) {
    && s'.mode == s.mode && s'.cap == s.cap
    && (forall j :: j in s.db.jobs ==>
          && j in s'.db.jobs
          && s'.db.jobs[j].pair == s.db.jobs[j].pair
          && s'.db.jobs[j].requestedAt == s.db.jobs[j].requestedAt)
    && (forall j :: j in s.db.jobs && s.db.jobs[j].status.Terminal() ==> s'.db.jobs[j] == s.db.jobs[j])
    && (forall j :: j in s.lost ==> j in s'.lost && j in s.db.jobs && s'.db.jobs[j] == s.db.jobs[j])
    && (forall j :: j in s.fetched ==> j in s'.fetched && s'.fetched[j] == s.fetched[j])
    && s.delivered <= s'.delivered
  }

  lemma ClaimGrows(s: Sys, w: nat, ids: set<JobId>)
    requires Owned(s) && At(s, w).pc.Scanning? && ids == Elements(At(s, w).pc.picked)
    ensures forall j :: j in s.db.jobs && (s.db.jobs[j].status.Terminal() || j in s.lost) ==>
      MarkClaimed(s.db.jobs, ids)[j] == s.db.jobs[j]
  {
    assert ActorOk(s, At(s, w));
  }

  /** An actor writes only the row of its current job, which is neither finished nor lost. */
  lemma WorkGrows(s: Sys, s': Sys, w: nat)
    requires Owned(s) && At(s, w).work != [] && s'.mode == s.mode && s'.cap == s.cap
    requires s.db.jobs.Keys == s'.db.jobs.Keys
    requires forall j :: j in s.db.jobs ==> s'.db.jobs[j].pair == s.db.jobs[j].pair
    requires forall j :: j in s.db.jobs ==> s'.db.jobs[j].requestedAt == s.db.jobs[j].requestedAt
    requires forall j :: j in s.db.jobs && j != Cur(At(s, w)) ==> s'.db.jobs[j] == s.db.jobs[j]
    requires s.lost <= s'.lost && s.delivered <= s'.delivered
    requires s'.fetched == s.fetched
    ensures Grows(s, s')
  {
    assert ActorOk(s, At(s, w)) && Cur(At(s, w)) in At(s, w).work;
  }

  lemma FetchGrows(s: Sys, s': Sys, w: nat, f: Option<Quote>)
    requires Owned(s) && At(s, w).pc.Fetching?
    requires s'.mode == s.mode && s'.cap == s.cap && s'.db == s.db && s'.lost == s.lost && s'.delivered == s.delivered
    requires s'.fetched == s.fetched[Cur(At(s, w)) := f]
    ensures Grows(s, s')
  {
    assert ActorOk(s, At(s, w));
    assert forall j :: j in s.lost ==> j in s.db.jobs;
  }

  lemma QuietGrows(s: Sys, st: Step)
    requires Owned(s) && Enabled(s, st) && !Commits(st) && !st.Fetch? && !st.Fail?
    ensures Grows(s, Next(s, st))
  {
    QuietStep(s, st);
    assert Next(s, st).fetched == s.fetched && s.lost <= Next(s, st).lost && s.delivered <= Next(s, st).delivered;
    assert forall j :: j in s.lost ==> j in s.db.jobs;
  }

  lemma LoudGrows(s: Sys, st: Step)
    requires Owned(s) && Enabled(s, st) && Commits(st)
    ensures Grows(s, Next(s, st))
  {
    match st
    case Create(_, _, _) =>
    case Return(w, out) => ReturnGrows(s, w, out);
    case Lose(w) => ClaimGrows(s, w, Elements(At(s, w).pc.picked));
    case Mark(w, ok) => MarkGrows(s, w, ok);
    case WriteFailed(w, at, ok) => WriteFailedGrows(s, w, at, ok);
    case Commit(w) => CommitGrows(s, w);
  }

  lemma NextGrows(s: Sys, st: Step)
    requires Owned(s) && Enabled(s, st)
    ensures Grows(s, Next(s, st))
  {
    if Commits(st) {
      LoudGrows(s, st);
    } else if st.Fetch? {
      FetchGrows(s, DoFetch(s, st.w, st.quote), st.w, Some(st.quote));
    } else if st.Fail? {
      FetchGrows(s, DoFail(s, st.w, st.msg, st.late), st.w, None);
    } else {
      QuietGrows(s, st);
    }
  }

  lemma ReturnGrows(s: Sys, w: nat, out: seq<JobId>)
    requires Owned(s) && CanReturn(s, w, out)
    ensures Grows(s, DoReturn(s, w, out))
  {
    PermutationElements(At(s, w).pc.picked, out);
    ClaimGrows(s, w, Elements(out));
  }

  lemma MarkGrows(s: Sys, w: nat, ok: bool)
    requires Owned(s) && CanMark(s, w, ok)
    ensures Grows(s, DoMark(s, w, ok))
  {
    assert ActorOk(s, At(s, w));
    WorkGrows(s, DoMark(s, w, ok), w);
  }

  lemma WriteFailedGrows(s: Sys, w: nat, at: Micros, ok: bool)
    requires Owned(s) && CanWriteFailed(s, w, ok)
    ensures Grows(s, DoWriteFailed(s, w, at, ok))
  {
    assert ActorOk(s, At(s, w));
    WorkGrows(s, DoWriteFailed(s, w, at, ok), w);
  }

  lemma CommitGrows(s: Sys, w: nat)
    requires Owned(s) && CanCommit(s, w)
    ensures Grows(s, DoCommit(s, w))
  {
    assert ActorOk(s, At(s, w)) && Cur(At(s, w)) in At(s, w).work;
    WorkGrows(s, DoCommit(s, w), w);
  }

  // ----- completions in the log -----

  lemma DoneStays(s: Sys, s': Sys)
    requires Grows(s, s')
    ensures Remembers(s.db, s.fetched, s'.db, s'.fetched)
  {
  }

  lemma OtherLog(s: Sys, s': Sys)
    requires LogOk(s) && Grows(s, s') && s.log <= s'.log
    requires forall i :: |s.log| <= i < |s'.log| ==> !s'.log[i].Completed?
    ensures LogOk(s')
  {
    DoneStays(s, s');
    forall i | 0 <= i < |s'.log| && s'.log[i].Completed? ensures i < |s.log| && s'.log[i] == s.log[i] { }
  }

  lemma CommitLog(s: Sys, w: nat)
    requires Owned(s) && CanCommit(s, w) && LogOk(s)
    ensures LogOk(DoCommit(s, w))
  {
    var s', a := DoCommit(s, w), At(s, w);
    assert ActorOk(s, a) && Cur(a) in a.work;
    CommitGrows(s, w);
    DoneStays(s, s');
    assert DoneWith(s'.db, s'.fetched, Cur(a), a.pc.quote);
    forall i | 0 <= i < |s.log| && s.log[i].Completed? ensures s.log[i].id != Cur(a) && s'.log[i] == s.log[i] {
      assert DoneWith(s.db, s.fetched, s.log[i].id, s.log[i].quote);
    }
  }

  lemma NextLog(s: Sys, st: Step)
    requires Owned(s) && Enabled(s, st) && LogOk(s)
    ensures LogOk(Next(s, st))
  {
    NextGrows(s, st);
    if st.Commit? {
      CommitLog(s, st.w);
    } else if Commits(st) {
      var ev := LoudStep(s, st);
      OtherLog(s, Next(s, st));
    } else {
      QuietStep(s, st);
      OtherLog(s, Next(s, st));
    }
  }

  // ----- no job is forgotten -----

  /** Actor w may hand on or drop only jobs of its own list. */
  lemma OthersStillHold(s: Sys, s': Sys, w: nat)
    requires forall v :: v in s.actors ==> v in s'.actors && (v != w ==> s'.actors[v] == s.actors[v])
    ensures forall id :: InHand(s, id) ==> id in At(s, w).work || InHand(s', id)
    ensures w in s'.actors ==> forall id :: id in s'.actors[w].work ==> InHand(s', id)
  {
    forall id | InHand(s, id) ensures id in At(s, w).work || InHand(s', id) {
      var v :| HeldBy(s, v, id);
      if v != w {
        assert HeldBy(s', v, id);
      }
    }
    if w in s'.actors {
      forall id | id in s'.actors[w].work ensures InHand(s', id) {
        assert HeldBy(s', w, id);
      }
    }
  }

  /** A list loses its head only to a final status or to the lost jobs. */
  lemma AdvanceCovers(s: Sys, s': Sys, w: nat)
    requires Owned(s) && Covered(s) && At(s, w).work != []
    requires s'.actors == s.actors[w := Advance(At(s, w))] && s'.mode == s.mode
    requires s'.inbox == s.inbox && s'.buf == s.buf && s.lost <= s'.lost
    requires s.db.jobs.Keys == s'.db.jobs.Keys
    requires forall j :: j in s.db.jobs && j != Cur(At(s, w)) ==> s'.db.jobs[j] == s.db.jobs[j]
    requires Cur(At(s, w)) in s.db.jobs ==> s'.db.jobs[Cur(At(s, w))].status.Terminal() || Cur(At(s, w)) in s'.lost
    requires Cur(At(s, w)) in s.db.jobs && !s'.db.jobs[Cur(At(s, w))].status.Terminal() ==>
      s'.db.jobs[Cur(At(s, w))] == s.db.jobs[Cur(At(s, w))]
    ensures Covered(s')
  {
    var a := At(s, w);
    assert ActorOk(s, a);
    DistinctTail(a.work);
    OthersStillHold(s, s', w);
    forall id | id in a.work ensures id == Cur(a) || InHand(s', id) {
      if id != Cur(a) {
        assert |a.work| > 1;
        assert id in s'.actors[w].work;
      }
    }
  }

  /** Steps that keep every list. */
  lemma StayCovers(s: Sys, s': Sys, w: nat)
    requires Covered(s) && s'.mode == s.mode && s'.inbox == s.inbox && s'.buf == s.buf && s'.lost == s.lost
    requires forall v :: v in s.actors ==> v in s'.actors && (v != w ==> s'.actors[v] == s.actors[v])
    requires w in s'.actors && s'.actors[w].work == At(s, w).work
    requires s.db.jobs.Keys == s'.db.jobs.Keys
    requires forall j :: j in s.db.jobs ==> s'.db.jobs[j].status == s.db.jobs[j].status
    ensures Covered(s')
  {
    OthersStillHold(s, s', w);
    forall id | InHand(s, id) ensures InHand(s', id) {
      if id in At(s, w).work {
        assert HeldBy(s', w, id);
      }
    }
  }

  lemma ApiCovers(s: Sys, st: Step)
    requires Owned(s) && Covered(s) && Enabled(s, st) && (st.Create? || st.Enqueue? || st.Reject?)
    ensures Covered(Next(s, st))
  {
    var s' := Next(s, st);
    forall id | InHand(s, id) ensures InHand(s', id) {
      var v :| HeldBy(s, v, id);
      assert HeldBy(s', v, id);
    }
  }

  lemma DeliverCovers(s: Sys, st: Step)
    requires Owned(s) && Covered(s) && Enabled(s, st) && (st.Handoff? || st.Receive?)
    ensures Covered(Next(s, st))
  {
    var s' := Next(s, st);
    OthersStillHold(s, s', st.w);
    if st.Receive? {
      DistinctTail(s.buf);
    }
  }

  lemma ClaimCovers(s: Sys, s': Sys, w: nat)
    requires Owned(s) && Covered(s) && At(s, w).pc.Scanning?
    requires forall v :: v in s.actors ==> v in s'.actors && (v != w ==> s'.actors[v] == s.actors[v])
    requires w in s'.actors
    requires s'.mode == s.mode
    requires s'.db.jobs == s.db.jobs || s'.db.jobs == MarkClaimed(s.db.jobs, Elements(At(s, w).pc.picked))
    requires s.lost <= s'.lost
    requires s'.db.jobs != s.db.jobs ==> forall j :: j in At(s, w).pc.picked ==> j in s'.actors[w].work || j in s'.lost
    ensures Covered(s')
  {
    assert ActorOk(s, At(s, w));
    OthersStillHold(s, s', w);
  }

  /** Steps inside a transaction or a fetch: they commit nothing and keep every list. */
  lemma KeptListCovers(s: Sys, st: Step)
    requires Owned(s) && Covered(s) && Enabled(s, st)
    requires st.Fetch? || st.Fail? || st.Begin? || st.Append? || st.Refer? || st.Upsert? || st.Finish?
    ensures Covered(Next(s, st))
  {
    QuietStep(s, st);
    KeptList(s, st);
    StayCovers(s, Next(s, st), st.w);
  }

  lemma KeptList(s: Sys, st: Step)
    requires Enabled(s, st)
    requires st.Fetch? || st.Fail? || st.Begin? || st.Append? || st.Refer? || st.Upsert? || st.Finish?
    ensures Next(s, st).inbox == s.inbox && Next(s, st).buf == s.buf && Next(s, st).lost == s.lost
    ensures Next(s, st).actors == s.actors[st.w := At(Next(s, st), st.w)]
    ensures At(Next(s, st), st.w).work == At(s, st.w).work
  {
  }

  lemma ScanCovers(s: Sys, st: Step)
    requires Owned(s) && Covered(s) && Enabled(s, st)
    requires st.VisitRow? || st.Return? || st.Lose? || st.Cancel?
    ensures Covered(Next(s, st))
  {
    var s' := Next(s, st);
    if st.Return? {
      PermutationElements(At(s, st.w).pc.picked, st.out);
      assert forall j :: j in At(s, st.w).pc.picked ==> j in Elements(st.out);
    }
    ClaimCovers(s, s', st.w);
  }

  lemma NextCovered(s: Sys, st: Step)
    requires Owned(s) && Covered(s) && Enabled(s, st)
    ensures Covered(Next(s, st))
  {
    if st.Create? || st.Enqueue? || st.Reject? {
      ApiCovers(s, st);
    } else if st.Handoff? || st.Receive? {
      DeliverCovers(s, st);
    } else if st.Claim? {
      StayCovers(s, DoClaim(s, st.w, st.limit, st.rows), st.w);
    } else if st.VisitRow? || st.Return? || st.Lose? || st.Cancel? {
      ScanCovers(s, st);
    } else if st.Mark? || st.WriteFailed? || st.Commit? || st.Abandon? {
      WorkCovers(s, st);
    } else {
      KeptListCovers(s, st);
    }
  }

  lemma WorkCovers(s: Sys, st: Step)
    requires Owned(s) && Covered(s) && Enabled(s, st)
    requires st.Mark? || st.WriteFailed? || st.Commit? || st.Abandon?
    ensures Covered(Next(s, st))
  {
    match st
    case Mark(w, ok) => MarkCovers(s, w, ok);
    case WriteFailed(w, at, ok) => WriteFailedCovers(s, w, at, ok);
    case Commit(w) => CommitCovers(s, w);
    case Abandon(w, _) => GiveUpCovers(s, w);
  }

  lemma MarkCovers(s: Sys, w: nat, ok: bool)
    requires Owned(s) && Covered(s) && CanMark(s, w, ok)
    ensures Covered(DoMark(s, w, ok))
  {
    assert ActorOk(s, At(s, w)) && Cur(At(s, w)) in At(s, w).work;
    StayCovers(s, DoMark(s, w, ok), w);
  }

  lemma WriteFailedCovers(s: Sys, w: nat, at: Micros, ok: bool)
    requires Owned(s) && Covered(s) && CanWriteFailed(s, w, ok)
    ensures Covered(DoWriteFailed(s, w, at, ok))
  {
    assert ActorOk(s, At(s, w));
    AdvanceCovers(s, DoWriteFailed(s, w, at, ok), w);
  }

  lemma CommitCovers(s: Sys, w: nat)
    requires Owned(s) && Covered(s) && CanCommit(s, w)
    ensures Covered(DoCommit(s, w))
  {
    assert ActorOk(s, At(s, w)) && Cur(At(s, w)) in At(s, w).work;
    AdvanceCovers(s, DoCommit(s, w), w);
  }

  lemma GiveUpCovers(s: Sys, w: nat)
    requires Owned(s) && Covered(s) && CanGiveUp(s, w)
    ensures Covered(DoGiveUp(s, w))
  {
    assert ActorOk(s, At(s, w));
    AdvanceCovers(s, DoGiveUp(s, w), w);
  }

  // ----- every run -----

  lemma NextInv(s: Sys, st: Step)
    requires Inv(s) && Enabled(s, st)
    ensures Inv(Next(s, st))
  {
    NextKeeps(s, st);
    NextSerial(s, st);
    NextTables(s, st);
    NextLog(s, st);
    NextCovered(s, st);
    NextGrows(s, st);
  }

  lemma {:induction false} InvAt(mode: Mode, cap: nat, tr: Trace, i: nat)
    requires IsTrace(mode, cap, tr) && i < |tr.states|
    ensures Inv(tr.states[i]) && tr.states[i].mode == mode && tr.states[i].cap == cap
  {
    if i == 0 {
      InitInv(mode, cap);
    } else {
      InvAt(mode, cap, tr, i - 1);
      assert Took(tr, i - 1);
      NextInv(tr.states[i - 1], tr.steps[i - 1]);
      NextGrows(tr.states[i - 1], tr.steps[i - 1]);
    }
  }

  lemma InitInv(mode: Mode, cap: nat)
    ensures Inv(Init(mode, cap))
  {
  }

  // ----- the rows there are -----

  lemma OnlyCreateAdds(s: Sys, st: Step)
    requires Owned(s) && Enabled(s, st)
    ensures Next(s, st).db.jobs.Keys == if st.Create? then s.db.jobs.Keys + {st.id} else s.db.jobs.Keys
  {
    if st.Commit? {
      CommitAddsNone(s, st.w);
    } else if !st.Create? && !Commits(st) {
      QuietStep(s, st);
    }
  }

  lemma CommitAddsNone(s: Sys, w: nat)
    requires Owned(s) && CanCommit(s, w)
    ensures DoCommit(s, w).db.jobs.Keys == s.db.jobs.Keys
  {
    assert ActorOk(s, At(s, w)) && Cur(At(s, w)) in At(s, w).work;
  }

  // ----- the snapshot of a claim -----

  /** A sorted list of the queued jobs always exists. */
  lemma SnapshotExists(jobs: map<JobId, Job>)
    ensures exists rows :: IsSnapshot(jobs, rows)
  {
    var queued := set id | id in jobs && jobs[id].status == Queued;
    var rows := SortedList(jobs, queued);
    assert IsSnapshot(jobs, rows);
  }

  predicate ByRequest(jobs: map<JobId, Job>, rows: seq<JobId>)
    requires forall id :: id in rows ==> id in jobs
  {
    forall i, j :: 0 <= i < j < |rows| ==> jobs[rows[i]].requestedAt <= jobs[rows[j]].requestedAt
  }

  lemma {:induction false} SortedList(jobs: map<JobId, Job>, ids: set<JobId>) returns (rows: seq<JobId>)
    requires forall id :: id in ids ==> id in jobs
    ensures Distinct(rows) && (forall id :: id in rows <==> id in ids) && ByRequest(jobs, rows)
    decreases |ids|
  {
    if ids == {} {
      rows := [];
    } else {
      var last := Youngest(jobs, ids);
      var rest := SortedList(jobs, ids - {last});
      rows := rest + [last];
      DistinctAppend(rest, [last]);
    }
  }

  lemma {:induction false} Youngest(jobs: map<JobId, Job>, ids: set<JobId>) returns (last: JobId)
    requires ids != {} && forall id :: id in ids ==> id in jobs
    ensures last in ids && forall id :: id in ids ==> jobs[id].requestedAt <= jobs[last].requestedAt
    decreases |ids|
  {
    last :| last in ids;
    if ids != {last} {
      var other := Youngest(jobs, ids - {last});
      if jobs[last].requestedAt < jobs[other].requestedAt {
        last := other;
      }
    }
  }
}
