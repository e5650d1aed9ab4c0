/**
 The job system as a state machine.  Any number of actors (polling workers, channel workers,
 dispatch goroutines) take turns; one step is one statement reaching the server, one row visited by
 a claim, one fetch returning, or one message moving.  Writes inside a transaction stay in the
 actor's program counter until it commits, and the row locks a transaction holds are read off that
 program counter, so no rule says outright that two actors cannot work on one job.
 */
module Machine {
  import opened Prelude
  import opened Tables

  datatype Mode = DbPoll | Chan | Grpc

  function Source(mode: Mode): string {
    match mode
    case DbPoll => "db"
    case Chan => "chan"
    case Grpc => "grpc"
  }

  /** The status a job has while an actor works on it: only the claim marks it before it is handed out. */
  function Held(mode: Mode): Status {
    if mode.DbPoll? then Processing else Queued
  }

  datatype Pc =
    | Idle
      // the claim statement: rows still to visit, rows locked so far, rows that passed the recheck
    | Scanning(limit: nat, todo: seq<JobId>, locked: set<JobId>, picked: seq<JobId>)
    | Marking               // about to write 'processing' for the first job of the list
    | Fetching
      // the fetch failed; about to write 'failed', on a context that has expired if `late`
    | Failing(msg: string, late: bool)
    | Opening(quote: Quote) // fetched; about to begin the transaction
      // inside the transaction; `at` is its NOW()
    | Appending(quote: Quote, at: Micros)                              // next: history insert
    | Referencing(quote: Quote, at: Micros)                            // row inserted; next: foreign key check
    | Upserting(quote: Quote, at: Micros, wrote: bool)                 // next: quotes upsert
    | Finishing(quote: Quote, at: Micros, wrote: bool)                 // next: status update
    | Committing(quote: Quote, at: Micros, wrote: bool, row: Job)      // next: commit

  /** `work` is the list the actor received; its head is the job being processed. */
  datatype Actor = Actor(pc: Pc, work: seq<JobId>)

  const IDLE_ACTOR := Actor(Idle, [])

  /** What one commit did to the tables. */
  datatype Event =
    | Created(id: JobId, pair: Pair, at: Micros)
    | Claimed(ids: set<JobId>)
    | Marked(id: JobId)
    | GaveUp(id: JobId, msg: string, at: Micros)
    | Completed(id: JobId, quote: Quote, at: Micros)

  datatype Sys = Sys(
    mode: Mode,
    cap: nat,                             // capacity of the channel
    db: Db,                               // committed state
    actors: map<nat, Actor>,
    inbox: set<JobId>,                    // created, its request not dispatched yet
    buf: seq<JobId>,                      // the channel, oldest first
    // bookkeeping that no step reads
    lost: set<JobId>,                     // jobs given up after a recorded error, never to be finished
    delivered: seq<JobId>,                // jobs in the order they reached an actor
    fetched: map<JobId, Option<Quote>>,   // what each fetch returned
    log: seq<Event>)                      // commits in order

  function Init(mode: Mode, cap: nat): Sys {
    Sys(mode, cap, EMPTY_DB, map[], {}, [], {}, [], map[], [])
  }

  function At(s: Sys, w: nat): Actor {
    if w in s.actors then s.actors[w] else IDLE_ACTOR
  }

  function Put(s: Sys, w: nat, a: Actor): Sys {
    s.(actors := s.actors[w := a])
  }

  function Cur(a: Actor): JobId {
    if a.work == [] then "" else a.work[0]
  }

  /** The list goes on with the next job. */
  function Advance(a: Actor): Actor {
    if |a.work| <= 1 then IDLE_ACTOR else Actor(Marking, a.work[1..])
  }

  // ----- locks, read off the program counter -----

  predicate InTx(pc: Pc) {
    pc.Appending? || pc.Referencing? || pc.Upserting? || pc.Finishing? || pc.Committing?
  }

  /** FOR UPDATE by a claim, FOR NO KEY UPDATE by the status write of a transaction. */
  function JobLocks(a: Actor): set<JobId> {
    match a.pc
    case Scanning(_, _, locked, _) => locked
    case Committing(_, _, _, _) => {Cur(a)}
    case _ => {}
  }

  /** FOR KEY SHARE by the foreign key check; it conflicts with FOR UPDATE only. */
  function JobShares(a: Actor): set<JobId> {
    match a.pc
    case Upserting(_, _, wrote) => if wrote then {Cur(a)} else {}
    case Finishing(_, _, wrote) => if wrote then {Cur(a)} else {}
    case Committing(_, _, wrote, _) => if wrote then {Cur(a)} else {}
    case _ => {}
  }

  /** The unique key of a history row inserted and not committed. */
  function HistoryLocks(mode: Mode, a: Actor): set<HistoryKey> {
    match a.pc
    case Referencing(q, _) => {KeyOf(q, Source(mode))}
    case Upserting(q, _, wrote) => if wrote then {KeyOf(q, Source(mode))} else {}
    case Finishing(q, _, wrote) => if wrote then {KeyOf(q, Source(mode))} else {}
    case Committing(q, _, wrote, _) => if wrote then {KeyOf(q, Source(mode))} else {}
    case _ => {}
  }

  function QuoteLocks(a: Actor): set<Pair> {
    match a.pc
    case Finishing(q, _, _) => {q.pair}
    case Committing(q, _, _, _) => {q.pair}
    case _ => {}
  }

  /** No other actor has the job row exclusively: a status write may take it. */
  predicate JobFree(s: Sys, w: nat, id: JobId) {
    forall v :: v in s.actors && v != w ==> id !in JobLocks(s.actors[v])
  }

  /** No other actor has the job row in any mode: a claim may take it. */
  predicate ClaimFree(s: Sys, w: nat, id: JobId) {
    forall v :: v in s.actors && v != w ==> id !in JobLocks(s.actors[v]) && id !in JobShares(s.actors[v])
  }

  /** No claim of another actor has the job row: the foreign key check may share it. */
  predicate ShareFree(s: Sys, w: nat, id: JobId) {
    forall v :: v in s.actors && v != w && s.actors[v].pc.Scanning? ==> id !in JobLocks(s.actors[v])
  }

  predicate HistoryFree(s: Sys, w: nat, k: HistoryKey) {
    forall v :: v in s.actors && v != w ==> k !in HistoryLocks(s.mode, s.actors[v])
  }

  predicate QuoteFree(s: Sys, w: nat, p: Pair) {
    forall v :: v in s.actors && v != w ==> p !in QuoteLocks(s.actors[v])
  }

  // ----- the API side -----

  predicate CanCreate(s: Sys, id: JobId) { id !in s.db.jobs }

  function DoCreate(s: Sys, id: JobId, pair: Pair, at: Micros): Sys
    requires CanCreate(s, id)
  {
    s.(db := InsertJob(s.db, id, pair, at).value,
       inbox := if s.mode.DbPoll? then s.inbox else s.inbox + {id},
       log := s.log + [Created(id, pair, at)])
  }

  /** The channel accepts the message. */
  predicate CanEnqueue(s: Sys, id: JobId) { s.mode.Chan? && id in s.inbox && |s.buf| < s.cap }

  function DoEnqueue(s: Sys, id: JobId): Sys {
    s.(inbox := s.inbox - {id}, buf := s.buf + [id])
  }

  /** The request ends without a dispatch: queue full, cancelled, or told that its insert failed. */
  predicate CanReject(s: Sys, id: JobId) { id in s.inbox }

  function DoReject(s: Sys, id: JobId): Sys {
    s.(inbox := s.inbox - {id}, lost := s.lost + {id})
  }

  /** A receiver was already waiting on the empty channel, or a dispatch goroutine starts. */
  predicate CanHandoff(s: Sys, w: nat, id: JobId) {
    !s.mode.DbPoll? && id in s.inbox && At(s, w) == IDLE_ACTOR && (s.mode.Chan? ==> s.buf == [])
  }

  function DoHandoff(s: Sys, w: nat, id: JobId): Sys {
    Put(s, w, Actor(Fetching, [id])).(inbox := s.inbox - {id}, delivered := s.delivered + [id])
  }

  predicate CanReceive(s: Sys, w: nat) { s.mode.Chan? && s.buf != [] && At(s, w) == IDLE_ACTOR }

  function DoReceive(s: Sys, w: nat): Sys
    requires CanReceive(s, w)
  {
    Put(s, w, Actor(Fetching, [s.buf[0]])).(buf := s.buf[1..], delivered := s.delivered + [s.buf[0]])
  }

  // ----- the claim statement -----

  /** What the claim's snapshot offers: every queued job, oldest request first, ties in any order. */
  predicate IsSnapshot(jobs: map<JobId, Job>, rows: seq<JobId>) {
    && Distinct(rows)
    && (forall id :: id in rows ==> id in jobs && jobs[id].status == Queued)
    && (forall id :: id in jobs && jobs[id].status == Queued ==> id in rows)
    && forall i, j :: 0 <= i < j < |rows| ==> jobs[rows[i]].requestedAt <= jobs[rows[j]].requestedAt
  }

  predicate CanClaim(s: Sys, w: nat, rows: seq<JobId>) {
    s.mode.DbPoll? && At(s, w) == IDLE_ACTOR && IsSnapshot(s.db.jobs, rows)
  }

  function DoClaim(s: Sys, w: nat, limit: nat, rows: seq<JobId>): Sys {
    Put(s, w, Actor(Scanning(limit, rows, {}, []), []))
  }

  predicate ScanDone(pc: Pc) {
    pc.Scanning? && (pc.todo == [] || |pc.picked| == pc.limit)
  }

  predicate CanVisit(s: Sys, w: nat) { At(s, w).pc.Scanning? && !ScanDone(At(s, w).pc) }

  /** The visit of one row: skip it if locked, else lock it and recheck the current status. */
  function Visit(s: Sys, w: nat): Pc
    requires CanVisit(s, w)
  {
    var pc := At(s, w).pc;
    var id := pc.todo[0];
    if !ClaimFree(s, w, id) then pc.(todo := pc.todo[1..])
    else pc.(
      todo := pc.todo[1..],
      locked := pc.locked + {id},
      picked := if id in s.db.jobs && s.db.jobs[id].status == Queued then pc.picked + [id] else pc.picked)
  }

  function DoVisit(s: Sys, w: nat): Sys
    requires CanVisit(s, w)
  {
    Put(s, w, Actor(Visit(s, w), []))
  }

  /** The rows come back in whatever order the join produced them. */
  predicate CanReturn(s: Sys, w: nat, out: seq<JobId>) {
    ScanDone(At(s, w).pc) && multiset(out) == multiset(At(s, w).pc.picked)
  }

  function DoReturn(s: Sys, w: nat, out: seq<JobId>): Sys {
    Put(s, w, if out == [] then IDLE_ACTOR else Actor(Marking, out)).(
      db := s.db.(jobs := MarkClaimed(s.db.jobs, Elements(out))),
      delivered := s.delivered + out,
      log := s.log + [Claimed(Elements(out))])
  }

  /** The statement committed, but reading the returned rows failed. */
  predicate CanLose(s: Sys, w: nat) { ScanDone(At(s, w).pc) }

  function DoLose(s: Sys, w: nat): Sys
    requires CanLose(s, w)
  {
    var ids := Elements(At(s, w).pc.picked);
    Put(s, w, IDLE_ACTOR).(
      db := s.db.(jobs := MarkClaimed(s.db.jobs, ids)),
      lost := s.lost + ids,
      log := s.log + [Claimed(ids)])
  }

  predicate CanCancel(s: Sys, w: nat) { At(s, w).pc.Scanning? }

  function DoCancel(s: Sys, w: nat): Sys { Put(s, w, IDLE_ACTOR) }

  // ----- status writes outside a transaction, and the fetch -----

  function SetStatus(db: Db, id: JobId, status: Status, error: Option<string>, now: Micros): Db {
    match UpdateStatus(db, id, status, error, now)
    case Ok(db') => db'
    case Err(_) => db
  }

  /** A status write of actor w can reach its row. */
  predicate RowReady(s: Sys, w: nat) {
    Cur(At(s, w)) in s.db.jobs && JobFree(s, w, Cur(At(s, w)))
  }

  predicate CanMark(s: Sys, w: nat, ok: bool) { At(s, w).pc.Marking? && (ok ==> RowReady(s, w)) }

  function DoMark(s: Sys, w: nat, ok: bool): Sys {
    var a := At(s, w);
    var s' := Put(s, w, a.(pc := Fetching));
    if ok then s'.(db := SetStatus(s.db, Cur(a), Processing, None, 0), log := s.log + [Marked(Cur(a))]) else s'
  }

  /** Every fetch answers for the pair of its job. */
  predicate CanFetch(s: Sys, w: nat, q: Quote) {
    At(s, w).pc.Fetching? && Cur(At(s, w)) in s.db.jobs && q.pair == s.db.jobs[Cur(At(s, w))].pair
  }

  function DoFetch(s: Sys, w: nat, q: Quote): Sys {
    Put(s, w, At(s, w).(pc := Opening(q))).(fetched := s.fetched[Cur(At(s, w)) := Some(q)])
  }

  /** Only the channel worker puts a deadline on the fetch and on the write after it. */
  predicate CanFail(s: Sys, w: nat, late: bool) { At(s, w).pc.Fetching? && (late ==> s.mode.Chan?) }

  /** The fetch returned an error, or panicked and was recovered. */
  function DoFail(s: Sys, w: nat, msg: string, late: bool): Sys {
    Put(s, w, At(s, w).(pc := Failing(msg, late))).(fetched := s.fetched[Cur(At(s, w)) := None])
  }

  /** On an expired context the write cannot succeed. */
  predicate CanWriteFailed(s: Sys, w: nat, ok: bool) {
    At(s, w).pc.Failing? && (ok ==> !At(s, w).pc.late && RowReady(s, w))
  }

  function DoWriteFailed(s: Sys, w: nat, at: Micros, ok: bool): Sys
    requires CanWriteFailed(s, w, ok)
  {
    var a := At(s, w);
    var s' := Put(s, w, Advance(a));
    if ok then s'.(db := SetStatus(s.db, Cur(a), Failed, Some(a.pc.msg), at),
      log := s.log + [GaveUp(Cur(a), a.pc.msg, at)])
    else s'.(lost := s.lost + {Cur(a)})
  }

  // ----- the transaction -----

  predicate CanBegin(s: Sys, w: nat) { At(s, w).pc.Opening? }

  function DoBegin(s: Sys, w: nat, at: Micros): Sys
    requires CanBegin(s, w)
  {
    Put(s, w, At(s, w).(pc := Appending(At(s, w).pc.quote, at)))
  }

  predicate CanAppend(s: Sys, w: nat) {
    && At(s, w).pc.Appending?
    && Fits(At(s, w).pc.quote.price)
    && HistoryFree(s, w, KeyOf(At(s, w).pc.quote, Source(s.mode)))
  }

  /** The insert sees committed keys only: a key being inserted elsewhere makes it wait. */
  function DoAppend(s: Sys, w: nat): Sys
    requires CanAppend(s, w)
  {
    var a := At(s, w);
    Put(s, w, a.(pc :=
      if KeyOf(a.pc.quote, Source(s.mode)) in s.db.history then Upserting(a.pc.quote, a.pc.at, false)
      else Referencing(a.pc.quote, a.pc.at)))
  }

  predicate CanRefer(s: Sys, w: nat) {
    At(s, w).pc.Referencing? && Cur(At(s, w)) in s.db.jobs && ShareFree(s, w, Cur(At(s, w)))
  }

  function DoRefer(s: Sys, w: nat): Sys
    requires CanRefer(s, w)
  {
    Put(s, w, At(s, w).(pc := Upserting(At(s, w).pc.quote, At(s, w).pc.at, true)))
  }

  predicate CanUpsert(s: Sys, w: nat) {
    At(s, w).pc.Upserting? && Fits(At(s, w).pc.quote.price) && QuoteFree(s, w, At(s, w).pc.quote.pair)
  }

  function DoUpsert(s: Sys, w: nat): Sys
    requires CanUpsert(s, w)
  {
    Put(s, w, At(s, w).(pc := Finishing(At(s, w).pc.quote, At(s, w).pc.at, At(s, w).pc.wrote)))
  }

  predicate CanFinish(s: Sys, w: nat) { At(s, w).pc.Finishing? && RowReady(s, w) }

  function DoFinish(s: Sys, w: nat): Sys
    requires CanFinish(s, w)
  {
    var a := At(s, w);
    Put(s, w, a.(pc := Committing(a.pc.quote, a.pc.at, a.pc.wrote, WithStatus(s.db.jobs[Cur(a)], Done, None, a.pc.at))))
  }

  predicate CanCommit(s: Sys, w: nat) { At(s, w).pc.Committing? }

  /** The buffered writes of a transaction reach the tables. */
  function Flush(mode: Mode, db: Db, a: Actor): Db
    requires a.pc.Committing?
  {
    Db(
      db.quotes[a.pc.quote.pair := QuoteRowOf(a.pc.quote)],
      if a.pc.wrote then db.history[KeyOf(a.pc.quote, Source(mode)) := HistoryRowOf(a.pc.quote, Cur(a))]
      else db.history,
      db.jobs[Cur(a) := a.pc.row])
  }

  function DoCommit(s: Sys, w: nat): Sys
    requires CanCommit(s, w)
  {
    var a := At(s, w);
    Put(s, w, Advance(a)).(
      db := Flush(s.mode, s.db, a),
      log := s.log + [Completed(Cur(a), a.pc.quote, a.pc.at)])
  }

  /** The transaction never began, or a statement or the commit failed and it was rolled back. */
  predicate CanGiveUp(s: Sys, w: nat) { At(s, w).pc.Opening? || InTx(At(s, w).pc) }

  /** The job stays as it was and the list goes on. */
  function DoGiveUp(s: Sys, w: nat): Sys {
    Put(s, w, Advance(At(s, w))).(lost := s.lost + {Cur(At(s, w))})
  }

  // ----- steps -----

  datatype Step =
    | Create(id: JobId, pair: Pair, at: Micros)
    | Enqueue(id: JobId)
    | Reject(id: JobId)
    | Handoff(w: nat, id: JobId)
    | Receive(w: nat)
    | Claim(w: nat, limit: nat, rows: seq<JobId>)
    | VisitRow(w: nat)
    | Return(w: nat, out: seq<JobId>)
    | Lose(w: nat)
    | Cancel(w: nat)
    | Mark(w: nat, ok: bool)
    | Fetch(w: nat, quote: Quote)
    | Fail(w: nat, msg: string, late: bool)
    | WriteFailed(w: nat, at: Micros, ok: bool)
    | Begin(w: nat, at: Micros)
    | Append(w: nat)
    | Refer(w: nat)
    | Upsert(w: nat)
    | Finish(w: nat)
    | Commit(w: nat)
    | Abandon(w: nat, msg: string)

  predicate Enabled(s: Sys, st: Step) {
    match st
    case Create(id, _, _) => CanCreate(s, id)
    case Enqueue(id) => CanEnqueue(s, id)
    case Reject(id) => CanReject(s, id)
    case Handoff(w, id) => CanHandoff(s, w, id)
    case Receive(w) => CanReceive(s, w)
    case Claim(w, _, rows) => CanClaim(s, w, rows)
    case VisitRow(w) => CanVisit(s, w)
    case Return(w, out) => CanReturn(s, w, out)
    case Lose(w) => CanLose(s, w)
    case Cancel(w) => CanCancel(s, w)
    case Mark(w, ok) => CanMark(s, w, ok)
    case Fetch(w, q) => CanFetch(s, w, q)
    case Fail(w, _, late) => CanFail(s, w, late)
    case WriteFailed(w, _, ok) => CanWriteFailed(s, w, ok)
    case Begin(w, _) => CanBegin(s, w)
    case Append(w) => CanAppend(s, w)
    case Refer(w) => CanRefer(s, w)
    case Upsert(w) => CanUpsert(s, w)
    case Finish(w) => CanFinish(s, w)
    case Commit(w) => CanCommit(s, w)
    case Abandon(w, _) => CanGiveUp(s, w)
  }

  function Next(s: Sys, st: Step): Sys
    requires Enabled(s, st)
  {
    match st
    case Create(id, pair, at) => DoCreate(s, id, pair, at)
    case Enqueue(id) => DoEnqueue(s, id)
    case Reject(id) => DoReject(s, id)
    case Handoff(w, id) => DoHandoff(s, w, id)
    case Receive(w) => DoReceive(s, w)
    case Claim(w, limit, rows) => DoClaim(s, w, limit, rows)
    case VisitRow(w) => DoVisit(s, w)
    case Return(w, out) => DoReturn(s, w, out)
    case Lose(w) => DoLose(s, w)
    case Cancel(w) => DoCancel(s, w)
    case Mark(w, ok) => DoMark(s, w, ok)
    case Fetch(w, q) => DoFetch(s, w, q)
    case Fail(w, msg, late) => DoFail(s, w, msg, late)
    case WriteFailed(w, at, ok) => DoWriteFailed(s, w, at, ok)
    case Begin(w, at) => DoBegin(s, w, at)
    case Append(w) => DoAppend(s, w)
    case Refer(w) => DoRefer(s, w)
    case Upsert(w) => DoUpsert(s, w)
    case Finish(w) => DoFinish(s, w)
    case Commit(w) => DoCommit(s, w)
    case Abandon(w, _) => DoGiveUp(s, w)
  }

  // ----- runs -----

  /** A run with the states it passes through: steps[i] leads from states[i] to states[i + 1]. */
  datatype Trace = Trace(states: seq<Sys>, steps: seq<Step>)

  predicate Took(tr: Trace, i: nat)
    requires |tr.states| == |tr.steps| + 1 && i < |tr.steps|
  {
    Enabled(tr.states[i], tr.steps[i]) && tr.states[i + 1] == Next(tr.states[i], tr.steps[i])
  }

  /** A run from the empty system. */
  predicate IsTrace(mode: Mode, cap: nat, tr: Trace) {
    && |tr.states| == |tr.steps| + 1
    && tr.states[0] == Init(mode, cap)
    && forall i :: 0 <= i < |tr.steps| ==> Took(tr, i)
  }

  function Last(tr: Trace): Sys
    requires tr.states != []
  {
    tr.states[|tr.states| - 1]
  }
}
