/**
 The transaction that travels in the context.  The repositories ask the context for a transaction on
 every statement and fall back to the pool; Do puts one there.  Statements, begin and commit may fail
 at any point, other sessions commit in between, and still the committed tables change by all three
 writes in one step or by none.
 */
module UnitOfWork {
  import opened Prelude
  import opened Tables
  import Machine
  import Ownership
  import Serial

  /** The value stored under txKey, if any. */
  datatype Ctx = Ctx(tx: Option<nat>)

  datatype Stmt =
    | InsertHistory(quote: Quote, source: string, id: JobId)
    | UpsertQuotes(quote: Quote)
    | SetStatus(id: JobId, status: Status, error: Option<string>)

  /** Rows written and not committed; each is locked by the transaction that wrote it. */
  datatype Rows = Rows(quotes: map<Pair, QuoteRow>, history: map<HistoryKey, HistoryRow>, jobs: map<JobId, Job>)

  const NO_ROWS := Rows(map[], map[], map[])

  /** After a failed statement a transaction refuses every other one. */
  datatype Tx = Open(rows: Rows, now: Micros) | Broken

  function Merge(a: Rows, b: Rows): Rows {
    Rows(a.quotes + b.quotes, a.history + b.history, a.jobs + b.jobs)
  }

  /** What a transaction sees: the committed tables under its own rows. */
  function View(db: Db, rows: Rows): Db {
    Db(db.quotes + rows.quotes, db.history + rows.history, db.jobs + rows.jobs)
  }

  /** The tables after the statement, or the server's error.  An UPDATE that finds no row is no error. */
  function Run(db: Db, stmt: Stmt, now: Micros): Result<Db> {
    match stmt
    case InsertHistory(q, source, id) => AppendHistory(db, q, source, id)
    case UpsertQuotes(q) => UpsertQuote(db, q)
    case SetStatus(id, status, error) => if id in db.jobs then UpdateStatus(db, id, status, error, now) else Ok(db)
  }

  /** The rows the statement writes. */
  function Written(db: Db, stmt: Stmt, now: Micros): Rows {
    match stmt
    case InsertHistory(q, source, id) =>
      if KeyOf(q, source) in db.history then NO_ROWS
      else NO_ROWS.(history := map[KeyOf(q, source) := HistoryRowOf(q, id)])
    case UpsertQuotes(q) => NO_ROWS.(quotes := map[q.pair := QuoteRowOf(q)])
    case SetStatus(id, status, error) =>
      if id in db.jobs then NO_ROWS.(jobs := map[id := WithStatus(db.jobs[id], status, error, now)]) else NO_ROWS
  }

  /** Writing a statement's rows over the tables is what the statement does to them. */
  lemma WrittenIsRun(db: Db, stmt: Stmt, now: Micros)
    requires Run(db, stmt, now).Ok?
    ensures View(db, Written(db, stmt, now)) == Run(db, stmt, now).value
  {
  }

  function Affected(rows: Rows): nat { |rows.quotes| + |rows.history| + |rows.jobs| }

  predicate Meets(a: Rows, b: Rows) {
    || (exists p :: p in a.quotes && p in b.quotes)
    || (exists k :: k in a.history && k in b.history)
    || (exists id :: id in a.jobs && id in b.jobs)
  }

  predicate Disjoint(a: Tx, b: Tx) {
    a.Open? && b.Open? ==> !Meets(a.rows, b.rows)
  }

  // ----- the other sessions -----

  /** Other sessions went from db to db': history and jobs stay, and locked rows are left alone. */
  predicate Quiet(db: Db, db': Db, locked: Rows) {
    && (forall k :: k in db.history ==> k in db'.history && db'.history[k] == db.history[k])
    && (forall id :: id in db.jobs ==> id in db'.jobs)
    && (forall k :: k in locked.history && k !in db.history ==> k !in db'.history)
    && (forall p :: p in locked.quotes ==> (p in db.quotes <==> p in db'.quotes))
    && (forall p :: p in locked.quotes && p in db.quotes ==> db'.quotes[p] == db.quotes[p])
    && (forall id :: id in locked.jobs && id in db.jobs ==> db'.jobs[id] == db.jobs[id])
  }

  datatype Who = Other | Auto | Mine(tx: nat)

  /** One commit: whose it was, and the tables after it. */
  datatype Entry = Entry(who: Who, db: Db)

  /** Everything committed since is by other sessions. */
  ghost predicate Foreign(commits: seq<Entry>, commits': seq<Entry>) {
    commits <= commits' && forall i :: |commits| <= i < |commits'| ==> commits'[i].who.Other?
  }

  /** So is everything but the last commit, which is by `who` and applies `write` to the tables before it. */
  ghost predicate OneCommit(commits: seq<Entry>, commits': seq<Entry>, who: Who, write: Db -> Result<Db>) {
    && |commits| < |commits'| && |commits'| >= 2
    && Foreign(commits, commits'[..|commits'| - 1])
    && commits'[|commits'| - 1].who == who
    && write(commits'[|commits'| - 2].db) == Ok(commits'[|commits'| - 1].db)
  }

  function Runs(stmt: Stmt, now: Micros): Db -> Result<Db> {
    db => Run(db, stmt, now)
  }

  function Completes(id: JobId, q: Quote, source: string, now: Micros): Db -> Result<Db> {
    db => Complete(db, id, q, source, now)
  }

  /** Another open transaction holds one of the rows. */
  predicate Locked(txs: map<nat, Tx>, me: Option<nat>, rows: Rows) {
    exists t :: t in txs && Some(t) != me && txs[t].Open? && Meets(rows, txs[t].rows)
  }

  class Pool {
    var db: Db // committed
    var txs: map<nat, Tx>
    var nextId: nat
    ghost var commits: seq<Entry>
    ghost var faults: nat // times the server or the connection failed a caller

    ghost predicate Valid() reads this {
      && (forall t :: t in txs ==> t < nextId)
      && (forall t, u :: t in txs && u in txs && t != u ==> Disjoint(txs[t], txs[u]))
      && commits != [] && commits[|commits| - 1].db == db
    }

    constructor (db: Db)
      ensures Valid() && this.db == db && txs == map[]
    {
      this.db, txs, nextId, commits, faults := db, map[], 0, [Entry(Auto, db)], 0;
    }

    /** Whether the server or the connection fails the next call. */
    method Fault() returns (failed: bool)
      modifies this`faults
      ensures faults == old(faults) + if failed then 1 else 0
    {
      failed := *;
      if failed { faults := faults + 1; }
    }

    predicate Allowed(db': Db) reads this {
      forall t :: t in txs && txs[t].Open? ==> Quiet(db, db', txs[t].rows)
    }

    /** Any number of commits of other sessions. */
    method Others()
      requires Valid()
      modifies this`db, this`commits
      ensures Valid() && Foreign(old(commits), commits)
      ensures forall t :: t in txs && txs[t].Open? ==> Quiet(old(db), db, txs[t].rows)
    {
      var n: nat := *;
      while n > 0
        invariant Valid() && Foreign(old(commits), commits)
        invariant forall t :: t in txs && txs[t].Open? ==> Quiet(old(db), db, txs[t].rows)
      {
        var next: Db := *;
        if Allowed(next) {
          commits := commits + [Entry(Other, next)];
          db := next;
        }
        n := n - 1;
      }
    }

    method Begin() returns (r: Result<nat>)
      requires Valid()
      modifies this
      ensures Valid() && Foreign(old(commits), commits)
      ensures r.Err? ==> txs == old(txs)
      ensures faults >= old(faults) && (r.Err? ==> faults > old(faults))
      ensures r.Ok? ==> r.value !in old(txs) && r.value in txs && txs == old(txs)[r.value := txs[r.value]]
      ensures r.Ok? ==> txs[r.value].Open? && txs[r.value].rows == NO_ROWS
    {
      Others();
      var now := *;
      var failed := Fault();
      if failed { return Err("begin"); }
      txs, nextId := txs[nextId := Open(NO_ROWS, now)], nextId + 1;
      r := Ok(nextId - 1);
    }

    /**
     On a transaction: its rows grow and nothing is committed.  On the pool: the statement commits by
     itself.  A statement that waited in vain for a lock fails like any other.
     */
    method Exec(ctx: Ctx, stmt: Stmt) returns (r: Result<nat>)
      requires Valid() && (ctx.tx.Some? ==> ctx.tx.value in txs)
      modifies this
      ensures Valid() && txs.Keys == old(txs).Keys
      ensures ctx.tx.Some? ==> InTx(ctx.tx.value, stmt, old(db), old(txs), old(commits), r.Ok?)
      ensures ctx.tx.Some? && r.Ok? ==>
        r.value == Affected(Written(View(db, old(txs)[ctx.tx.value].rows), stmt, txs[ctx.tx.value].now))
      ensures ctx.tx.None? ==> txs == old(txs) && Alone(stmt, old(commits), r)
      ensures faults >= old(faults)
      ensures ctx.tx.Some? && r.Err? ==> faults > old(faults) || InTxRefuses(old(txs), ctx.tx.value, stmt)
      ensures ctx.tx.None? && r.Err? ==> faults > old(faults) || AloneRefuses(stmt)
    {
      Others();
      if ctx.tx.Some? {
        r := ExecInTx(ctx.tx.value, stmt);
      } else {
        ghost var between := commits;
        r := ExecAlone(stmt);
        AfterOthers(stmt, old(commits), between, r);
      }
    }

    lemma AfterOthers(stmt: Stmt, first: seq<Entry>, between: seq<Entry>, r: Result<nat>)
      requires Foreign(first, between) && Alone(stmt, between, r)
      ensures Alone(stmt, first, r)
    {
      if r.Ok? {
        var now :| AloneAt(stmt, now, between, r.value);
        assert Foreign(first, commits[..|commits| - 1]);
        assert AloneAt(stmt, now, first, r.value);
      }
    }

    /** The transaction was broken, the statement is in error on what it sees, or it waits for a row in vain. */
    predicate InTxRefuses(txs': map<nat, Tx>, t: nat, stmt: Stmt)
      reads this
      requires t in txs'
    {
      txs'[t].Open? ==>
        || Run(View(db, txs'[t].rows), stmt, txs'[t].now).Err?
        || Locked(txs', Some(t), Written(View(db, txs'[t].rows), stmt, txs'[t].now))
    }

    ghost predicate AloneRefuses(stmt: Stmt)
      reads this
    {
      exists now :: Run(db, stmt, now).Err? || Locked(txs, None, Written(db, stmt, now))
    }

    /** What a statement on the pool does: one commit of its own, with the rows it affected, or none. */
    ghost predicate Alone(stmt: Stmt, commits': seq<Entry>, r: Result<nat>)
      reads this
    {
      match r
      case Err(_) => Foreign(commits', commits)
      case Ok(n) => exists now :: AloneAt(stmt, now, commits', n)
    }

    ghost predicate AloneAt(stmt: Stmt, now: Micros, commits': seq<Entry>, n: nat)
      reads this
    {
      && OneCommit(commits', commits, Auto, Runs(stmt, now))
      && n == Affected(Written(commits[|commits| - 2].db, stmt, now))
    }

    /** What a statement does in transaction t, and what it leaves as it was. */
    ghost predicate InTx(t: nat, stmt: Stmt, before: Db, txs': map<nat, Tx>, commits': seq<Entry>, ok: bool)
      reads this
      requires t in txs'
    {
      && Foreign(commits', commits)
      && OnlyTx(txs', txs, t)
      && (txs'[t].Open? ==> Quiet(before, db, txs'[t].rows))
      && (ok ==> Grown(db, txs'[t], txs[t], stmt))
    }

    method ExecInTx(t: nat, stmt: Stmt) returns (r: Result<nat>)
      requires Valid() && t in txs
      modifies this`txs, this`faults
      ensures Valid() && txs.Keys == old(txs).Keys && OnlyTx(old(txs), txs, t)
      ensures r.Ok? ==> Grown(db, old(txs)[t], txs[t], stmt)
      ensures r.Ok? ==> r.value == Affected(Written(View(db, old(txs)[t].rows), stmt, txs[t].now))
      ensures faults >= old(faults) && (r.Err? ==> faults > old(faults) || InTxRefuses(old(txs), t, stmt))
    {
      if InTxRefuses(txs, t, stmt) {
        Break(t);
        return Err("statement");
      }
      var failed := Fault();
      if failed {
        Break(t);
        return Err("connection");
      }
      var n := HoldWritten(t, stmt);
      r := Ok(n);
    }

    method HoldWritten(t: nat, stmt: Stmt) returns (n: nat)
      requires Valid() && t in txs && !InTxRefuses(txs, t, stmt)
      modifies this`txs
      ensures Valid() && txs.Keys == old(txs).Keys && OnlyTx(old(txs), txs, t)
      ensures Grown(db, old(txs)[t], txs[t], stmt)
      ensures n == Affected(Written(View(db, old(txs)[t].rows), stmt, txs[t].now))
    {
      var rows := Written(View(db, txs[t].rows), stmt, txs[t].now);
      Hold(t, rows);
      n := Affected(rows);
    }

    method Break(t: nat)
      requires Valid() && t in txs
      modifies this`txs
      ensures Valid() && txs == old(txs)[t := Broken]
    {
      txs := txs[t := Broken];
    }

    /** The transaction has these rows too, and their locks. */
    method Hold(t: nat, rows: Rows)
      requires Valid() && t in txs && txs[t].Open? && !Locked(txs, Some(t), rows)
      modifies this`txs
      ensures Valid() && txs == old(txs)[t := Open(Merge(old(txs)[t].rows, rows), old(txs)[t].now)]
    {
      var tx := Open(Merge(txs[t].rows, rows), txs[t].now);
      forall u | u in txs && u != t ensures Disjoint(tx, txs[u]) && Disjoint(txs[u], tx) {
        assert Disjoint(txs[t], txs[u]);
        if txs[u].Open? {
          MergeDisjoint(txs[t].rows, rows, txs[u].rows);
        }
      }
      txs := txs[t := tx];
    }

    method ExecAlone(stmt: Stmt) returns (r: Result<nat>)
      requires Valid()
      modifies this`db, this`commits, this`faults
      ensures Valid() && Alone(stmt, old(commits), r)
      ensures r.Err? ==> db == old(db)
      ensures faults >= old(faults) && (r.Err? ==> faults > old(faults) || AloneRefuses(stmt))
    {
      var now := *;
      if Run(db, stmt, now).Err? || Locked(txs, None, Written(db, stmt, now)) {
        return Err("statement");
      }
      var failed := Fault();
      if failed {
        return Err("connection");
      }
      r := Ok(Affected(Written(db, stmt, now)));
      db := Run(db, stmt, now).value;
      commits := commits + [Entry(Auto, db)];
      assert AloneAt(stmt, now, old(commits), r.value);
    }

    method Rollback(t: nat)
      requires Valid() && t in txs
      modifies this
      ensures Valid() && Foreign(old(commits), commits) && txs == old(txs) - {t} && faults == old(faults)
    {
      Others();
      txs := txs - {t};
    }

    /** A failed commit is taken to have rolled back; a broken transaction cannot commit. */
    method Commit(t: nat) returns (err: Option<string>)
      requires Valid() && t in txs
      modifies this
      ensures Valid() && txs == old(txs) - {t}
      ensures err.Some? ==> Foreign(old(commits), commits)
      ensures faults >= old(faults) && (err.Some? ==> faults > old(faults) || old(txs)[t].Broken?)
      ensures err.None? ==> old(txs)[t].Open? && Published(old(commits), commits, old(db), t, old(txs)[t].rows)
    {
      Others();
      var failed := Fault();
      if failed || txs[t].Broken? {
        err := Some("commit");
      } else {
        db := View(db, txs[t].rows);
        commits := commits + [Entry(Mine(t), db)];
        err := None;
      }
      txs := txs - {t};
    }
  }

  /** The statement ran on the transaction's view, and its rows joined the others. */
  ghost predicate Grown(db: Db, before: Tx, after: Tx, stmt: Stmt) {
    && before.Open? && after.Open? && after.now == before.now
    && Run(View(db, before.rows), stmt, before.now).Ok?
    && after.rows == Merge(before.rows, Written(View(db, before.rows), stmt, before.now))
  }

  lemma MergeDisjoint(a: Rows, b: Rows, c: Rows)
    requires !Meets(a, c) && !Meets(b, c)
    ensures !Meets(Merge(a, b), c) && !Meets(c, Merge(a, b))
  {
  }

  /** The last commit puts the rows over tables that other sessions reached from `before`. */
  ghost predicate Published(commits: seq<Entry>, commits': seq<Entry>, before: Db, t: nat, rows: Rows) {
    && |commits| < |commits'| && |commits'| >= 2
    && Foreign(commits, commits'[..|commits'| - 1])
    && commits'[|commits'| - 1] == Entry(Mine(t), View(commits'[|commits'| - 2].db, rows))
    && Quiet(before, commits'[|commits'| - 2].db, rows)
  }

  /** Only transaction t moved. */
  ghost predicate OnlyTx(txs: map<nat, Tx>, txs': map<nat, Tx>, t: nat) {
    t in txs && t in txs' && txs' == txs[t := txs'[t]]
  }

  // ----- how far the three writes have come, while other sessions commit -----

  /** The history insert, over tables that may have changed since. */
  ghost predicate Appended(db: Db, rows: Rows, q: Quote, source: string, id: JobId) {
    && Fits(q.price)
    && if KeyOf(q, source) in db.history then rows.history == map[]
       else id in db.jobs && rows.history == map[KeyOf(q, source) := HistoryRowOf(q, id)]
  }

  ghost predicate Upserted(rows: Rows, q: Quote) {
    rows.quotes == map[q.pair := QuoteRowOf(q)]
  }

  ghost predicate Finished(db: Db, rows: Rows, id: JobId, now: Micros) {
    id in db.jobs && rows.jobs == map[id := WithStatus(db.jobs[id], Done, None, now)]
  }

  lemma StaysAppended(db: Db, db': Db, rows: Rows, q: Quote, source: string, id: JobId)
    requires Appended(db, rows, q, source, id) && Quiet(db, db', rows)
    ensures Appended(db', rows, q, source, id)
  {
  }

  lemma StaysFinished(db: Db, db': Db, rows: Rows, id: JobId, now: Micros)
    requires Finished(db, rows, id, now) && Quiet(db, db', rows)
    ensures Finished(db', rows, id, now)
  {
  }

  /** Rows that are still those of the three writes make one completion of them. */
  lemma RowsComplete(db: Db, rows: Rows, q: Quote, source: string, id: JobId, now: Micros)
    requires Appended(db, rows, q, source, id) && Upserted(rows, q) && Finished(db, rows, id, now)
    ensures Complete(db, id, q, source, now) == Ok(View(db, rows))
  {
    var key := KeyOf(q, source);
    if key in db.history {
      assert db.history + rows.history == db.history;
    } else {
      assert db.history + rows.history == db.history[key := HistoryRowOf(q, id)];
    }
    assert db.quotes + rows.quotes == db.quotes[q.pair := QuoteRowOf(q)];
    assert db.jobs + rows.jobs == db.jobs[id := WithStatus(db.jobs[id], Done, None, now)];
  }

  // ----- the repositories -----

  /** One repository write through `exec(ctx)`: inside the carried transaction, or committed on its own. */
  ghost predicate Wrote(pool: Pool, ctx: Ctx, before: Db, txs: map<nat, Tx>, commits: seq<Entry>, stmt: Stmt, ok: bool)
    reads pool
    requires ctx.tx.Some? ==> ctx.tx.value in txs
  {
    match ctx.tx
    case Some(t) => pool.InTx(t, stmt, before, txs, commits, ok)
    case None => pool.txs == txs && exists r: Result<nat> :: r.Ok? == ok && pool.Alone(stmt, commits, r)
  }

  /** The server has a reason of its own to reject the statement. */
  ghost predicate Refuses(pool: Pool, ctx: Ctx, txs: map<nat, Tx>, stmt: Stmt)
    reads pool
    requires ctx.tx.Some? ==> ctx.tx.value in txs
  {
    match ctx.tx
    case Some(t) => pool.InTxRefuses(txs, t, stmt)
    case None => pool.AloneRefuses(stmt)
  }

  class QuoteRepo {
    const pool: Pool

    constructor (pool: Pool)
      ensures this.pool == pool
    {
      this.pool := pool;
    }

    method AppendHistory(ctx: Ctx, q: Quote, source: string, id: JobId) returns (err: Option<string>)
      requires pool.Valid() && (ctx.tx.Some? ==> ctx.tx.value in pool.txs)
      modifies pool
      ensures pool.Valid() && pool.txs.Keys == old(pool.txs).Keys
      ensures Wrote(pool, ctx, old(pool.db), old(pool.txs), old(pool.commits), InsertHistory(q, source, id), err.None?)
      ensures pool.faults >= old(pool.faults)
      ensures err.Some? ==>
        pool.faults > old(pool.faults) || Refuses(pool, ctx, old(pool.txs), InsertHistory(q, source, id))
    {
      var r := pool.Exec(ctx, InsertHistory(q, source, id));
      err := if r.Err? then Some(r.error) else None;
    }

    method Upsert(ctx: Ctx, q: Quote) returns (err: Option<string>)
      requires pool.Valid() && (ctx.tx.Some? ==> ctx.tx.value in pool.txs)
      modifies pool
      ensures pool.Valid() && pool.txs.Keys == old(pool.txs).Keys
      ensures Wrote(pool, ctx, old(pool.db), old(pool.txs), old(pool.commits), UpsertQuotes(q), err.None?)
      ensures pool.faults >= old(pool.faults)
      ensures err.Some? ==> pool.faults > old(pool.faults) || Refuses(pool, ctx, old(pool.txs), UpsertQuotes(q))
    {
      var r := pool.Exec(ctx, UpsertQuotes(q));
      err := if r.Err? then Some(r.error) else None;
    }
  }

  lemma AffectedBySet(id: JobId, status: Status, error: Option<string>)
    ensures forall db: Db, now: Micros ::
      Affected(Written(db, SetStatus(id, status, error), now)) == if id in db.jobs then 1 else 0
  {
  }

  class UpdateJobRepo {
    const pool: Pool

    constructor (pool: Pool)
      ensures this.pool == pool
    {
      this.pool := pool;
    }

    /** No row affected is ErrNotFound, although the statement itself succeeded. */
    method UpdateStatus(ctx: Ctx, id: JobId, status: Status, error: Option<string>) returns (err: Option<string>)
      requires pool.Valid() && (ctx.tx.Some? ==> ctx.tx.value in pool.txs)
      modifies pool
      ensures pool.Valid() && pool.txs.Keys == old(pool.txs).Keys
      ensures ctx.tx.Some? ==>
        pool.InTx(ctx.tx.value, SetStatus(id, status, error), old(pool.db), old(pool.txs), old(pool.commits), err.None?)
      ensures ctx.tx.Some? && err.None? ==> id in View(pool.db, old(pool.txs)[ctx.tx.value].rows).jobs
      ensures ctx.tx.None? ==> pool.txs == old(pool.txs)
      ensures ctx.tx.None? && err.None? ==> pool.Alone(SetStatus(id, status, error), old(pool.commits), Ok(1))
      ensures ctx.tx.None? && err.Some? ==>
        Foreign(old(pool.commits), pool.commits) || pool.Alone(SetStatus(id, status, error), old(pool.commits), Ok(0))
      ensures pool.faults >= old(pool.faults)
      ensures ctx.tx.Some? && err.Some? ==>
        || pool.faults > old(pool.faults)
        || Refuses(pool, ctx, old(pool.txs), SetStatus(id, status, error))
        || id !in View(pool.db, old(pool.txs)[ctx.tx.value].rows).jobs
      ensures ctx.tx.None? && err.Some? ==>
        || pool.faults > old(pool.faults) || Refuses(pool, ctx, old(pool.txs), SetStatus(id, status, error))
        || pool.Alone(SetStatus(id, status, error), old(pool.commits), Ok(0))
    {
      var r := pool.Exec(ctx, SetStatus(id, status, error));
      AffectedBySet(id, status, error);
      if r.Err? { return Some(r.error); }
      if r.value == 0 { return Some("not found"); }
      err := None;
    }
  }

  class Uow {
    const pool: Pool
    const quotes: QuoteRepo
    const jobs: UpdateJobRepo

    ghost predicate Wired() { quotes.pool == pool && jobs.pool == pool }

    constructor (pool: Pool, quotes: QuoteRepo, jobs: UpdateJobRepo)
      requires quotes.pool == pool && jobs.pool == pool
      ensures this.pool == pool && Wired()
    {
      this.pool, this.quotes, this.jobs := pool, quotes, jobs;
    }

    /** The function CompleteQuoteUpdate hands to Do, on a transaction that has written nothing yet. */
    method WriteQuote(txCtx: Ctx, q: Quote, id: JobId, source: string) returns (err: Option<string>)
      requires Wired() && pool.Valid() && txCtx.tx.Some? && txCtx.tx.value in pool.txs
      requires pool.txs[txCtx.tx.value].Open? && pool.txs[txCtx.tx.value].rows == NO_ROWS
      modifies pool
      ensures pool.Valid() && Foreign(old(pool.commits), pool.commits)
      ensures OnlyTx(old(pool.txs), pool.txs, txCtx.tx.value)
      ensures err.None? ==> StillOpen(old(pool.txs)[txCtx.tx.value], txCtx.tx.value)
      ensures err.None? ==>
        AllWritten(pool.db, pool.txs[txCtx.tx.value].rows, q, source, id, pool.txs[txCtx.tx.value].now)
      ensures pool.faults >= old(pool.faults)
      ensures err.Some? ==>
        || pool.faults > old(pool.faults) || Impossible(pool.db, q, id)
        || Contended(old(pool.txs), txCtx.tx.value, q, id, source)
    {
      err := WriteHistory(txCtx, q, id, source);
      if err.Some? { return; }
      err := WriteLast(txCtx, q, id, source);
      if err.Some? { return; }
      err := WriteDone(txCtx, q, id, source);
    }

    /** Transaction t is still open, with the same NOW(). */
    ghost predicate StillOpen(before: Tx, t: nat)
      reads pool
    {
      t in pool.txs && before.Open? && pool.txs[t].Open? && pool.txs[t].now == before.now
    }

    method WriteHistory(txCtx: Ctx, q: Quote, id: JobId, source: string) returns (err: Option<string>)
      requires Wired() && pool.Valid() && txCtx.tx.Some? && txCtx.tx.value in pool.txs
      requires pool.txs[txCtx.tx.value].Open? && pool.txs[txCtx.tx.value].rows == NO_ROWS
      modifies pool
      ensures pool.Valid() && Foreign(old(pool.commits), pool.commits)
      ensures OnlyTx(old(pool.txs), pool.txs, txCtx.tx.value)
      ensures err.None? ==> StillOpen(old(pool.txs)[txCtx.tx.value], txCtx.tx.value)
      ensures err.None? ==>
        FirstWritten(pool.db, pool.txs[txCtx.tx.value].rows, q, source, id)
      ensures pool.faults >= old(pool.faults)
      ensures err.Some? ==>
        || pool.faults > old(pool.faults) || Impossible(pool.db, q, id)
        || Contended(old(pool.txs), txCtx.tx.value, q, id, source)
    {
      err := quotes.AppendHistory(txCtx, q, source, id);
      if err.None? {
        AppendFirst(pool.db, pool.txs[txCtx.tx.value].rows, q, source, id, pool.txs[txCtx.tx.value].now);
      }
    }

    method WriteLast(txCtx: Ctx, q: Quote, id: JobId, source: string) returns (err: Option<string>)
      requires Wired() && pool.Valid() && txCtx.tx.Some? && txCtx.tx.value in pool.txs
      requires pool.txs[txCtx.tx.value].Open?
      requires FirstWritten(pool.db, pool.txs[txCtx.tx.value].rows, q, source, id)
      modifies pool
      ensures pool.Valid() && Foreign(old(pool.commits), pool.commits)
      ensures OnlyTx(old(pool.txs), pool.txs, txCtx.tx.value)
      ensures err.None? ==> StillOpen(old(pool.txs)[txCtx.tx.value], txCtx.tx.value)
      ensures err.None? ==>
        TwoWritten(pool.db, pool.txs[txCtx.tx.value].rows, q, source, id)
      ensures pool.faults >= old(pool.faults)
      ensures err.Some? ==>
        || pool.faults > old(pool.faults) || Impossible(pool.db, q, id)
        || Contended(old(pool.txs), txCtx.tx.value, q, id, source)
    {
      ghost var db, tx := pool.db, pool.txs[txCtx.tx.value];
      err := quotes.Upsert(txCtx, q);
      if err.None? {
        ThenUpsert(db, tx.rows, pool.db, pool.txs[txCtx.tx.value].rows, q, source, id, tx.now);
      }
    }

    method WriteDone(txCtx: Ctx, q: Quote, id: JobId, source: string) returns (err: Option<string>)
      requires Wired() && pool.Valid() && txCtx.tx.Some? && txCtx.tx.value in pool.txs
      requires pool.txs[txCtx.tx.value].Open?
      requires TwoWritten(pool.db, pool.txs[txCtx.tx.value].rows, q, source, id)
      modifies pool
      ensures pool.Valid() && Foreign(old(pool.commits), pool.commits)
      ensures OnlyTx(old(pool.txs), pool.txs, txCtx.tx.value)
      ensures err.None? ==> StillOpen(old(pool.txs)[txCtx.tx.value], txCtx.tx.value)
      ensures err.None? ==>
        AllWritten(pool.db, pool.txs[txCtx.tx.value].rows, q, source, id, pool.txs[txCtx.tx.value].now)
      ensures pool.faults >= old(pool.faults)
      ensures err.Some? ==>
        || pool.faults > old(pool.faults) || Impossible(pool.db, q, id)
        || Contended(old(pool.txs), txCtx.tx.value, q, id, source)
    {
      ghost var db, tx := pool.db, pool.txs[txCtx.tx.value];
      err := jobs.UpdateStatus(txCtx, id, Done, None);
      if err.None? {
        ThenFinish(db, tx.rows, pool.db, pool.txs[txCtx.tx.value].rows, q, source, id, tx.now);
      }
    }

    /**
     All or nothing, wherever it fails and whoever commits in between: on success this transaction made
     one commit, the last, and it is the three writes on the tables just before it; on any error it
     made none.  No transaction stays open.  An error has a cause: the server or the connection failed,
     another transaction held one of the rows, the price does not fit, or at some moment of the call the
     job was not there.
     */
    method Do(q: Quote, id: JobId, source: string) returns (err: Option<string>, ghost t: nat, ghost now: Micros)
      requires Wired() && pool.Valid()
      modifies pool
      ensures pool.Valid() && pool.txs == old(pool.txs)
      ensures err.Some? ==> Foreign(old(pool.commits), pool.commits)
      ensures err.None? ==> OneCommit(old(pool.commits), pool.commits, Mine(t), Completes(id, q, source, now))
      ensures pool.faults >= old(pool.faults)
      ensures err.Some? ==>
        || pool.faults > old(pool.faults) || Contended(old(pool.txs), t, q, id, source)
        || exists i :: |old(pool.commits)| - 1 <= i < |pool.commits| && Impossible(pool.commits[i].db, q, id)
    {
      t, now := 0, 0;
      var tx := pool.Begin();
      if tx.Err? {
        err := Some(tx.error);
        return;
      }
      t := tx.value;
      now := pool.txs[tx.value].now;
      ghost var others := old(pool.txs);
      err := WriteQuote(Ctx(Some(tx.value)), q, id, source);
      assert pool.txs - {t} == others;
      if err.Some? {
        ghost var n := |pool.commits| - 1;
        ghost var failedOn := pool.db;
        pool.Rollback(tx.value);
        assert pool.commits[n].db == failedOn;
        return;
      }
      ghost var before, rows, commits := pool.db, pool.txs[t].rows, pool.commits;
      err := pool.Commit(tx.value);
      if err.None? {
        PublishedCompletes(old(pool.commits), commits, pool.commits, before, t, rows, q, source, id, now);
      }
    }
  }

  /** Another open transaction holds one of the three rows. */
  predicate Contended(txs: map<nat, Tx>, me: nat, q: Quote, id: JobId, source: string) {
    exists t :: t in txs && t != me && txs[t].Open?
      && (q.pair in txs[t].rows.quotes || KeyOf(q, source) in txs[t].rows.history || id in txs[t].rows.jobs)
  }

  /** A price that does not fit its column, or no job of that id. */
  predicate Impossible(db: Db, q: Quote, id: JobId) {
    !Fits(q.price) || id !in db.jobs
  }

  ghost predicate AllWritten(db: Db, rows: Rows, q: Quote, source: string, id: JobId, now: Micros) {
    Appended(db, rows, q, source, id) && Upserted(rows, q) && Finished(db, rows, id, now)
  }

  ghost predicate FirstWritten(db: Db, rows: Rows, q: Quote, source: string, id: JobId) {
    Appended(db, rows, q, source, id) && rows.quotes == map[] && rows.jobs == map[]
  }

  ghost predicate TwoWritten(db: Db, rows: Rows, q: Quote, source: string, id: JobId) {
    Appended(db, rows, q, source, id) && Upserted(rows, q) && rows.jobs == map[]
  }

  lemma AppendFirst(db: Db, rows: Rows, q: Quote, source: string, id: JobId, now: Micros)
    requires Run(View(db, NO_ROWS), InsertHistory(q, source, id), now).Ok?
    requires rows == Merge(NO_ROWS, Written(View(db, NO_ROWS), InsertHistory(q, source, id), now))
    ensures FirstWritten(db, rows, q, source, id)
  {
  }

  lemma ThenUpsert(db: Db, rows: Rows, db': Db, rows': Rows, q: Quote, source: string, id: JobId, now: Micros)
    requires FirstWritten(db, rows, q, source, id) && Quiet(db, db', rows)
    requires rows' == Merge(rows, Written(View(db', rows), UpsertQuotes(q), now))
    ensures TwoWritten(db', rows', q, source, id)
  {
    StaysAppended(db, db', rows, q, source, id);
    assert rows'.history == rows.history;
  }

  lemma ThenFinish(db: Db, rows: Rows, db': Db, rows': Rows, q: Quote, source: string, id: JobId, now: Micros)
    requires TwoWritten(db, rows, q, source, id) && Quiet(db, db', rows)
    requires id in View(db', rows).jobs
    requires rows' == Merge(rows, Written(View(db', rows), SetStatus(id, Done, None), now))
    ensures AllWritten(db', rows', q, source, id, now)
  {
    StaysAppended(db, db', rows, q, source, id);
    assert rows'.history == rows.history && rows'.quotes == rows.quotes;
    assert View(db', rows).jobs == db'.jobs;
    assert rows'.jobs == map[id := WithStatus(db'.jobs[id], Done, None, now)];
  }

  lemma CommitCompletes(before: Db, db: Db, rows: Rows, q: Quote, source: string, id: JobId, now: Micros)
    requires AllWritten(before, rows, q, source, id, now) && Quiet(before, db, rows)
    ensures Completes(id, q, source, now)(db) == Ok(View(db, rows))
  {
    StaysAppended(before, db, rows, q, source, id);
    StaysFinished(before, db, rows, id, now);
    RowsComplete(db, rows, q, source, id, now);
  }

  lemma PublishedCompletes(first: seq<Entry>, commits: seq<Entry>, commits': seq<Entry>, before: Db, t: nat, rows: Rows,
      q: Quote, source: string, id: JobId, now: Micros)
    requires Foreign(first, commits) && Published(commits, commits', before, t, rows)
    requires AllWritten(before, rows, q, source, id, now)
    ensures OneCommit(first, commits', Mine(t), Completes(id, q, source, now))
  {
    CommitCompletes(before, commits'[|commits'| - 2].db, rows, q, source, id, now);
  }

  /**
   The one commit Do makes, on the tables a committing actor of the job system sees, leaves the tables
   that actor's commit step leaves.
   */
  lemma CommitsLikeTheSystem(s: Machine.Sys, w: nat, first: seq<Entry>, commits: seq<Entry>, t: nat)
    requires Ownership.Owned(s) && Machine.CanCommit(s, w)
    requires
      var a := Machine.At(s, w);
      OneCommit(first, commits, Mine(t), Completes(Machine.Cur(a), a.pc.quote, Machine.Source(s.mode), a.pc.at))
    requires commits[|commits| - 2].db == s.db
    ensures commits[|commits| - 1].db == Machine.DoCommit(s, w).db
  {
    Serial.CommitIsSerial(s, w);
  }

  /** What the three writes come to: exactly one quotes row, one job row and at most one new history row. */
  lemma CompleteEffect(db: Db, id: JobId, q: Quote, source: string, now: Micros)
    ensures Complete(db, id, q, source, now).Err? <==> !Fits(q.price) || id !in db.jobs
    ensures Complete(db, id, q, source, now).Ok? ==>
      var db' := Complete(db, id, q, source, now).value;
      && db'.quotes == db.quotes[q.pair := QuoteRow(ToNumeric(q.price), ToMicros(q.at))]
      && (forall k :: k in db.history ==> k in db'.history && db'.history[k] == db.history[k])
      && (forall k :: k in db'.history && k !in db.history ==>
            k == HistoryKey(q.pair, ToMicros(q.at), source) && db'.history[k] == HistoryRow(ToNumeric(q.price), id))
      && HistoryKey(q.pair, ToMicros(q.at), source) in db'.history
      && db'.jobs.Keys == db.jobs.Keys
      && (forall j :: j in db.jobs && j != id ==> db'.jobs[j] == db.jobs[j])
      && db'.jobs[id] == Job(db.jobs[id].pair, Done, None, db.jobs[id].requestedAt, Some(now))
  {
  }
}
