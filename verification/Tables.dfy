/**
 The three tables of the service and the SQL statements the repositories issue, as functions on
 one committed state of the database.  A statement that PostgreSQL would reject returns Err.
 */
module Tables {
  import opened Prelude

  type JobId = string
  type Pair = string
  type Micros = int // an instant as TIMESTAMPTZ stores it

  datatype Status = Queued | Processing | Done | Failed {
    predicate Terminal() { Done? || Failed? }
  }

  /** A quote as a fetch returns it; the instant counts nanoseconds. */
  datatype Quote = Quote(pair: Pair, price: real, at: int)

  datatype Job =
    Job(pair: Pair, status: Status, error: Option<string>, requestedAt: Micros, completedAt: Option<Micros>)

  datatype HistoryKey = HistoryKey(pair: Pair, quotedAt: Micros, source: string)

  datatype HistoryRow = HistoryRow(price: int, updateId: JobId)

  datatype QuoteRow = QuoteRow(price: int, updatedAt: Micros)

  datatype Db = Db(quotes: map<Pair, QuoteRow>, history: map<HistoryKey, HistoryRow>, jobs: map<JobId, Job>)

  const EMPTY_DB := Db(map[], map[], map[])

  // ----- column types -----

  /** TIMESTAMPTZ keeps microseconds: the driver drops the rest of the nanoseconds. */
  function ToMicros(nanos: int): Micros { nanos / 1000 }

  /** NUMERIC(18,6) in millionths, rounding half away from zero. */
  function ToNumeric(price: real): int {
    if price >= 0.0 then (price * 1000000.0 + 0.5).Floor else -((0.5 - price * 1000000.0).Floor)
  }

  /** Eighteen digits at most; a longer one is a numeric field overflow. */
  predicate Fits(price: real) {
    -1_000_000_000_000_000_000 < ToNumeric(price) < 1_000_000_000_000_000_000
  }

  function KeyOf(q: Quote, source: string): HistoryKey {
    HistoryKey(q.pair, ToMicros(q.at), source)
  }

  function HistoryRowOf(q: Quote, id: JobId): HistoryRow {
    HistoryRow(ToNumeric(q.price), id)
  }

  function QuoteRowOf(q: Quote): QuoteRow {
    QuoteRow(ToNumeric(q.price), ToMicros(q.at))
  }

  // ----- statements -----

  /** INSERT INTO quote_updates; the primary key rejects a second row with the same id. */
  function InsertJob(db: Db, id: JobId, pair: Pair, now: Micros): Result<Db> {
    if id in db.jobs then Err("duplicate key")
    else Ok(db.(jobs := db.jobs[id := Job(pair, Queued, None, now, None)]))
  }

  function WithStatus(row: Job, status: Status, error: Option<string>, now: Micros): Job {
    row.(status := status, error := error, completedAt := if status.Terminal() then Some(now) else row.completedAt)
  }

  /** UPDATE quote_updates SET status: no guard on the status being replaced. */
  function UpdateStatus(db: Db, id: JobId, status: Status, error: Option<string>, now: Micros): Result<Db> {
    if id !in db.jobs then Err("not found")
    else Ok(db.(jobs := db.jobs[id := WithStatus(db.jobs[id], status, error, now)]))
  }

  /** The UPDATE half of the claim statement, over the rows its CTE locked. */
  function MarkClaimed(jobs: map<JobId, Job>, ids: set<JobId>): map<JobId, Job> {
    map id | id in jobs :: if id in ids then jobs[id].(status := Processing) else jobs[id]
  }

  /** INSERT INTO quotes_history ... ON CONFLICT (pair, quoted_at, source) DO NOTHING. */
  function AppendHistory(db: Db, q: Quote, source: string, id: JobId): Result<Db> {
    if !Fits(q.price) then Err("numeric field overflow")
    else if KeyOf(q, source) in db.history then Ok(db)
    else if id !in db.jobs then Err("foreign key violation")
    else Ok(db.(history := db.history[KeyOf(q, source) := HistoryRowOf(q, id)]))
  }

  /** INSERT INTO quotes ... ON CONFLICT (pair) DO UPDATE. */
  function UpsertQuote(db: Db, q: Quote): Result<Db> {
    if !Fits(q.price) then Err("numeric field overflow")
    else Ok(db.(quotes := db.quotes[q.pair := QuoteRowOf(q)]))
  }

  /** The three statements of CompleteQuoteUpdate run one after the other with nothing in between. */
  function Complete(db: Db, id: JobId, q: Quote, source: string, now: Micros): Result<Db> {
    match AppendHistory(db, q, source, id)
    case Err(e) => Err(e)
    case Ok(db1) =>
      match UpsertQuote(db1, q)
      case Err(e) => Err(e)
      case Ok(db2) => UpdateStatus(db2, id, Done, None, now)
  }
}
