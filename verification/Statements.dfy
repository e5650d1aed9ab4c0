/** What the column types and each statement come to, told by their effect on the rows. */
module Statements {
  import opened Prelude
  import opened Tables
  import opened Rounding

  // ----- instants -----

  /** A stored instant is the microsecond in which the quote's instant lies. */
  lemma MicrosOf(nanos: int)
    ensures 1000 * ToMicros(nanos) <= nanos < 1000 * ToMicros(nanos) + 1000
  {
  }

  /** Two quotes share a history key exactly when pair, source and microsecond are the same. */
  lemma SameKey(q: Quote, source: string, r: Quote, source': string, m: int)
    requires 1000 * m <= q.at < 1000 * m + 1000
    ensures KeyOf(q, source) == KeyOf(r, source')
      <==> q.pair == r.pair && source == source' && 1000 * m <= r.at < 1000 * m + 1000
  {
    MicrosOf(q.at);
    MicrosOf(r.at);
  }

  /** So rates a microsecond or more apart are both recorded: the second completion leaves a row for each job. */
  lemma BothRecorded(db: Db, a: JobId, q: Quote, b: JobId, r: Quote, source: string, now: Micros, later: Micros)
    requires r.at - q.at >= 1000 || q.at - r.at >= 1000
    requires KeyOf(q, source) !in db.history && KeyOf(r, source) !in db.history
    requires Complete(db, a, q, source, now).Ok?
    requires Complete(Complete(db, a, q, source, now).value, b, r, source, later).Ok?
    ensures
      var h := Complete(Complete(db, a, q, source, now).value, b, r, source, later).value.history;
      && KeyOf(q, source) != KeyOf(r, source)
      && KeyOf(q, source) in h && h[KeyOf(q, source)] == HistoryRow(ToNumeric(q.price), a)
      && KeyOf(r, source) in h && h[KeyOf(r, source)] == HistoryRow(ToNumeric(r.price), b)
  {
    MicrosOf(q.at);
    MicrosOf(r.at);
    SameKey(q, source, r, source, ToMicros(q.at));
  }

  // ----- prices -----

  /** The prices that fit are those that round to less than a million million. */
  lemma FitsExactly(x: real)
    ensures Fits(x) <==> Abs(x) < 999_999_999_999.9999995
  {
    if x >= 0.0 {
      FloorBelow(x * 1000000.0 + 0.5);
    } else {
      FloorBelow(0.5 - x * 1000000.0);
    }
  }

  lemma FloorBelow(y: real)
    ensures y.Floor < 1_000_000_000_000_000_000 <==> y < 1_000_000_000_000_000_000.0
  {
  }

  /** A price halfway between two millionths is stored as the one farther from zero. */
  lemma TiesAwayFromZero(n: nat)
    ensures ToNumeric((n as real + 0.5) / 1000000.0) == n + 1
    ensures ToNumeric(-(n as real + 0.5) / 1000000.0) + n + 1 == 0
  {
    var x := (n as real + 0.5) / 1000000.0;
    assert x * 1000000.0 == n as real + 0.5;
    assert -(n as real + 0.5) / 1000000.0 == -x;
  }

  // ----- one statement at a time -----

  /** The insert of a job adds one queued row with the creation's time, unless the id is taken. */
  lemma InsertEffect(db: Db, id: JobId, pair: Pair, now: Micros)
    ensures InsertJob(db, id, pair, now).Err? <==> id in db.jobs
    ensures InsertJob(db, id, pair, now).Ok? ==>
      var db' := InsertJob(db, id, pair, now).value;
      && db'.quotes == db.quotes && db'.history == db.history && db'.jobs.Keys == db.jobs.Keys + {id}
      && (forall j :: j in db.jobs ==> db'.jobs[j] == db.jobs[j])
      && db'.jobs[id].pair == pair && db'.jobs[id].status.Queued? && db'.jobs[id].requestedAt == now
      && db'.jobs[id].error.None? && db'.jobs[id].completedAt.None?
  {
  }

  /** A status write changes three columns of one row; the completion time only when the job ends. */
  lemma StatusEffect(db: Db, id: JobId, status: Status, error: Option<string>, now: Micros)
    ensures UpdateStatus(db, id, status, error, now).Err? <==> id !in db.jobs
    ensures UpdateStatus(db, id, status, error, now).Ok? ==>
      var db' := UpdateStatus(db, id, status, error, now).value;
      && db'.quotes == db.quotes && db'.history == db.history && db'.jobs.Keys == db.jobs.Keys
      && (forall j :: j in db.jobs && j != id ==> db'.jobs[j] == db.jobs[j])
      && db'.jobs[id].pair == db.jobs[id].pair && db'.jobs[id].requestedAt == db.jobs[id].requestedAt
      && db'.jobs[id].status == status && db'.jobs[id].error == error
      && db'.jobs[id].completedAt == if status == Done || status == Failed then Some(now) else db.jobs[id].completedAt
  {
  }

  /** A claim turns its rows to processing and leaves everything else of every row alone. */
  lemma ClaimEffect(jobs: map<JobId, Job>, ids: set<JobId>)
    ensures MarkClaimed(jobs, ids).Keys == jobs.Keys
    ensures forall j :: j in jobs && j !in ids ==> MarkClaimed(jobs, ids)[j] == jobs[j]
    ensures forall j :: j in jobs && j in ids ==>
      var row := MarkClaimed(jobs, ids)[j];
      && row.status == Processing && row.pair == jobs[j].pair && row.error == jobs[j].error
      && row.requestedAt == jobs[j].requestedAt && row.completedAt == jobs[j].completedAt
  {
  }

  /** The history insert does nothing to a key that is there, and otherwise needs the job's row. */
  lemma AppendEffect(db: Db, q: Quote, source: string, id: JobId)
    ensures AppendHistory(db, q, source, id).Err?
      <==> !Fits(q.price) || (KeyOf(q, source) !in db.history && id !in db.jobs)
    ensures AppendHistory(db, q, source, id).Ok? ==>
      var db' := AppendHistory(db, q, source, id).value;
      && db'.quotes == db.quotes && db'.jobs == db.jobs
      && (forall k :: k in db.history ==> k in db'.history && db'.history[k] == db.history[k])
      && db'.history.Keys == db.history.Keys + {HistoryKey(q.pair, ToMicros(q.at), source)}
      && (KeyOf(q, source) !in db.history ==>
            db'.history[HistoryKey(q.pair, ToMicros(q.at), source)] == HistoryRow(ToNumeric(q.price), id))
  {
  }

  /** The upsert leaves one row for the pair, whatever was there, and the other pairs alone. */
  lemma UpsertEffect(db: Db, q: Quote)
    ensures UpsertQuote(db, q).Err? <==> !Fits(q.price)
    ensures UpsertQuote(db, q).Ok? ==>
      var db' := UpsertQuote(db, q).value;
      && db'.history == db.history && db'.jobs == db.jobs && db'.quotes.Keys == db.quotes.Keys + {q.pair}
      && (forall p :: p in db.quotes && p != q.pair ==> db'.quotes[p] == db.quotes[p])
      && db'.quotes[q.pair] == QuoteRow(ToNumeric(q.price), ToMicros(q.at))
  {
  }
}
