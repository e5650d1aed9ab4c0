/**
 Runs that exist: they reach the states in which the tables are not what the service's documents
 promise, and the ones in which a job is left behind.
 */
module Scenarios {
  import opened Prelude
  import opened Tables
  import opened Machine
  import opened Consistency
  import opened Guarantees
  import opened Locks
  import opened Progress

  lemma OneStep(mode: Mode, cap: nat, tr: Trace, st: Step) returns (tr': Trace)
    requires IsTrace(mode, cap, tr) && Enabled(Last(tr), st)
    ensures IsTrace(mode, cap, tr') && Last(tr') == Next(Last(tr), st)
    ensures tr'.steps == tr.steps + [st] && tr.states <= tr'.states
  {
    tr' := Extend(tr, st);
    ExtendTrace(mode, cap, tr, st);
  }

  // ----- two jobs of one pair -----

  lemma TwoRequests(cap: nat, pair: Pair) returns (tr: Trace)
    ensures IsTrace(Grpc, cap, tr) && Alone(Last(tr), 0) && At(Last(tr), 0) == IDLE_ACTOR
    ensures Last(tr).inbox == {"a", "b"} && Last(tr).db == Db(map[], map[], Last(tr).db.jobs)
    ensures Last(tr).db.jobs == map["a" := Job(pair, Queued, None, 0, None), "b" := Job(pair, Queued, None, 1, None)]
  {
    assert "a"[0] != "b"[0];
    tr := Trace([Init(Grpc, cap)], []);
    tr := OneStep(Grpc, cap, tr, Create("a", pair, 0));
    tr := OneStep(Grpc, cap, tr, Create("b", pair, 1));
  }

  /** A dispatched job completes. */
  lemma Serves(cap: nat, tr: Trace, id: JobId, q: Quote, at: Micros) returns (tr': Trace)
    requires IsTrace(Grpc, cap, tr) && Alone(Last(tr), 0) && At(Last(tr), 0) == IDLE_ACTOR && id in Last(tr).inbox
    requires id in Last(tr).db.jobs && Last(tr).db.jobs[id].pair == q.pair && Fits(q.price)
    ensures IsTrace(Grpc, cap, tr') && Alone(Last(tr'), 0) && At(Last(tr'), 0) == IDLE_ACTOR
    ensures Last(tr').inbox == Last(tr).inbox - {id}
    ensures Complete(Last(tr).db, id, q, "grpc", at) == Ok(Last(tr').db)
  {
    tr' := DeliversAlone(Grpc, cap, tr, 0, id);
    tr' := CompletesAlone(Grpc, cap, tr', 0, q, at);
  }

  /** The first request completes with q, then the second with r. */
  lemma TwoCompletions(cap: nat, q: Quote, r: Quote) returns (tr: Trace)
    requires q.pair == r.pair && Fits(q.price) && Fits(r.price)
    ensures IsTrace(Grpc, cap, tr)
    ensures "a" in Last(tr).db.jobs && Last(tr).db.jobs["a"].status == Done
    ensures "b" in Last(tr).db.jobs && Last(tr).db.jobs["b"].status == Done
    ensures Last(tr).db.quotes == map[q.pair := QuoteRowOf(r)]
    ensures Last(tr).db.history ==
      if KeyOf(q, "grpc") == KeyOf(r, "grpc") then map[KeyOf(q, "grpc") := HistoryRowOf(q, "a")]
      else map[KeyOf(q, "grpc") := HistoryRowOf(q, "a"), KeyOf(r, "grpc") := HistoryRowOf(r, "b")]
  {
    assert "a"[0] != "b"[0];
    tr := TwoRequests(cap, q.pair);
    tr := Serves(cap, tr, "a", q, 2);
    tr := Serves(cap, tr, "b", r, 3);
  }

  /**
   Two jobs that fetch one instant, whatever their prices: both are done, and history has a row for
   the first only.
   */
  lemma HistoryDropsARate(cap: nat, q: Quote, r: Quote) returns (tr: Trace)
    requires q.pair == r.pair && ToMicros(q.at) == ToMicros(r.at) && Fits(q.price) && Fits(r.price)
    ensures IsTrace(Grpc, cap, tr)
    ensures "b" in Last(tr).db.jobs && Last(tr).db.jobs["b"].status == Done
    ensures forall k :: k in Last(tr).db.history ==> Last(tr).db.history[k].updateId != "b"
  {
    assert "a"[0] != "b"[0];
    tr := TwoCompletions(cap, q, r);
  }

  /** A rate is fetched, its transaction fails, and history has no row at all. */
  lemma FailureDropsARate(cap: nat, q: Quote) returns (tr: Trace)
    ensures IsTrace(Grpc, cap, tr) && Last(tr).db.history == map[]
    ensures "a" in Last(tr).fetched && Last(tr).fetched["a"] == Some(q) && "a" in Last(tr).lost
  {
    tr := TwoRequests(cap, q.pair);
    tr := DeliversAlone(Grpc, cap, tr, 0, "a");
    tr := OneStep(Grpc, cap, tr, Fetch(0, q));
    tr := OneStep(Grpc, cap, tr, Abandon(0, "commit"));
  }

  /** An older quote that commits later replaces the newer one. */
  lemma QuotesGoBack(cap: nat, newer: Quote, older: Quote) returns (tr: Trace)
    requires newer.pair == older.pair && Fits(newer.price) && Fits(older.price)
    requires ToMicros(older.at) < ToMicros(newer.at)
    ensures IsTrace(Grpc, cap, tr)
    ensures newer.pair in Last(tr).db.quotes && Last(tr).db.quotes[newer.pair].updatedAt < ToMicros(newer.at)
    ensures KeyOf(newer, "grpc") in Last(tr).db.history
  {
    tr := TwoCompletions(cap, newer, older);
  }

  /** Two prices for one pair and instant: history keeps the first, quotes the last. */
  lemma PricesDisagree(cap: nat, q: Quote, price: real) returns (tr: Trace)
    requires Fits(q.price) && Fits(price) && ToNumeric(price) != ToNumeric(q.price)
    ensures IsTrace(Grpc, cap, tr) && q.pair in Last(tr).db.quotes
    ensures !PricesAgree("grpc", Last(tr).db, q.pair)
  {
    tr := TwoCompletions(cap, q, q.(price := price));
  }

  // ----- a fetch that ends at its deadline -----

  /**
   For every capacity, pair and message: the fetch fails at the deadline, the write after it cannot
   succeed, and the job is left queued.
   */
  lemma LateFetchIsNotRecorded(cap: nat, pair: Pair, msg: string) returns (tr: Trace, id: JobId)
    ensures IsTrace(Chan, cap, tr) && AllIdle(Last(tr))
    ensures |tr.steps| == 4 && tr.steps[2] == Fail(0, msg, true) && Cur(At(tr.states[2], 0)) == id
    ensures id in Last(tr).fetched && Last(tr).fetched[id] == None
    ensures id in Last(tr).lost && id in Last(tr).db.jobs && Last(tr).db.jobs[id].status == Queued
  {
    id := "a";
    var fetching := FetchesOne(cap, pair, id);
    var failing := OneStep(Chan, cap, fetching, Fail(0, msg, true));
    tr := OneStep(Chan, cap, failing, WriteFailed(0, 0, false));
    assert Last(tr).actors == map[0 := IDLE_ACTOR];
    assert tr.states[2] == failing.states[2] == Last(fetching);
  }

  lemma FetchesOne(cap: nat, pair: Pair, id: JobId) returns (tr: Trace)
    ensures IsTrace(Chan, cap, tr) && |tr.steps| == 2 && Last(tr).mode == Chan
    ensures Last(tr).actors == map[0 := Actor(Fetching, [id])]
    ensures Last(tr).db.jobs == map[id := Job(pair, Queued, None, 0, None)]
  {
    tr := Trace([Init(Chan, cap)], []);
    tr := OneStep(Chan, cap, tr, Create(id, pair, 0));
    tr := OneStep(Chan, cap, tr, Handoff(0, id));
  }

  // ----- a full channel -----

  /** A job id of n characters. */
  function Name(n: nat): JobId { seq(n, i => 'x') }

  lemma {:induction false} FillsUp(cap: nat, n: nat, pair: Pair) returns (tr: Trace)
    requires n <= cap
    ensures IsTrace(Chan, cap, tr) && Last(tr).actors == map[] && Last(tr).inbox == {} && Last(tr).delivered == []
    ensures |Last(tr).buf| == n && forall id :: id in Last(tr).db.jobs ==> |id| < n
  {
    if n == 0 {
      tr := Trace([Init(Chan, cap)], []);
    } else {
      tr := FillsUp(cap, n - 1, pair);
      tr := AddsOne(cap, tr, n - 1, pair);
      InvAt(Chan, cap, tr, |tr.steps|);
      tr := OneStep(Chan, cap, tr, Enqueue(Name(n - 1)));
    }
  }

  lemma AddsOne(cap: nat, tr: Trace, n: nat, pair: Pair) returns (tr': Trace)
    requires IsTrace(Chan, cap, tr) && Last(tr).inbox == {} && forall id :: id in Last(tr).db.jobs ==> |id| < n
    ensures IsTrace(Chan, cap, tr') && Last(tr').inbox == {Name(n)} && SameChannel(Last(tr), Last(tr'))
    ensures Name(n) in Last(tr').db.jobs && forall id :: id in Last(tr').db.jobs ==> |id| <= n
  {
    InvAt(Chan, cap, tr, |tr.steps|);
    tr' := OneStep(Chan, cap, tr, Create(Name(n), pair, 0));
  }

  predicate SameChannel(s: Sys, s': Sys) {
    s'.mode == s.mode && s'.cap == s.cap && s'.buf == s.buf && s'.actors == s.actors && s'.delivered == s.delivered
  }

  /** For every capacity the channel can be full and a request's message refused. */
  lemma ChannelRefuses(cap: nat, pair: Pair) returns (tr: Trace, id: JobId)
    ensures IsTrace(Chan, cap, tr) && |Last(tr).buf| == cap
    ensures id in Last(tr).db.jobs && id in Last(tr).lost && id !in Last(tr).delivered
  {
    tr := FillsUp(cap, cap, pair);
    id := Name(cap);
    tr := AddsOne(cap, tr, cap, pair);
    tr := OneStep(Chan, cap, tr, Reject(id));
  }
}
