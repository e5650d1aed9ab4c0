/** What holds over whole runs, whatever the interleaving and whatever fails. */
module Guarantees {
  import opened Prelude
  import opened Tables
  import opened Machine
  import opened Ownership
  import opened Serial
  import opened Consistency

  // ----- states along a run -----

  lemma {:induction false} RunGrows(mode: Mode, cap: nat, tr: Trace, i: nat, k: nat)
    requires IsTrace(mode, cap, tr) && i <= k <= |tr.steps|
    ensures Grows(tr.states[i], tr.states[k])
    decreases k - i
  {
    var s := tr.states[i];
    InvAt(mode, cap, tr, i);
    if i < k {
      assert Took(tr, i);
      NextGrows(s, tr.steps[i]);
      RunGrows(mode, cap, tr, i + 1, k);
      GrowsTransitive(s, tr.states[i + 1], tr.states[k]);
    } else {
      GrowsReflexive(s);
    }
  }

  lemma GrowsReflexive(s: Sys)
    requires PoolsOk(s)
    ensures Grows(s, s)
  {
  }

  lemma GrowsTransitive(a: Sys, b: Sys, c: Sys)
    requires Grows(a, b) && Grows(b, c)
    ensures Grows(a, c)
  {
  }

  // ----- exclusive delivery -----

  /** The jobs a step hands to an actor: the rows a claim returns, or a message. */
  function HandsOut(s: Sys, st: Step): seq<JobId> {
    match st
    case Return(_, out) => out
    case Handoff(_, id) => [id]
    case Receive(_) => if s.buf == [] then [] else [s.buf[0]]
    case _ => []
  }

  lemma HandsOutDelivers(s: Sys, st: Step)
    requires Enabled(s, st)
    ensures Next(s, st).delivered == s.delivered + HandsOut(s, st)
  {
  }

  /** What one step handed out, no later step hands out. */
  lemma HandedOnce(a: Sys, st: Step, b: Sys, st': Step)
    requires Enabled(a, st) && Enabled(b, st') && Grows(Next(a, st), b)
    requires Distinct(Next(a, st).delivered) && Distinct(Next(b, st').delivered)
    ensures Distinct(HandsOut(a, st))
    ensures forall id :: id in HandsOut(a, st) ==> id !in HandsOut(b, st')
  {
    HandsOutDelivers(a, st);
    HandsOutDelivers(b, st');
    DistinctParts(a.delivered, HandsOut(a, st));
    DistinctParts(b.delivered, HandsOut(b, st'));
    var d := a.delivered + HandsOut(a, st);
    forall id | id in HandsOut(a, st) ensures id in b.delivered {
      assert id in d && d == b.delivered[..|d|];
    }
  }

  lemma DeliveredDistinct(mode: Mode, cap: nat, tr: Trace, i: nat)
    requires IsTrace(mode, cap, tr) && i <= |tr.steps|
    ensures Distinct(tr.states[i].delivered)
  {
    InvAt(mode, cap, tr, i);
  }

  /** No job is handed out twice, neither by two claims nor by one, over any run. */
  lemma DeliveredOnce(mode: Mode, cap: nat, tr: Trace, i: nat, k: nat)
    requires IsTrace(mode, cap, tr) && i < k < |tr.steps|
    ensures Distinct(HandsOut(tr.states[i], tr.steps[i]))
    ensures forall id :: id in HandsOut(tr.states[i], tr.steps[i]) ==> id !in HandsOut(tr.states[k], tr.steps[k])
  {
    assert Took(tr, i);
    assert Took(tr, k);
    RunGrows(mode, cap, tr, i + 1, k);
    DeliveredDistinct(mode, cap, tr, i + 1);
    DeliveredDistinct(mode, cap, tr, k + 1);
    HandedOnce(tr.states[i], tr.steps[i], tr.states[k], tr.steps[k]);
  }

  lemma DistinctParts<T>(s: seq<T>, t: seq<T>)
    requires Distinct(s + t)
    ensures Distinct(t)
    ensures forall x :: x in s ==> x !in t
  {
    forall i, j | 0 <= i < j < |t| ensures t[i] != t[j] {
      assert (s + t)[|s| + i] == t[i] && (s + t)[|s| + j] == t[j];
    }
    forall x | x in s ensures x !in t {
      var i :| 0 <= i < |s| && s[i] == x;
      forall j | 0 <= j < |t| ensures t[j] != x {
        assert (s + t)[i] == x && (s + t)[|s| + j] == t[j];
      }
    }
  }

  predicate Fetches(st: Step) { st.Fetch? || st.Fail? }

  lemma FetchRecords(s: Sys, st: Step)
    requires Owned(s) && Enabled(s, st) && Fetches(st)
    ensures Cur(At(s, st.w)) !in s.fetched
    ensures Cur(At(s, st.w)) in Next(s, st).fetched
  {
    assert ActorOk(s, At(s, st.w));
  }

  lemma FetchRecordsAt(mode: Mode, cap: nat, tr: Trace, i: nat)
    requires IsTrace(mode, cap, tr) && i < |tr.steps| && Fetches(tr.steps[i])
    ensures Cur(At(tr.states[i], tr.steps[i].w)) !in tr.states[i].fetched
    ensures Cur(At(tr.states[i], tr.steps[i].w)) in tr.states[i + 1].fetched
  {
    InvAt(mode, cap, tr, i);
    assert Took(tr, i);
    FetchRecords(tr.states[i], tr.steps[i]);
  }

  /** Each job is fetched, and so completed or failed, by at most one actor and at most once. */
  lemma FetchedOnce(mode: Mode, cap: nat, tr: Trace, i: nat, k: nat)
    requires IsTrace(mode, cap, tr) && i < k < |tr.steps| && Fetches(tr.steps[i]) && Fetches(tr.steps[k])
    ensures Cur(At(tr.states[i], tr.steps[i].w)) != Cur(At(tr.states[k], tr.steps[k].w))
  {
    FetchRecordsAt(mode, cap, tr, i);
    FetchRecordsAt(mode, cap, tr, k);
    RunGrows(mode, cap, tr, i + 1, k);
  }

  /** At no moment do two actors have one job in their lists. */
  lemma HeldByOne(s: Sys, v: nat, w: nat, id: JobId)
    requires Inv(s) && HeldBy(s, v, id) && HeldBy(s, w, id)
    ensures v == w
  {
    assert v != w ==> Apart(s.mode, At(s, v), At(s, w));
  }

  // ----- the life of a job -----

  /** The moves one step may make.  Only polling workers ever write 'processing'. */
  predicate Moves(mode: Mode, from: Status, to: Status) {
    || from == to
    || (mode.DbPoll? && from == Queued && to == Processing)
    || (from == Held(mode) && to.Terminal())
  }

  lemma ClaimMoves(s: Sys, w: nat, ids: set<JobId>)
    requires Owned(s) && At(s, w).pc.Scanning? && ids == Elements(At(s, w).pc.picked)
    ensures forall id :: id in s.db.jobs ==> Moves(s.mode, s.db.jobs[id].status, MarkClaimed(s.db.jobs, ids)[id].status)
  {
    assert ActorOk(s, At(s, w));
  }

  lemma WorkMoves(s: Sys, s': Sys, w: nat)
    requires Owned(s) && At(s, w).work != [] && s.db.jobs.Keys == s'.db.jobs.Keys
    requires forall j :: j in s.db.jobs && j != Cur(At(s, w)) ==> s'.db.jobs[j] == s.db.jobs[j]
    requires Cur(At(s, w)) in s.db.jobs ==>
      s'.db.jobs[Cur(At(s, w))].status == Held(s.mode) || s'.db.jobs[Cur(At(s, w))].status.Terminal()
    ensures forall id :: id in s.db.jobs ==> Moves(s.mode, s.db.jobs[id].status, s'.db.jobs[id].status)
  {
    assert ActorOk(s, At(s, w)) && Cur(At(s, w)) in At(s, w).work;
  }

  lemma WriteMoves(s: Sys, st: Step)
    requires Owned(s) && Enabled(s, st) && (st.Mark? || st.WriteFailed? || st.Commit?)
    ensures forall id :: id in s.db.jobs ==> id in Next(s, st).db.jobs
    ensures forall id :: id in s.db.jobs ==> Moves(s.mode, s.db.jobs[id].status, Next(s, st).db.jobs[id].status)
  {
    assert ActorOk(s, At(s, st.w)) && Cur(At(s, st.w)) in At(s, st.w).work;
    WorkMoves(s, Next(s, st), st.w);
  }

  /** One step of anyone: the status of every job stays or makes one legal move. */
  lemma StepMoves(s: Sys, st: Step, id: JobId)
    requires Owned(s) && Enabled(s, st) && id in s.db.jobs
    ensures id in Next(s, st).db.jobs
    ensures Moves(s.mode, s.db.jobs[id].status, Next(s, st).db.jobs[id].status)
  {
    if st.Mark? || st.WriteFailed? || st.Commit? {
      WriteMoves(s, st);
    } else if st.Return? {
      PermutationElements(At(s, st.w).pc.picked, st.out);
      ClaimMoves(s, st.w, Elements(st.out));
    } else if st.Lose? {
      ClaimMoves(s, st.w, Elements(At(s, st.w).pc.picked));
    } else if !st.Create? {
      QuietStep(s, st);
    }
  }

  /** From one row of a job to a later one: forward only, and a finished row is frozen. */
  predicate Forward(a: Job, b: Job) {
    && (a.status == b.status || (a.status == Queued && b.status != Queued) ||
      (a.status == Processing && b.status.Terminal()))
    && (a.status.Terminal() ==> b == a)
  }

  lemma StepForward(s: Sys, st: Step, id: JobId)
    requires Owned(s) && Enabled(s, st) && id in s.db.jobs
    ensures id in Next(s, st).db.jobs && Forward(s.db.jobs[id], Next(s, st).db.jobs[id])
  {
    StepMoves(s, st, id);
    NextGrows(s, st);
  }

  /** Timestamp and message follow the status; 'processing' exists in polling mode only. */
  lemma RowShape(s: Sys, id: JobId)
    requires Inv(s) && id in s.db.jobs
    ensures JobOk(s.db.jobs[id])
    ensures !s.mode.DbPoll? ==> s.db.jobs[id].status != Processing
  {
  }

  lemma ForwardAt(mode: Mode, cap: nat, tr: Trace, k: nat, id: JobId)
    requires IsTrace(mode, cap, tr) && k < |tr.steps| && id in tr.states[k].db.jobs
    ensures id in tr.states[k + 1].db.jobs
    ensures Forward(tr.states[k].db.jobs[id], tr.states[k + 1].db.jobs[id])
  {
    assert Took(tr, k);
    InvAt(mode, cap, tr, k);
    StepForward(tr.states[k], tr.steps[k], id);
  }

  lemma RowShapeAt(mode: Mode, cap: nat, tr: Trace, k: nat, id: JobId)
    requires IsTrace(mode, cap, tr) && k <= |tr.steps| && id in tr.states[k].db.jobs
    ensures JobOk(tr.states[k].db.jobs[id])
    ensures !mode.DbPoll? ==> tr.states[k].db.jobs[id].status != Processing
  {
    InvAt(mode, cap, tr, k);
    RowShape(tr.states[k], id);
  }

  /** Over any stretch of any run, although no write checks the status it replaces. */
  lemma {:induction false} Lifecycle(mode: Mode, cap: nat, tr: Trace, i: nat, k: nat, id: JobId)
    requires IsTrace(mode, cap, tr) && i <= k <= |tr.steps| && id in tr.states[i].db.jobs
    ensures id in tr.states[k].db.jobs
    ensures
      var a, b := tr.states[i].db.jobs[id], tr.states[k].db.jobs[id];
      && Forward(a, b)
      && (!mode.DbPoll? ==> b.status != Processing)
      && (b.completedAt.Some? <==> b.status.Terminal())
      && (b.error.Some? <==> b.status == Failed)
    decreases k
  {
    if i < k {
      Lifecycle(mode, cap, tr, i, k - 1, id);
      ForwardAt(mode, cap, tr, k - 1, id);
    }
    RowShapeAt(mode, cap, tr, k, id);
  }

  /** In polling mode no job leaves the queue except through 'processing'. */
  lemma {:induction false} ThroughProcessing(cap: nat, tr: Trace, i: nat, k: nat, id: JobId) returns (j: nat)
    requires IsTrace(DbPoll, cap, tr) && i <= k <= |tr.steps|
    requires id in tr.states[i].db.jobs && tr.states[i].db.jobs[id].status == Queued
    requires id in tr.states[k].db.jobs && tr.states[k].db.jobs[id].status != Queued
    ensures i < j <= k && id in tr.states[j].db.jobs && tr.states[j].db.jobs[id].status == Processing
  {
    Lifecycle(DbPoll, cap, tr, i, k - 1, id);
    if tr.states[k - 1].db.jobs[id].status == Queued {
      j := k;
      MovesAt(DbPoll, cap, tr, k - 1, id);
    } else {
      j := ThroughProcessing(cap, tr, i, k - 1, id);
    }
  }

  lemma MovesAt(mode: Mode, cap: nat, tr: Trace, k: nat, id: JobId)
    requires IsTrace(mode, cap, tr) && k < |tr.steps| && id in tr.states[k].db.jobs
    ensures id in tr.states[k + 1].db.jobs
    ensures Moves(mode, tr.states[k].db.jobs[id].status, tr.states[k + 1].db.jobs[id].status)
  {
    assert Took(tr, k);
    InvAt(mode, cap, tr, k);
    StepMoves(tr.states[k], tr.steps[k], id);
  }

  // ----- a fetch that fails -----

  /**
   Outside polling mode no other actor ever holds the row, so the failure can be recorded exactly
   when the context has not expired.
   */
  lemma RecordedUnlessLate(s: Sys, w: nat)
    requires Owned(s) && !s.mode.DbPoll? && At(s, w).pc.Failing?
    ensures CanWriteFailed(s, w, true) <==> !At(s, w).pc.late
  {
    var id := Cur(At(s, w));
    assert ActorOk(s, At(s, w)) && id in At(s, w).work;
    forall v | v in s.actors && v != w ensures id !in JobLocks(s.actors[v]) {
      assert Apart(s.mode, At(s, w), At(s, v)) && ActorOk(s, At(s, v));
    }
  }

  /** Once its worker is through with it, a job whose fetch failed is marked failed exactly when it was not given up. */
  lemma FailedUnlessLost(mode: Mode, cap: nat, tr: Trace, id: JobId)
    requires IsTrace(mode, cap, tr) && id in Last(tr).fetched && Last(tr).fetched[id] == None && !InHand(Last(tr), id)
    ensures id in Last(tr).db.jobs
    ensures Last(tr).db.jobs[id].status == Failed <==> id !in Last(tr).lost
  {
    var s := Last(tr);
    InvAt(mode, cap, tr, |tr.steps|);
    FailedOrLost(s, id);
  }

  lemma FailedOrLost(s: Sys, id: JobId)
    requires Inv(s) && id in s.fetched && s.fetched[id] == None && !InHand(s, id)
    ensures id in s.db.jobs
    ensures s.db.jobs[id].status == Failed <==> id !in s.lost
  {
    assert id in s.delivered;
    OnePlace(s, id);
  }

  // ----- a fetch that runs into the worker's deadline -----

  /** The job's fetch failed at the deadline: its worker is about to write that on the expired context, or has tried. */
  ghost predicate TimedOut(s: Sys, id: JobId) {
    id in s.lost || exists w :: LateWith(s, w, id)
  }

  ghost predicate LateWith(s: Sys, w: nat, id: JobId) {
    w in s.actors && s.actors[w].pc.Failing? && s.actors[w].pc.late && Cur(s.actors[w]) == id
  }

  lemma StaysTimedOut(s: Sys, st: Step, id: JobId)
    requires Owned(s) && Enabled(s, st) && TimedOut(s, id)
    ensures TimedOut(Next(s, st), id)
  {
    NextGrows(s, st);
    if w :| LateWith(s, w, id) {
      LateMoves(s, st, w, id);
    }
  }

  lemma LateMoves(s: Sys, st: Step, w: nat, id: JobId)
    requires Enabled(s, st) && LateWith(s, w, id)
    ensures id in Next(s, st).lost || LateWith(Next(s, st), w, id)
  {
  }

  lemma TimedOutIsHeld(s: Sys, id: JobId)
    requires Owned(s) && TimedOut(s, id)
    ensures id in s.db.jobs && s.db.jobs[id].status == Held(s.mode)
  {
    if w :| LateWith(s, w, id) {
      assert ActorOk(s, At(s, w)) && id in At(s, w).work;
    }
  }

  /** A job whose fetch failed by the deadline is never marked failed: it stays queued for good. */
  lemma {:induction false} LateStaysQueued(cap: nat, tr: Trace, i: nat, k: nat)
    requires IsTrace(Chan, cap, tr) && i < k < |tr.states| && tr.steps[i].Fail? && tr.steps[i].late
    ensures
      var id := Cur(At(tr.states[i], tr.steps[i].w));
      && TimedOut(tr.states[k], id)
      && id in tr.states[k].db.jobs && tr.states[k].db.jobs[id].status == Queued
  {
    var id := Cur(At(tr.states[i], tr.steps[i].w));
    if k == i + 1 {
      BecomesLate(cap, tr, i);
    } else {
      LateStaysQueued(cap, tr, i, k - 1);
      StaysTimedOutAt(cap, tr, k - 1, id);
    }
    TimedOutIsQueuedAt(cap, tr, k, id);
  }

  lemma StaysTimedOutAt(cap: nat, tr: Trace, i: nat, id: JobId)
    requires IsTrace(Chan, cap, tr) && i < |tr.steps| && TimedOut(tr.states[i], id)
    ensures TimedOut(tr.states[i + 1], id)
  {
    InvAt(Chan, cap, tr, i);
    assert Took(tr, i);
    StaysTimedOut(tr.states[i], tr.steps[i], id);
  }

  lemma TimedOutIsQueuedAt(cap: nat, tr: Trace, i: nat, id: JobId)
    requires IsTrace(Chan, cap, tr) && i < |tr.states| && TimedOut(tr.states[i], id)
    ensures id in tr.states[i].db.jobs && tr.states[i].db.jobs[id].status == Queued
  {
    InvAt(Chan, cap, tr, i);
    TimedOutIsHeld(tr.states[i], id);
  }

  lemma BecomesLate(cap: nat, tr: Trace, i: nat)
    requires IsTrace(Chan, cap, tr) && i < |tr.steps| && tr.steps[i].Fail? && tr.steps[i].late
    ensures TimedOut(tr.states[i + 1], Cur(At(tr.states[i], tr.steps[i].w)))
  {
    assert Took(tr, i);
    assert LateWith(tr.states[i + 1], tr.steps[i].w, Cur(At(tr.states[i], tr.steps[i].w)));
  }

  // ----- the three tables -----

  /** If a fetch's price depends on pair and stored instant only, equal keys mean equal prices. */
  ghost predicate PriceFunctional(s: Sys) {
    forall i, j :: i in s.fetched && j in s.fetched && s.fetched[i].Some? && s.fetched[j].Some?
      && KeyOf(s.fetched[i].value, Source(s.mode)) == KeyOf(s.fetched[j].value, Source(s.mode))
      ==> ToNumeric(s.fetched[i].value.price) == ToNumeric(s.fetched[j].value.price)
  }

  /** Every quotes row has its history row, whose price agrees when prices are a function of the key. */
  lemma QuoteHasHistory(s: Sys, p: Pair)
    requires Inv(s) && p in s.db.quotes
    ensures
      var k := HistoryKey(p, s.db.quotes[p].updatedAt, Source(s.mode));
      && k in s.db.history
      && (PriceFunctional(s) ==> s.db.history[k].price == s.db.quotes[p].price)
  {
    var src := Source(s.mode);
    var id :| QuoteBacked(s.db, s.fetched, p, s.db.quotes[p], id);
    var k := KeyOf(s.fetched[id].value, src);
    assert k in s.db.history;
    assert RowBacked(src, s.db, s.fetched, k, s.db.history[k]);
  }

  /** A done job has a history row for its own pair, the instant it fetched and its mode's source. */
  lemma DoneHasHistory(s: Sys, id: JobId)
    requires Inv(s) && id in s.db.jobs && s.db.jobs[id].status == Done
    ensures id in s.fetched && s.fetched[id].Some?
    ensures HistoryKey(s.db.jobs[id].pair, ToMicros(s.fetched[id].value.at), Source(s.mode)) in s.db.history
  {
  }

  /** The three tables agree after every run. */
  lemma TablesAgree(mode: Mode, cap: nat, tr: Trace)
    requires IsTrace(mode, cap, tr)
    ensures
      var s := Last(tr);
      && (forall p :: p in s.db.quotes ==>
            && HistoryKey(p, s.db.quotes[p].updatedAt, Source(mode)) in s.db.history
            && (PriceFunctional(s) ==>
                  s.db.history[HistoryKey(p, s.db.quotes[p].updatedAt, Source(mode))].price == s.db.quotes[p].price))
      && (forall id :: id in s.db.jobs && s.db.jobs[id].status == Done ==>
            && id in s.fetched && s.fetched[id].Some?
            && HistoryKey(s.db.jobs[id].pair, ToMicros(s.fetched[id].value.at), Source(mode)) in s.db.history)
  {
    var s := Last(tr);
    InvAt(mode, cap, tr, |tr.steps|);
    forall p | p in s.db.quotes
      ensures HistoryKey(p, s.db.quotes[p].updatedAt, Source(mode)) in s.db.history
      ensures PriceFunctional(s) ==>
        s.db.history[HistoryKey(p, s.db.quotes[p].updatedAt, Source(mode))].price == s.db.quotes[p].price
    {
      QuoteHasHistory(s, p);
    }
    forall id | id in s.db.jobs && s.db.jobs[id].status == Done
      ensures id in s.fetched && s.fetched[id].Some?
      ensures HistoryKey(s.db.jobs[id].pair, ToMicros(s.fetched[id].value.at), Source(mode)) in s.db.history
    {
      DoneHasHistory(s, id);
    }
  }

  /** The pair's quotes row and the history row of its instant show one price. */
  ghost predicate PricesAgree(src: string, db: Db, p: Pair) {
    p in db.quotes ==>
      var k := HistoryKey(p, db.quotes[p].updatedAt, src);
      k in db.history && db.history[k].price == db.quotes[p].price
  }

  /** A completion leaves its pair's prices equal exactly when history does not hold another price under its key. */
  lemma KeepsPricesEqual(db: Db, id: JobId, q: Quote, src: string, now: Micros, p: Pair)
    requires Complete(db, id, q, src, now).Ok?
    ensures PricesAgree(src, Complete(db, id, q, src, now).value, q.pair)
      <==> (KeyOf(q, src) in db.history ==> db.history[KeyOf(q, src)].price == ToNumeric(q.price))
    ensures p != q.pair ==> (PricesAgree(src, Complete(db, id, q, src, now).value, p) <==> PricesAgree(src, db, p))
  {
    var db' := Complete(db, id, q, src, now).value;
    assert forall k: HistoryKey :: k.pair != q.pair ==>
      (k in db.history <==> k in db'.history) && (k in db.history ==> db'.history[k] == db.history[k]);
  }

  /**
   After any run the prices of a pair agree exactly when the first commit with the key of the pair's
   last committed quote had that quote's price.
   */
  lemma PricesAgreeExactly(mode: Mode, cap: nat, tr: Trace, p: Pair)
    requires IsTrace(mode, cap, tr) && p in Last(tr).db.quotes
    ensures LastQuote(Last(tr).log, p).Some?
    ensures
      var log, last := Last(tr).log, LastQuote(Last(tr).log, p).value;
      && FirstWith(Source(mode), log, KeyOf(last, Source(mode))).Some?
      && var first := FirstWith(Source(mode), log, KeyOf(last, Source(mode))).value;
      && first.Completed?
      && (PricesAgree(Source(mode), Last(tr).db, p) <==> ToNumeric(first.quote.price) == ToNumeric(last.price))
  {
    var s, src := Last(tr), Source(mode);
    InvAt(mode, cap, tr, |tr.steps|);
    QuotesAreLastCommitted(src, s.log, p);
    var i := LastQuoteIndex(s.log, p);
    FirstWithFinds(src, s.log, i);
    HistoryIsFirstCommitted(src, s.log, KeyOf(s.log[i].quote, src));
  }

  /** The committed tables are those of running the commits one at a time, in commit order. */
  lemma SerialEquivalence(mode: Mode, cap: nat, tr: Trace)
    requires IsTrace(mode, cap, tr)
    ensures Replay(Source(mode), Last(tr).log) == Ok(Last(tr).db)
  {
    InvAt(mode, cap, tr, |tr.steps|);
  }

  /** So the quotes table is the last commit of each pair, and history the first commit of each key. */
  lemma TablesFromLog(s: Sys, p: Pair, k: HistoryKey)
    requires Inv(s)
    ensures p in s.db.quotes <==> LastQuote(s.log, p).Some?
    ensures p in s.db.quotes ==> s.db.quotes[p] == QuoteRowOf(LastQuote(s.log, p).value)
    ensures k in s.db.history <==> FirstWith(Source(s.mode), s.log, k).Some?
    ensures k in s.db.history ==>
      var ev := FirstWith(Source(s.mode), s.log, k).value;
      ev.Completed? && s.db.history[k] == HistoryRowOf(ev.quote, ev.id)
  {
    QuotesAreLastCommitted(Source(s.mode), s.log, p);
    HistoryIsFirstCommitted(Source(s.mode), s.log, k);
  }

  /** Event i completes the job, and no commit before it used the key. */
  ghost predicate CompletesFirst(src: string, log: seq<Event>, i: nat, id: JobId, k: HistoryKey) {
    && i < |log| && log[i].Completed? && log[i].id == id && KeyOf(log[i].quote, src) == k
    && forall j :: 0 <= j < i && log[j].Completed? ==> KeyOf(log[j].quote, src) != k
  }

  /**
   "History records every retrieved rate", for any rate a job fetched: it has a row exactly when the
   job's completion was committed and no earlier commit used its key.  The row is that rate's, and a
   job that was given up after its fetch never has one.
   */
  lemma OwnHistoryRow(mode: Mode, cap: nat, tr: Trace, id: JobId)
    requires IsTrace(mode, cap, tr) && id in Last(tr).fetched && Last(tr).fetched[id].Some?
    ensures
      var s, q := Last(tr), Last(tr).fetched[id].value;
      && ((exists k :: RowOf(s.db, id, k)) <==>
            exists i: nat :: CompletesFirst(Source(mode), s.log, i, id, KeyOf(q, Source(mode))))
      && (forall k :: RowOf(s.db, id, k) ==> k == KeyOf(q, Source(mode)) && s.db.history[k] == HistoryRowOf(q, id))
      && (id in s.lost ==> !exists k :: RowOf(s.db, id, k))
  {
    var s, q, src := Last(tr), Last(tr).fetched[id].value, Source(mode);
    var key := KeyOf(q, src);
    InvAt(mode, cap, tr, |tr.steps|);
    HistoryIsFirstCommitted(src, s.log, key);
    forall k | RowOf(s.db, id, k)
      ensures k == key && s.db.history[k] == HistoryRowOf(q, id) && id !in s.lost
      ensures exists i: nat :: CompletesFirst(src, s.log, i, id, key)
    {
      RowIsOwn(s, id, k);
      var i := FirstWithIndex(src, s.log, key);
      assert CompletesFirst(src, s.log, i, id, key);
    }
    if i: nat :| CompletesFirst(src, s.log, i, id, key) {
      FirstIsThat(src, s.log, i, id, key);
      assert RowOf(s.db, id, key);
    }
  }

  lemma RowIsOwn(s: Sys, id: JobId, k: HistoryKey)
    requires Inv(s) && RowOf(s.db, id, k)
    ensures id in s.fetched && s.fetched[id].Some? && id !in s.lost
    ensures k == KeyOf(s.fetched[id].value, Source(s.mode)) && s.db.history[k] == HistoryRowOf(s.fetched[id].value, id)
  {
    assert HistoryOk(Source(s.mode), s.db, s.fetched);
    assert RowBacked(Source(s.mode), s.db, s.fetched, k, s.db.history[k]);
  }

  lemma FirstIsThat(src: string, log: seq<Event>, i: nat, id: JobId, k: HistoryKey)
    requires CompletesFirst(src, log, i, id, k)
    ensures FirstWith(src, log, k) == Some(log[i])
  {
    FirstWithFinds(src, log, i);
    var j := FirstWithIndex(src, log, k);
  }

  /** The quotes row of a pair is at least as new as every history row of the pair. */
  ghost predicate Newest(db: Db, p: Pair) {
    forall k :: k in db.history && k.pair == p ==> p in db.quotes && k.quotedAt <= db.quotes[p].updatedAt
  }

  /**
   Whatever the tables were, a completion leaves its pair's quotes row the newest exactly when history
   holds nothing newer of the pair; the rows of other pairs are as new as they were.
   */
  lemma KeepsNewest(db: Db, id: JobId, q: Quote, src: string, now: Micros, p: Pair)
    requires Complete(db, id, q, src, now).Ok?
    ensures Newest(Complete(db, id, q, src, now).value, q.pair)
      <==> forall k :: k in db.history && k.pair == q.pair ==> k.quotedAt <= ToMicros(q.at)
    ensures p != q.pair ==> (Newest(Complete(db, id, q, src, now).value, p) <==> Newest(db, p))
  {
    var db' := Complete(db, id, q, src, now).value;
    assert forall k :: k in db.history ==> k in db'.history;
    assert forall k :: k in db'.history ==> k in db.history || k == KeyOf(q, src);
  }

  /** A completion gets a history row of its own exactly when history does not hold its key already. */
  lemma GetsOwnRow(db: Db, id: JobId, q: Quote, src: string, now: Micros)
    requires Complete(db, id, q, src, now).Ok? && forall k :: !RowOf(db, id, k)
    ensures (exists k :: RowOf(Complete(db, id, q, src, now).value, id, k)) <==> KeyOf(q, src) !in db.history
  {
    var db' := Complete(db, id, q, src, now).value;
    if KeyOf(q, src) !in db.history {
      assert RowOf(db', id, KeyOf(q, src));
    } else {
      assert forall k :: RowOf(db', id, k) ==> RowOf(db, id, k);
    }
  }

  /**
   After any run the quotes row is the newest quote of its pair exactly when no earlier commit of the
   pair was newer than the last.
   */
  lemma NewestExactly(mode: Mode, cap: nat, tr: Trace, p: Pair)
    requires IsTrace(mode, cap, tr)
    ensures
      var log := Last(tr).log;
      Newest(Last(tr).db, p) <==>
        forall i :: 0 <= i < |log| && log[i].Completed? && log[i].quote.pair == p ==>
          LastQuote(log, p).Some? && ToMicros(log[i].quote.at) <= ToMicros(LastQuote(log, p).value.at)
  {
    var s, src := Last(tr), Source(mode);
    InvAt(mode, cap, tr, |tr.steps|);
    QuotesAreLastCommitted(src, s.log, p);
    forall k | k in s.db.history && k.pair == p
      ensures exists i :: 0 <= i < |s.log| && s.log[i].Completed? && KeyOf(s.log[i].quote, src) == k
    {
      HistoryIsFirstCommitted(src, s.log, k);
      var i := FirstWithIndex(src, s.log, k);
    }
    forall i | 0 <= i < |s.log| && s.log[i].Completed? ensures KeyOf(s.log[i].quote, src) in s.db.history {
      FirstWithFinds(src, s.log, i);
      HistoryIsFirstCommitted(src, s.log, KeyOf(s.log[i].quote, src));
    }
  }

  // ----- polling a job -----

  datatype View = View(pair: Pair, status: Status, error: Option<string>, updatedAt: Micros, price: Option<int>)

  ghost predicate RowOf(db: Db, id: JobId, k: HistoryKey) {
    k in db.history && db.history[k].updateId == id
  }

  /** ORDER BY quoted_at DESC LIMIT 1 over the history rows of the job. */
  ghost predicate LatestRow(db: Db, id: JobId, k: HistoryKey) {
    RowOf(db, id, k) && forall k' :: RowOf(db, id, k') ==> k'.quotedAt <= k.quotedAt
  }

  ghost function GetById(db: Db, id: JobId): Result<View> {
    if id !in db.jobs then Err("not found")
    else
      var row := db.jobs[id];
      if k :| LatestRow(db, id, k)
      then Ok(View(row.pair, row.status, row.error, k.quotedAt, Some(db.history[k].price)))
      else Ok(View(row.pair, row.status, row.error,
        if row.completedAt.Some? then row.completedAt.value else row.requestedAt, None))
  }

  function RowsOf(db: Db, id: JobId): set<HistoryKey> {
    set k | k in db.history && db.history[k].updateId == id
  }

  lemma {:induction false} LatestOf(keys: set<HistoryKey>) returns (k: HistoryKey)
    requires keys != {}
    ensures k in keys && forall k' :: k' in keys ==> k'.quotedAt <= k.quotedAt
  {
    k :| k in keys;
    if keys != {k} {
      var k' := LatestOf(keys - {k});
      k := if k'.quotedAt > k.quotedAt then k' else k;
    }
  }

  /**
   Whatever the tables hold: an unknown id is not found; a known one shows its row, with price and
   instant of its newest history row, or without one no price and the time it ended or was asked for.
   */
  lemma GetByIdShows(db: Db, id: JobId)
    ensures id !in db.jobs ==> GetById(db, id) == Err("not found")
    ensures id in db.jobs ==>
      var row := db.jobs[id];
      && (RowsOf(db, id) != {} ==>
            exists k ::
              && k in RowsOf(db, id) && (forall k' :: k' in RowsOf(db, id) ==> k'.quotedAt <= k.quotedAt)
              && GetById(db, id) == Ok(View(row.pair, row.status, row.error, k.quotedAt, Some(db.history[k].price))))
      && (RowsOf(db, id) == {} && row.completedAt.Some? ==>
            GetById(db, id) == Ok(View(row.pair, row.status, row.error, row.completedAt.value, None)))
      && (RowsOf(db, id) == {} && row.completedAt.None? ==>
            GetById(db, id) == Ok(View(row.pair, row.status, row.error, row.requestedAt, None)))
  {
    if RowsOf(db, id) != {} {
      var k := LatestOf(RowsOf(db, id));
      assert LatestRow(db, id, k);
    } else {
      forall k ensures !RowOf(db, id, k) {
        assert k !in RowsOf(db, id);
      }
    }
  }

  /** Every history row names the worker mode its rate came through. */
  lemma RowsNameTheMode(mode: Mode, cap: nat, tr: Trace, k: HistoryKey)
    requires IsTrace(mode, cap, tr) && k in Last(tr).db.history
    ensures mode.DbPoll? ==> k.source == "db"
    ensures mode.Chan? ==> k.source == "chan"
    ensures mode.Grpc? ==> k.source == "grpc"
  {
    InvAt(mode, cap, tr, |tr.steps|);
    var s := Last(tr);
    assert RowBacked(Source(mode), s.db, s.fetched, k, s.db.history[k]);
  }

  lemma OneRowEach(s: Sys, id: JobId, k: HistoryKey, k': HistoryKey)
    requires Inv(s) && RowOf(s.db, id, k) && RowOf(s.db, id, k')
    ensures k == k' && s.db.jobs[id].status == Done
    ensures s.fetched[id].Some? && k == KeyOf(s.fetched[id].value, Source(s.mode))
  {
    assert HistoryOk(Source(s.mode), s.db, s.fetched);
    assert RowBacked(Source(s.mode), s.db, s.fetched, k, s.db.history[k]);
    assert RowBacked(Source(s.mode), s.db, s.fetched, k', s.db.history[k']);
  }

  /** A poll never shows a price on an unfinished job, and what it shows is the job's own history row. */
  lemma PollerView(mode: Mode, cap: nat, tr: Trace, id: JobId)
    requires IsTrace(mode, cap, tr) && id in Last(tr).db.jobs
    ensures
      var s := Last(tr);
      var row := s.db.jobs[id];
      && GetById(s.db, id).Ok?
      && var v := GetById(s.db, id).value;
      && v.pair == row.pair && v.status == row.status && v.error == row.error
      && (v.price.Some? ==> v.status == Done)
      && (v.price.Some? <==> exists k :: RowOf(s.db, id, k))
      && (forall k :: RowOf(s.db, id, k) ==> v.price == Some(s.db.history[k].price) && v.updatedAt == k.quotedAt)
      && (v.price.None? ==>
            if v.status.Terminal() then row.completedAt == Some(v.updatedAt) else v.updatedAt == row.requestedAt)
      && (forall k, k' :: RowOf(s.db, id, k) && RowOf(s.db, id, k') ==> k == k')
  {
    var s := Last(tr);
    InvAt(mode, cap, tr, |tr.steps|);
    RowShape(s, id);
    forall k, k' | RowOf(s.db, id, k) && RowOf(s.db, id, k') ensures k == k' && s.db.jobs[id].status == Done {
      OneRowEach(s, id, k, k');
    }
    if k :| RowOf(s.db, id, k) {
      assert LatestRow(s.db, id, k);
    }
  }

  // ----- conservation -----

  function Count(b: bool): nat { if b then 1 else 0 }

  /** In how many of the places a job can be it is. */
  ghost function Places(s: Sys, id: JobId): nat
    requires id in s.db.jobs
  {
    var st := s.db.jobs[id].status;
    Count(s.mode.DbPoll? && st == Queued) + Count(id in s.inbox) + Count(id in s.buf) + Count(InHand(s, id))
    + Count(id in s.lost) + Count(st == Done) + Count(st == Failed)
  }

  lemma OnePlace(s: Sys, id: JobId)
    requires Inv(s) && id in s.db.jobs
    ensures Places(s, id) == 1
  {
    if w :| HeldBy(s, w, id) {
      assert ActorOk(s, At(s, w));
    }
  }

  /**
   A created job is waiting, in the inbox, in the channel, in one actor's hands, lost, done or
   failed: never two, never none.
   */
  lemma Conservation(mode: Mode, cap: nat, tr: Trace, id: JobId)
    requires IsTrace(mode, cap, tr) && id in Last(tr).db.jobs
    ensures Places(Last(tr), id) == 1
    ensures forall v, w :: HeldBy(Last(tr), v, id) && HeldBy(Last(tr), w, id) ==> v == w
    ensures |Last(tr).buf| <= Last(tr).cap
  {
    var s := Last(tr);
    InvAt(mode, cap, tr, |tr.steps|);
    OnePlace(s, id);
    forall v, w | HeldBy(s, v, id) && HeldBy(s, w, id) ensures v == w {
      HeldByOne(s, v, w, id);
    }
  }

  /** The steps at which an error makes the system give a job up. */
  predicate Drops(s: Sys, st: Step, id: JobId) {
    match st
    case Reject(j) => j == id
    case Lose(w) => At(s, w).pc.Scanning? && id in At(s, w).pc.picked
    case WriteFailed(w, _, ok) => !ok && id == Cur(At(s, w))
    case Abandon(w, _) => id == Cur(At(s, w))
    case _ => false
  }

  lemma NewlyLost(s: Sys, st: Step, id: JobId)
    requires Enabled(s, st) && id !in s.lost && id in Next(s, st).lost
    ensures Drops(s, st, id)
  {
  }

  /**
   A lost job was dropped by a rejected message, a failed claim read, a failed status write or a
   failed transaction.
   */
  lemma {:induction false} LostBecause(mode: Mode, cap: nat, tr: Trace, n: nat, id: JobId) returns (i: nat)
    requires IsTrace(mode, cap, tr) && n < |tr.states| && id in tr.states[n].lost
    ensures i < n && Drops(tr.states[i], tr.steps[i], id)
  {
    assert n > 0;
    assert Took(tr, n - 1);
    if id in tr.states[n - 1].lost {
      i := LostBecause(mode, cap, tr, n - 1, id);
    } else {
      i := n - 1;
      NewlyLost(tr.states[i], tr.steps[i], id);
    }
  }

  // ----- the channel's order -----

  lemma FifoStep(s: Sys, st: Step)
    requires Owned(s) && s.mode.Chan? && Enabled(s, st)
    ensures s.delivered + s.buf <= Next(s, st).delivered + Next(s, st).buf
  {
    assert st.Return? ==> ActorOk(s, At(s, st.w));
    HandsOutDelivers(s, st);
    if st.Receive? {
      assert s.delivered + s.buf == s.delivered + [s.buf[0]] + s.buf[1..];
    }
  }

  /** Jobs reach the workers in the order in which the channel took them. */
  lemma {:induction false} Fifo(cap: nat, tr: Trace, i: nat, k: nat)
    requires IsTrace(Chan, cap, tr) && i <= k < |tr.states|
    ensures tr.states[i].delivered + tr.states[i].buf <= tr.states[k].delivered + tr.states[k].buf
  {
    if i < k {
      Fifo(cap, tr, i, k - 1);
      FifoAt(cap, tr, k - 1);
    }
  }

  lemma FifoAt(cap: nat, tr: Trace, i: nat)
    requires IsTrace(Chan, cap, tr) && i < |tr.steps|
    ensures tr.states[i].delivered + tr.states[i].buf <= tr.states[i + 1].delivered + tr.states[i + 1].buf
  {
    InvAt(Chan, cap, tr, i);
    assert Took(tr, i);
    FifoStep(tr.states[i], tr.steps[i]);
  }
}
