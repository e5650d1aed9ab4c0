/**
 Serial equivalence.  Replay runs the logged commits one at a time, each as one uninterrupted action;
 the interleaved statements of the machine always leave exactly the tables Replay computes.
 */
module Serial {
  import opened Prelude
  import opened Tables
  import opened Machine
  import opened Ownership

  /** One commit run alone.  A claim run alone finds every row it takes queued. */
  function Apply(src: string, db: Db, ev: Event): Result<Db> {
    match ev
    case Created(id, pair, at) => InsertJob(db, id, pair, at)
    case Claimed(ids) =>
      if forall id :: id in ids ==> id in db.jobs && db.jobs[id].status == Queued
      then Ok(db.(jobs := MarkClaimed(db.jobs, ids)))
      else Err("not queued")
    case Marked(id) => UpdateStatus(db, id, Processing, None, 0)
    case GaveUp(id, msg, at) => UpdateStatus(db, id, Failed, Some(msg), at)
    case Completed(id, q, at) => Complete(db, id, q, src, at)
  }

  function Replay(src: string, log: seq<Event>): Result<Db> {
    if log == [] then Ok(EMPTY_DB) else
    match Replay(src, log[..|log| - 1])
    case Err(e) => Err(e)
    case Ok(db) => Apply(src, db, log[|log| - 1])
  }

  lemma ReplayAppend(src: string, log: seq<Event>, ev: Event)
    requires Replay(src, log).Ok?
    ensures Replay(src, log + [ev]) == Apply(src, Replay(src, log).value, ev)
  {
    assert (log + [ev])[..|log|] == log;
  }

  ghost predicate SerialOk(s: Sys) {
    Replay(Source(s.mode), s.log) == Ok(s.db)
  }

  /** The writes a transaction buffered, under locks, are what the three statements would do now. */
  lemma CommitIsSerial(s: Sys, w: nat)
    requires Owned(s) && CanCommit(s, w)
    ensures Complete(s.db, Cur(At(s, w)), At(s, w).pc.quote, Source(s.mode), At(s, w).pc.at)
         == Ok(Flush(s.mode, s.db, At(s, w)))
  {
    var a := At(s, w);
    assert ActorOk(s, a);
  }

  /** The rows a claim picked, under its locks, are still queued when it commits. */
  lemma ClaimIsSerial(s: Sys, w: nat, ids: set<JobId>)
    requires Owned(s) && At(s, w).pc.Scanning? && ids == Elements(At(s, w).pc.picked)
    ensures Apply(Source(s.mode), s.db, Claimed(ids)) == Ok(s.db.(jobs := MarkClaimed(s.db.jobs, ids)))
  {
    assert ActorOk(s, At(s, w));
  }

  /** The steps that commit something. */
  predicate Commits(st: Step) {
    match st
    case Create(_, _, _) => true
    case Return(_, _) => true
    case Lose(_) => true
    case Commit(_) => true
    case Mark(_, ok) => ok
    case WriteFailed(_, _, ok) => ok
    case _ => false
  }

  lemma QuietStep(s: Sys, st: Step)
    requires Enabled(s, st) && !Commits(st)
    ensures Next(s, st).db == s.db && Next(s, st).mode == s.mode && Next(s, st).log == s.log
    ensures !st.Fetch? && !st.Fail? ==> Next(s, st).fetched == s.fetched
  {
  }

  /** A committing step logs one event, and that event run alone gives the same tables. */
  lemma LoudStep(s: Sys, st: Step) returns (ev: Event)
    requires Owned(s) && Enabled(s, st) && Commits(st)
    ensures Next(s, st).log == s.log + [ev] && Next(s, st).mode == s.mode
    ensures ev.Completed? <==> st.Commit?
    ensures Apply(Source(s.mode), s.db, ev) == Ok(Next(s, st).db)
  {
    ev := Next(s, st).log[|s.log|];
    match st
    case Create(id, pair, at) =>
    case Return(w, out) =>
      PermutationElements(At(s, w).pc.picked, out);
      ClaimIsSerial(s, w, Elements(out));
    case Lose(w) => ClaimIsSerial(s, w, Elements(At(s, w).pc.picked));
    case Commit(w) => CommitIsSerial(s, w);
    case Mark(w, _) =>
    case WriteFailed(w, at, _) =>
  }

  lemma NextSerial(s: Sys, st: Step)
    requires Owned(s) && SerialOk(s) && Enabled(s, st)
    ensures SerialOk(Next(s, st))
  {
    if Commits(st) {
      var ev := LoudStep(s, st);
      ReplayAppend(Source(s.mode), s.log, ev);
    } else {
      QuietStep(s, st);
    }
  }

  // ----- what a replayed log leaves in each table -----

  /** The last quote committed for a pair. */
  function LastQuote(log: seq<Event>, p: Pair): Option<Quote> {
    if log == [] then None
    else
      var ev := log[|log| - 1];
      if ev.Completed? && ev.quote.pair == p then Some(ev.quote) else LastQuote(log[..|log| - 1], p)
  }

  /** The first completion committed with a history key. */
  function FirstWith(src: string, log: seq<Event>, k: HistoryKey): Option<Event> {
    if log == [] then None
    else
      var ev, earlier := log[|log| - 1], FirstWith(src, log[..|log| - 1], k);
      if earlier.Some? then earlier
      else if ev.Completed? && KeyOf(ev.quote, src) == k then Some(ev)
      else None
  }

  /** The quotes row of a pair is the last quote committed for it, and there is no other row. */
  lemma {:induction false} QuotesAreLastCommitted(src: string, log: seq<Event>, p: Pair)
    requires Replay(src, log).Ok?
    ensures p in Replay(src, log).value.quotes <==> LastQuote(log, p).Some?
    ensures LastQuote(log, p).Some? ==> Replay(src, log).value.quotes[p] == QuoteRowOf(LastQuote(log, p).value)
  {
    if log != [] {
      QuotesAreLastCommitted(src, log[..|log| - 1], p);
    }
  }

  /** History is append-only: the row under a key is the first one committed with it. */
  lemma {:induction false} HistoryIsFirstCommitted(src: string, log: seq<Event>, k: HistoryKey)
    requires Replay(src, log).Ok?
    ensures k in Replay(src, log).value.history <==> FirstWith(src, log, k).Some?
    ensures FirstWith(src, log, k).Some? ==>
      && FirstWith(src, log, k).value.Completed?
      && Replay(src, log).value.history[k]
        == HistoryRowOf(FirstWith(src, log, k).value.quote, FirstWith(src, log, k).value.id)
  {
    if log != [] {
      HistoryIsFirstCommitted(src, log[..|log| - 1], k);
    }
  }

  lemma {:induction false} FirstWithIndex(src: string, log: seq<Event>, k: HistoryKey) returns (i: nat)
    requires FirstWith(src, log, k).Some?
    ensures i < |log| && log[i] == FirstWith(src, log, k).value
    ensures log[i].Completed? && KeyOf(log[i].quote, src) == k
    ensures forall j :: 0 <= j < i ==> log[j].Completed? ==> KeyOf(log[j].quote, src) != k
  {
    var prefix := log[..|log| - 1];
    if FirstWith(src, prefix, k).Some? {
      i := FirstWithIndex(src, prefix, k);
    } else {
      i := |log| - 1;
      forall j | 0 <= j < i && log[j].Completed? ensures KeyOf(log[j].quote, src) != k {
        FirstWithFinds(src, prefix, j);
      }
    }
  }

  lemma {:induction false} LastQuoteIndex(log: seq<Event>, p: Pair) returns (i: nat)
    requires LastQuote(log, p).Some?
    ensures i < |log| && log[i].Completed? && log[i].quote == LastQuote(log, p).value && log[i].quote.pair == p
  {
    var n := |log| - 1;
    if log[n].Completed? && log[n].quote.pair == p {
      i := n;
    } else {
      i := LastQuoteIndex(log[..n], p);
    }
  }

  lemma {:induction false} FirstWithFinds(src: string, log: seq<Event>, j: nat)
    requires j < |log| && log[j].Completed?
    ensures FirstWith(src, log, KeyOf(log[j].quote, src)).Some?
  {
    if j < |log| - 1 {
      FirstWithFinds(src, log[..|log| - 1], j);
    }
  }
}
