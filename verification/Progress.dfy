/**
 Every run can be finished.  From any reachable state, if from then on nothing fails for an outside
 reason, every job whose rate is not fetched yet is completed, and every other one is completed,
 marked failed or given up as its fetch decided.
 */
module Progress {
  import opened Prelude
  import opened Tables
  import opened Machine
  import opened Ownership
  import opened Serial
  import opened Consistency
  import opened Guarantees
  import opened Locks

  // ----- steps that do not fail -----

  /** Nothing fails but what must: a price that does not fit its column, and a write on an expired context. */
  predicate Smooth(s: Sys, st: Step) {
    match st
    case Create(_, _, _) => false
    case Reject(_) => false
    case Lose(_) => false
    case Cancel(_) => false
    case Fail(_, _, _) => false
    case Fetch(_, q) => Fits(q.price)
    case WriteFailed(w, _, ok) => At(s, w).pc.Failing? && (ok <==> !At(s, w).pc.late)
    case Abandon(w, _) => At(s, w).pc.Appending? && !Fits(At(s, w).pc.quote.price)
    case _ => true
  }

  /** The job is done, or nothing yet stands in the way of that. */
  ghost predicate Hopeful(s: Sys, id: JobId) {
    && id in s.db.jobs
    && (s.db.jobs[id].status == Done || (
      && !s.db.jobs[id].status.Terminal() && id !in s.lost
      && (id in s.fetched ==> s.fetched[id].Some? && Fits(s.fetched[id].value.price))))
  }

  /** The job's fetch failed in time, and that is recorded or about to be. */
  ghost predicate Recordable(s: Sys, id: JobId) {
    id in s.db.jobs && (s.db.jobs[id].status == Failed || exists w :: FailingWith(s, w, id))
  }

  ghost predicate FailingWith(s: Sys, w: nat, id: JobId) {
    w in s.actors && s.actors[w].pc.Failing? && !s.actors[w].pc.late && Cur(s.actors[w]) == id
  }

  ghost predicate Onward(s: Sys, s': Sys) {
    && Grows(s, s') && s'.db.jobs.Keys == s.db.jobs.Keys
    && (forall id :: Hopeful(s, id) ==> Hopeful(s', id))
    && (forall id :: Recordable(s, id) ==> Recordable(s', id))
  }

  lemma OnwardTransitive(a: Sys, b: Sys, c: Sys)
    requires Onward(a, b) && Onward(b, c)
    ensures Onward(a, c)
  {
    GrowsTransitive(a, b, c);
  }

  /** A step that loses a job loses one whose rate does not fit, or whose fetch failed. */
  lemma SmoothLoses(s: Sys, st: Step, id: JobId)
    requires Owned(s) && Enabled(s, st) && Smooth(s, st) && id !in s.lost && id in Next(s, st).lost
    ensures !Hopeful(s, id)
  {
    NewlyLost(s, st, id);
    assert ActorOk(s, At(s, st.w)) && Cur(At(s, st.w)) in At(s, st.w).work;
  }

  lemma SmoothFetches(s: Sys, st: Step, id: JobId)
    requires Owned(s) && Enabled(s, st) && Smooth(s, st) && Hopeful(s, id) && s.db.jobs[id].status != Done
    requires id in Next(s, st).fetched
    ensures Next(s, st).fetched[id].Some? && Fits(Next(s, st).fetched[id].value.price)
  {
    if !st.Fetch? {
      OnlyFetches(s, st);
    }
  }

  lemma OnlyFetches(s: Sys, st: Step)
    requires Enabled(s, st) && !st.Fetch? && !st.Fail?
    ensures Next(s, st).fetched == s.fetched
  {
  }

  lemma SmoothEnds(s: Sys, st: Step, id: JobId)
    requires Owned(s) && Enabled(s, st) && Smooth(s, st) && Hopeful(s, id)
    requires id in Next(s, st).db.jobs && Next(s, st).db.jobs[id].status.Terminal()
    ensures Next(s, st).db.jobs[id].status == Done
  {
    if st.WriteFailed? {
      assert ActorOk(s, At(s, st.w)) && Cur(At(s, st.w)) in At(s, st.w).work;
    } else if st.Commit? {
      assert ActorOk(s, At(s, st.w));
    } else if !Commits(st) {
      QuietStep(s, st);
    }
  }

  lemma SmoothKeepsHope(s: Sys, st: Step, id: JobId)
    requires Owned(s) && Enabled(s, st) && Smooth(s, st) && Hopeful(s, id)
    ensures Hopeful(Next(s, st), id)
  {
    NextGrows(s, st);
    if s.db.jobs[id].status != Done {
      if id in Next(s, st).lost {
        SmoothLoses(s, st, id);
      }
      if id in Next(s, st).fetched {
        SmoothFetches(s, st, id);
      }
      if Next(s, st).db.jobs[id].status.Terminal() {
        SmoothEnds(s, st, id);
      }
    }
  }

  lemma SmoothRecords(s: Sys, st: Step, id: JobId)
    requires Owned(s) && Enabled(s, st) && Smooth(s, st) && Recordable(s, id)
    ensures Recordable(Next(s, st), id)
  {
    NextGrows(s, st);
    if w :| FailingWith(s, w, id) {
      FailingMoves(s, st, w, id);
    }
  }

  lemma FailingMoves(s: Sys, st: Step, w: nat, id: JobId)
    requires Owned(s) && Enabled(s, st) && Smooth(s, st) && FailingWith(s, w, id)
    ensures FailingWith(Next(s, st), w, id) || (id in Next(s, st).db.jobs && Next(s, st).db.jobs[id].status == Failed)
  {
    assert ActorOk(s, At(s, w)) && id in At(s, w).work;
    if st.WriteFailed? && st.w == w {
      assert Next(s, st) == DoWriteFailed(s, w, st.at, true);
    } else {
      OtherLeavesFailing(s, st, w);
    }
  }

  lemma OtherLeavesFailing(s: Sys, st: Step, w: nat)
    requires Enabled(s, st) && w in s.actors && s.actors[w].pc.Failing? && !(st.WriteFailed? && st.w == w)
    ensures w in Next(s, st).actors && Next(s, st).actors[w] == s.actors[w]
  {
  }

  lemma SmoothIsOnward(s: Sys, st: Step)
    requires Owned(s) && Enabled(s, st) && Smooth(s, st)
    ensures Onward(s, Next(s, st))
  {
    NextGrows(s, st);
    OnlyCreateAdds(s, st);
    forall id | Hopeful(s, id) ensures Hopeful(Next(s, st), id) {
      SmoothKeepsHope(s, st, id);
    }
    forall id | Recordable(s, id) ensures Recordable(Next(s, st), id) {
      SmoothRecords(s, st, id);
    }
  }

  // ----- one actor, while no one else is in a claim or transaction -----

  /** Nobody but w is in a claim or a transaction; they may hold jobs. */
  ghost predicate Alone(s: Sys, w: nat) {
    forall v :: v != w ==> !Busy(At(s, v).pc)
  }

  ghost predicate Calm(s: Sys) {
    forall v :: !Busy(At(s, v).pc)
  }

  /** The second run continues the first, and on the way no job loses what it could hope for. */
  ghost predicate Leads(mode: Mode, cap: nat, tr: Trace, tr': Trace) {
    && IsTrace(mode, cap, tr) && IsTrace(mode, cap, tr') && Continues(tr, tr')
    && Onward(Last(tr), Last(tr'))
  }

  lemma LeadsTransitive(mode: Mode, cap: nat, a: Trace, b: Trace, c: Trace)
    requires Leads(mode, cap, a, b) && Leads(mode, cap, b, c)
    ensures Leads(mode, cap, a, c)
  {
    OnwardTransitive(Last(a), Last(b), Last(c));
  }

  lemma LeadsItself(mode: Mode, cap: nat, tr: Trace)
    requires IsTrace(mode, cap, tr)
    ensures Leads(mode, cap, tr, tr)
  {
    InvAt(mode, cap, tr, |tr.steps|);
    GrowsReflexive(Last(tr));
  }

  lemma SmoothStep(mode: Mode, cap: nat, tr: Trace, st: Step) returns (tr': Trace)
    requires IsTrace(mode, cap, tr) && Enabled(Last(tr), st) && Smooth(Last(tr), st)
    ensures Leads(mode, cap, tr, tr') && Last(tr') == Next(Last(tr), st)
  {
    OnwardAt(mode, cap, tr, |tr.steps|, st);
    tr' := Extend(tr, st);
    ExtendTrace(mode, cap, tr, st);
  }

  lemma OnwardAt(mode: Mode, cap: nat, tr: Trace, i: nat, st: Step)
    requires IsTrace(mode, cap, tr) && i < |tr.states| && Enabled(tr.states[i], st) && Smooth(tr.states[i], st)
    ensures Onward(tr.states[i], Next(tr.states[i], st))
  {
    InvAt(mode, cap, tr, i);
    SmoothIsOnward(tr.states[i], st);
  }

  /** A step of w that follows others, nobody else being busy. */
  lemma Then(mode: Mode, cap: nat, first: Trace, tr: Trace, w: nat, st: Step) returns (tr': Trace)
    requires Leads(mode, cap, first, tr) && Enabled(Last(tr), st) && Smooth(Last(tr), st) && Alone(Last(tr), w)
    requires Next(Last(tr), st).actors == Last(tr).actors[w := At(Next(Last(tr), st), w)]
    ensures Leads(mode, cap, first, tr') && Last(tr') == Next(Last(tr), st) && Alone(Last(tr'), w)
  {
    tr' := SmoothStep(mode, cap, tr, st);
    LeadsTransitive(mode, cap, first, tr, tr');
    StaysAlone(Last(tr), Last(tr'), w);
  }

  lemma StaysAlone(s: Sys, s': Sys, w: nat)
    requires Alone(s, w) && s'.actors == s.actors[w := At(s', w)]
    ensures Alone(s', w)
  {
    forall v | v != w ensures !Busy(At(s', v).pc) {
      assert At(s', v) == At(s, v);
    }
  }

  /** Who is not busy holds no lock. */
  lemma FreeWhenAlone(s: Sys, w: nat)
    requires Alone(s, w)
    ensures forall id :: JobFree(s, w, id) && ShareFree(s, w, id) && ClaimFree(s, w, id)
    ensures forall k :: HistoryFree(s, w, k)
    ensures forall p :: QuoteFree(s, w, p)
  {
    assert forall v :: v in s.actors && v != w ==> s.actors[v] == At(s, v);
  }

  /** Everything but the actors and what they were handed and fetched. */
  ghost predicate SameTables(s: Sys, s': Sys) {
    s'.mode == s.mode && s'.db == s.db && s'.inbox == s.inbox && s'.buf == s.buf && s'.log == s.log
  }

  lemma HasRow(mode: Mode, cap: nat, tr: Trace, w: nat)
    requires IsTrace(mode, cap, tr) && At(Last(tr), w).work != []
    ensures Cur(At(Last(tr), w)) in Last(tr).db.jobs && Last(tr).mode == mode
  {
    InvAt(mode, cap, tr, |tr.steps|);
    assert ActorOk(Last(tr), At(Last(tr), w)) && Cur(At(Last(tr), w)) in At(Last(tr), w).work;
  }

  /** From a fetched quote to the history insert. */
  lemma Begins(mode: Mode, cap: nat, first: Trace, tr: Trace, w: nat, at: Micros) returns (tr': Trace)
    requires Leads(mode, cap, first, tr) && Alone(Last(tr), w) && At(Last(tr), w).pc.Opening?
    ensures Leads(mode, cap, first, tr') && Alone(Last(tr'), w) && SameTables(Last(tr), Last(tr'))
    ensures At(Last(tr'), w) == At(Last(tr), w).(pc := Appending(At(Last(tr), w).pc.quote, at))
  {
    tr' := Then(mode, cap, first, tr, w, Begin(w, at));
  }

  /** The history insert, with its reference check if it wrote a row. */
  lemma Appends(mode: Mode, cap: nat, first: Trace, tr: Trace, w: nat) returns (tr': Trace)
    requires Leads(mode, cap, first, tr) && Alone(Last(tr), w) && At(Last(tr), w).pc.Appending?
    requires At(Last(tr), w).work != [] && Fits(At(Last(tr), w).pc.quote.price)
    ensures Leads(mode, cap, first, tr') && Alone(Last(tr'), w) && SameTables(Last(tr), Last(tr'))
    ensures At(Last(tr'), w).pc.Upserting? && At(Last(tr'), w).work == At(Last(tr), w).work
    ensures At(Last(tr'), w).pc.quote == At(Last(tr), w).pc.quote && At(Last(tr'), w).pc.at == At(Last(tr), w).pc.at
  {
    HasRow(mode, cap, tr, w);
    FreeWhenAlone(Last(tr), w);
    tr' := Then(mode, cap, first, tr, w, Append(w));
    if At(Last(tr'), w).pc.Referencing? {
      FreeWhenAlone(Last(tr'), w);
      tr' := Then(mode, cap, first, tr', w, Refer(w));
    }
  }

  lemma Writes(mode: Mode, cap: nat, first: Trace, tr: Trace, w: nat) returns (tr': Trace)
    requires Leads(mode, cap, first, tr) && Alone(Last(tr), w) && At(Last(tr), w).pc.Upserting?
    requires At(Last(tr), w).work != [] && Fits(At(Last(tr), w).pc.quote.price)
    ensures Leads(mode, cap, first, tr') && Alone(Last(tr'), w) && SameTables(Last(tr), Last(tr'))
    ensures At(Last(tr'), w).pc.Committing? && At(Last(tr'), w).work == At(Last(tr), w).work
    ensures At(Last(tr'), w).pc.quote == At(Last(tr), w).pc.quote && At(Last(tr'), w).pc.at == At(Last(tr), w).pc.at
  {
    HasRow(mode, cap, tr, w);
    FreeWhenAlone(Last(tr), w);
    tr' := Then(mode, cap, first, tr, w, Upsert(w));
    FreeWhenAlone(Last(tr'), w);
    tr' := Then(mode, cap, first, tr', w, Finish(w));
  }

  lemma CommitsAlone(mode: Mode, cap: nat, first: Trace, tr: Trace, w: nat) returns (tr': Trace)
    requires Leads(mode, cap, first, tr) && Alone(Last(tr), w) && CanCommit(Last(tr), w)
    ensures Leads(mode, cap, first, tr') && Alone(Last(tr'), w) && At(Last(tr'), w) == Advance(At(Last(tr), w))
    ensures Last(tr').inbox == Last(tr).inbox && Last(tr').buf == Last(tr).buf
    ensures
      var a := At(Last(tr), w);
      Complete(Last(tr).db, Cur(a), a.pc.quote, Source(mode), a.pc.at) == Ok(Last(tr').db)
  {
    SerialAt(mode, cap, tr, w);
    tr' := Then(mode, cap, first, tr, w, Commit(w));
  }

  lemma SerialAt(mode: Mode, cap: nat, tr: Trace, w: nat)
    requires IsTrace(mode, cap, tr) && CanCommit(Last(tr), w)
    ensures
      var a := At(Last(tr), w);
      Complete(Last(tr).db, Cur(a), a.pc.quote, Source(mode), a.pc.at) == Ok(Flush(mode, Last(tr).db, a))
    ensures Last(tr).mode == mode
  {
    InvAt(mode, cap, tr, |tr.steps|);
    CommitIsSerial(Last(tr), w);
  }

  /** A fetched quote that fits becomes a completion. */
  lemma StoresAlone(mode: Mode, cap: nat, first: Trace, tr: Trace, w: nat, at: Micros) returns (tr': Trace)
    requires Leads(mode, cap, first, tr) && Alone(Last(tr), w) && At(Last(tr), w).pc.Opening?
    requires At(Last(tr), w).work != [] && Fits(At(Last(tr), w).pc.quote.price)
    ensures Leads(mode, cap, first, tr') && Alone(Last(tr'), w) && At(Last(tr'), w) == Advance(At(Last(tr), w))
    ensures Last(tr').inbox == Last(tr).inbox && Last(tr').buf == Last(tr).buf
    ensures Complete(Last(tr).db, Cur(At(Last(tr), w)), At(Last(tr), w).pc.quote, Source(mode), at) == Ok(Last(tr').db)
  {
    tr' := Begins(mode, cap, first, tr, w, at);
    tr' := Appends(mode, cap, first, tr', w);
    tr' := Writes(mode, cap, first, tr', w);
    tr' := CommitsAlone(mode, cap, first, tr', w);
  }

  /**
   In any mode, while nobody else is in a claim or transaction, a job about to be fetched can complete
   with any quote for its pair that fits.
   */
  lemma CompletesAlone(mode: Mode, cap: nat, tr: Trace, w: nat, q: Quote, at: Micros) returns (tr': Trace)
    requires IsTrace(mode, cap, tr) && Alone(Last(tr), w) && At(Last(tr), w).pc.Fetching? && Fits(q.price)
    requires Cur(At(Last(tr), w)) in Last(tr).db.jobs && Last(tr).db.jobs[Cur(At(Last(tr), w))].pair == q.pair
    ensures Leads(mode, cap, tr, tr') && Alone(Last(tr'), w) && At(Last(tr'), w) == Advance(At(Last(tr), w))
    ensures Last(tr').inbox == Last(tr).inbox && Last(tr').buf == Last(tr).buf
    ensures Complete(Last(tr).db, Cur(At(Last(tr), w)), q, Source(mode), at) == Ok(Last(tr').db)
  {
    WorkOf(mode, cap, tr, w);
    LeadsItself(mode, cap, tr);
    tr' := Then(mode, cap, tr, tr, w, Fetch(w, q));
    tr' := StoresAlone(mode, cap, tr, tr', w, at);
  }

  // ----- one job after the other -----

  /** The jobs still to be decided. */
  function Unfinished(s: Sys): set<JobId> {
    set id | id in s.db.jobs && !s.db.jobs[id].status.Terminal() && id !in s.lost
  }

  lemma FewerUnfinished(s: Sys, s': Sys, id: JobId)
    requires Onward(s, s') && id in Unfinished(s) && id !in Unfinished(s')
    ensures |Unfinished(s')| < |Unfinished(s)|
  {
    NoMoreUnfinished(s, s');
    assert Unfinished(s') <= Unfinished(s) - {id};
    SubsetSize(Unfinished(s'), Unfinished(s) - {id});
  }

  lemma NoMoreUnfinished(s: Sys, s': Sys)
    requires Onward(s, s')
    ensures Unfinished(s') <= Unfinished(s) && |Unfinished(s')| <= |Unfinished(s)|
  {
    forall id | id in Unfinished(s') ensures id in Unfinished(s) {
      assert id in s'.db.jobs.Keys;
    }
    SubsetSize(Unfinished(s'), Unfinished(s));
  }

  lemma CalmFromAlone(s: Sys, w: nat)
    requires Alone(s, w) && !Busy(At(s, w).pc)
    ensures Calm(s)
  {
  }

  lemma AdvanceIsCalm(a: Actor)
    ensures !Busy(Advance(a).pc)
  {
  }

  lemma CurrentIsUnfinished(mode: Mode, cap: nat, tr: Trace, w: nat)
    requires IsTrace(mode, cap, tr) && At(Last(tr), w).work != []
    ensures Cur(At(Last(tr), w)) in Unfinished(Last(tr))
  {
    InvAt(mode, cap, tr, |tr.steps|);
    assert ActorOk(Last(tr), At(Last(tr), w)) && Cur(At(Last(tr), w)) in At(Last(tr), w).work;
  }

  /** The batch's status write, which nothing blocks. */
  lemma MarksAlone(mode: Mode, cap: nat, tr: Trace, w: nat) returns (tr': Trace)
    requires IsTrace(mode, cap, tr) && Alone(Last(tr), w) && At(Last(tr), w).pc.Marking?
    ensures Leads(mode, cap, tr, tr') && Alone(Last(tr'), w)
    ensures At(Last(tr'), w) == At(Last(tr), w).(pc := Fetching)
  {
    WorkOf(mode, cap, tr, w);
    HasRow(mode, cap, tr, w);
    FreeWhenAlone(Last(tr), w);
    LeadsItself(mode, cap, tr);
    tr' := Then(mode, cap, tr, tr, w, Mark(w, true));
  }

  lemma WorkOf(mode: Mode, cap: nat, tr: Trace, w: nat)
    requires IsTrace(mode, cap, tr)
    ensures At(Last(tr), w).work == [] <==> At(Last(tr), w).pc.Idle? || At(Last(tr), w).pc.Scanning?
  {
    InvAt(mode, cap, tr, |tr.steps|);
    assert ActorOk(Last(tr), At(Last(tr), w));
  }

  /** A failed fetch is recorded, unless its context has expired. */
  lemma RecordsAlone(mode: Mode, cap: nat, tr: Trace, w: nat) returns (tr': Trace)
    requires IsTrace(mode, cap, tr) && Alone(Last(tr), w) && At(Last(tr), w).pc.Failing?
    ensures Leads(mode, cap, tr, tr') && Alone(Last(tr'), w) && At(Last(tr'), w) == Advance(At(Last(tr), w))
    ensures Cur(At(Last(tr), w)) !in Unfinished(Last(tr'))
  {
    WorkOf(mode, cap, tr, w);
    HasRow(mode, cap, tr, w);
    FreeWhenAlone(Last(tr), w);
    LeadsItself(mode, cap, tr);
    tr' := Then(mode, cap, tr, tr, w, WriteFailed(w, 0, !At(Last(tr), w).pc.late));
  }

  /** A fetched quote is stored, or given up if it does not fit. */
  lemma DecidesAlone(mode: Mode, cap: nat, tr: Trace, w: nat) returns (tr': Trace)
    requires IsTrace(mode, cap, tr) && Alone(Last(tr), w) && At(Last(tr), w).pc.Opening?
    ensures Leads(mode, cap, tr, tr') && Alone(Last(tr'), w) && At(Last(tr'), w) == Advance(At(Last(tr), w))
    ensures Cur(At(Last(tr), w)) !in Unfinished(Last(tr'))
  {
    WorkOf(mode, cap, tr, w);
    HasRow(mode, cap, tr, w);
    LeadsItself(mode, cap, tr);
    if Fits(At(Last(tr), w).pc.quote.price) {
      tr' := StoresAlone(mode, cap, tr, tr, w, 0);
    } else {
      tr' := Begins(mode, cap, tr, tr, w, 0);
      tr' := Then(mode, cap, tr, tr', w, Abandon(w, "numeric field overflow"));
    }
  }

  lemma OneFits()
    ensures Fits(1.0)
  {
    assert ToNumeric(1.0) == 1000000;
  }

  lemma FetchesAlone(mode: Mode, cap: nat, tr: Trace, w: nat) returns (tr': Trace)
    requires IsTrace(mode, cap, tr) && Alone(Last(tr), w) && At(Last(tr), w).pc.Fetching?
    ensures Leads(mode, cap, tr, tr') && Alone(Last(tr'), w) && At(Last(tr'), w) == Advance(At(Last(tr), w))
    ensures Cur(At(Last(tr), w)) !in Unfinished(Last(tr'))
  {
    WorkOf(mode, cap, tr, w);
    HasRow(mode, cap, tr, w);
    OneFits();
    tr' := CompletesAlone(mode, cap, tr, w, Quote(Last(tr).db.jobs[Cur(At(Last(tr), w))].pair, 1.0, 0), 0);
  }

  /** An actor that holds a job brings it to its end. */
  lemma ServesAlone(mode: Mode, cap: nat, tr: Trace, w: nat) returns (tr': Trace)
    requires IsTrace(mode, cap, tr) && Calm(Last(tr)) && At(Last(tr), w).work != []
    ensures Leads(mode, cap, tr, tr') && Calm(Last(tr'))
    ensures |Unfinished(Last(tr'))| < |Unfinished(Last(tr))|
  {
    WorkOf(mode, cap, tr, w);
    CurrentIsUnfinished(mode, cap, tr, w);
    if At(Last(tr), w).pc.Failing? {
      tr' := RecordsAlone(mode, cap, tr, w);
    } else if At(Last(tr), w).pc.Opening? {
      tr' := DecidesAlone(mode, cap, tr, w);
    } else if At(Last(tr), w).pc.Fetching? {
      tr' := FetchesAlone(mode, cap, tr, w);
    } else {
      var marked := MarksAlone(mode, cap, tr, w);
      tr' := FetchesAlone(mode, cap, marked, w);
      LeadsTransitive(mode, cap, tr, marked, tr');
    }
    AdvanceIsCalm(At(Last(tr), w));
    AdvanceIsCalm(At(Last(tr), w).(pc := Fetching));
    CalmFromAlone(Last(tr'), w);
    FewerUnfinished(Last(tr), Last(tr'), Cur(At(Last(tr), w)));
  }

  // ----- handing out the next job -----

  ghost predicate AllIdle(s: Sys) {
    forall v :: At(s, v) == IDLE_ACTOR
  }

  lemma IdleFromCalm(mode: Mode, cap: nat, tr: Trace)
    requires IsTrace(mode, cap, tr) && Calm(Last(tr)) && forall v :: At(Last(tr), v).work == []
    ensures AllIdle(Last(tr))
  {
    forall v ensures At(Last(tr), v) == IDLE_ACTOR {
      WorkOf(mode, cap, tr, v);
    }
  }

  /** While everyone is idle, an unfinished job is queued, waits for its dispatch, or is in the channel. */
  lemma WhereItWaits(mode: Mode, cap: nat, tr: Trace, id: JobId)
    requires IsTrace(mode, cap, tr) && AllIdle(Last(tr)) && id in Unfinished(Last(tr))
    ensures
      if mode.DbPoll? then Last(tr).db.jobs[id].status == Queued else id in Last(tr).inbox || id in Last(tr).buf
    ensures Last(tr).mode == mode
  {
    InvAt(mode, cap, tr, |tr.steps|);
    NobodyHolds(Last(tr), id);
  }

  lemma NobodyHolds(s: Sys, id: JobId)
    requires AllIdle(s)
    ensures !InHand(s, id)
  {
    forall w ensures !HeldBy(s, w, id) {
      assert At(s, w) == IDLE_ACTOR;
    }
  }

  /** The claim of the oldest queued job. */
  lemma PicksAlone(cap: nat, tr: Trace, w: nat, rows: seq<JobId>) returns (tr': Trace)
    requires IsTrace(DbPoll, cap, tr) && Alone(Last(tr), w) && At(Last(tr), w) == IDLE_ACTOR
    requires rows != [] && IsSnapshot(Last(tr).db.jobs, rows)
    ensures Leads(DbPoll, cap, tr, tr') && Alone(Last(tr'), w) && SameTables(Last(tr), Last(tr'))
    ensures At(Last(tr'), w) == Actor(Scanning(1, rows[1..], {rows[0]}, [rows[0]]), [])
  {
    LeadsItself(DbPoll, cap, tr);
    ModeOf(DbPoll, cap, tr);
    tr' := Then(DbPoll, cap, tr, tr, w, Claim(w, 1, rows));
    FreeWhenAlone(Last(tr'), w);
    PicksFirst(Last(tr'), w, rows);
    tr' := Then(DbPoll, cap, tr, tr', w, VisitRow(w));
  }

  lemma ModeOf(mode: Mode, cap: nat, tr: Trace)
    requires IsTrace(mode, cap, tr)
    ensures Last(tr).mode == mode
  {
    InvAt(mode, cap, tr, |tr.steps|);
  }

  lemma PicksFirst(s: Sys, w: nat, rows: seq<JobId>)
    requires At(s, w) == Actor(Scanning(1, rows, {}, []), []) && rows != [] && ClaimFree(s, w, rows[0])
    requires rows[0] in s.db.jobs && s.db.jobs[rows[0]].status == Queued
    ensures Visit(s, w) == Scanning(1, rows[1..], {rows[0]}, [rows[0]])
  {
    assert [] + [rows[0]] == [rows[0]];
  }

  /** In polling mode, while nobody else is busy, a worker can claim the oldest queued job. */
  lemma ClaimsAlone(cap: nat, tr: Trace, w: nat, rows: seq<JobId>) returns (tr': Trace)
    requires IsTrace(DbPoll, cap, tr) && Alone(Last(tr), w) && At(Last(tr), w) == IDLE_ACTOR
    requires rows != [] && IsSnapshot(Last(tr).db.jobs, rows)
    ensures Leads(DbPoll, cap, tr, tr') && Alone(Last(tr'), w) && At(Last(tr'), w) == Actor(Marking, [rows[0]])
    ensures Last(tr').db == Last(tr).db.(jobs := MarkClaimed(Last(tr).db.jobs, {rows[0]}))
  {
    tr' := PicksAlone(cap, tr, w, rows);
    tr' := Then(DbPoll, cap, tr, tr', w, Return(w, [rows[0]]));
    assert Elements([rows[0]]) == {rows[0]};
  }

  /** A dispatched message reaches an idle actor: the channel's oldest, or one that waits while it is empty. */
  lemma DeliversAlone(mode: Mode, cap: nat, tr: Trace, w: nat, id: JobId) returns (tr': Trace)
    requires IsTrace(mode, cap, tr) && Alone(Last(tr), w) && At(Last(tr), w) == IDLE_ACTOR && !mode.DbPoll?
    requires if mode.Chan? && Last(tr).buf != [] then Last(tr).buf[0] == id else id in Last(tr).inbox
    ensures Leads(mode, cap, tr, tr') && Alone(Last(tr'), w) && At(Last(tr'), w) == Actor(Fetching, [id])
    ensures Last(tr').db == Last(tr).db && Last(tr').log == Last(tr).log
    ensures id in Last(tr).inbox ==> Last(tr').inbox == Last(tr).inbox - {id}
  {
    LeadsItself(mode, cap, tr);
    BufferedIsNotInInbox(mode, cap, tr);
    if mode.Chan? && Last(tr).buf != [] {
      tr' := Then(mode, cap, tr, tr, w, Receive(w));
    } else {
      tr' := Then(mode, cap, tr, tr, w, Handoff(w, id));
    }
  }

  lemma BufferedIsNotInInbox(mode: Mode, cap: nat, tr: Trace)
    requires IsTrace(mode, cap, tr)
    ensures Last(tr).mode == mode && forall id :: id in Last(tr).buf ==> id !in Last(tr).inbox
    ensures !mode.Chan? ==> Last(tr).buf == []
  {
    InvAt(mode, cap, tr, |tr.steps|);
    if !mode.Chan? {
      OnlyChanBuffers(mode, cap, tr, |tr.steps|);
    }
  }

  lemma {:induction false} OnlyChanBuffers(mode: Mode, cap: nat, tr: Trace, i: nat)
    requires IsTrace(mode, cap, tr) && i < |tr.states| && !mode.Chan?
    ensures tr.states[i].buf == []
  {
    if i > 0 {
      OnlyChanBuffers(mode, cap, tr, i - 1);
      InvAt(mode, cap, tr, i - 1);
      assert Took(tr, i - 1);
      BufferStaysEmpty(tr.states[i - 1], tr.steps[i - 1]);
    }
  }

  lemma BufferStaysEmpty(s: Sys, st: Step)
    requires Enabled(s, st) && !s.mode.Chan? && s.buf == []
    ensures Next(s, st).buf == []
  {
  }

  lemma SnapshotWith(jobs: map<JobId, Job>, id: JobId) returns (rows: seq<JobId>)
    requires id in jobs && jobs[id].status == Queued
    ensures IsSnapshot(jobs, rows) && rows != []
  {
    SnapshotExists(jobs);
    rows :| IsSnapshot(jobs, rows);
    assert id in rows;
  }

  /** While everyone is idle and something is unfinished, somebody can be handed a job. */
  lemma TakesUp(mode: Mode, cap: nat, tr: Trace) returns (tr': Trace)
    requires IsTrace(mode, cap, tr) && AllIdle(Last(tr)) && Unfinished(Last(tr)) != {}
    ensures Leads(mode, cap, tr, tr') && Calm(Last(tr')) && At(Last(tr'), 0).work != []
  {
    var id :| id in Unfinished(Last(tr));
    WhereItWaits(mode, cap, tr, id);
    assert Alone(Last(tr), 0);
    if mode.DbPoll? {
      var rows := SnapshotWith(Last(tr).db.jobs, id);
      tr' := ClaimsAlone(cap, tr, 0, rows);
    } else {
      BufferedIsNotInInbox(mode, cap, tr);
      tr' := DeliversAlone(mode, cap, tr, 0, if mode.Chan? && Last(tr).buf != [] then Last(tr).buf[0] else id);
    }
    CalmFromAlone(Last(tr'), 0);
  }

  lemma {:induction false} Finishes(mode: Mode, cap: nat, tr: Trace) returns (tr': Trace)
    requires IsTrace(mode, cap, tr) && Calm(Last(tr))
    ensures Leads(mode, cap, tr, tr') && Calm(Last(tr')) && Unfinished(Last(tr')) == {}
    decreases |Unfinished(Last(tr))|
  {
    if Unfinished(Last(tr)) == {} {
      LeadsItself(mode, cap, tr);
      tr' := tr;
    } else {
      var next := OneLess(mode, cap, tr);
      tr' := Finishes(mode, cap, next);
      LeadsTransitive(mode, cap, tr, next, tr');
    }
  }

  lemma OneLess(mode: Mode, cap: nat, tr: Trace) returns (tr': Trace)
    requires IsTrace(mode, cap, tr) && Calm(Last(tr)) && Unfinished(Last(tr)) != {}
    ensures Leads(mode, cap, tr, tr') && Calm(Last(tr')) && |Unfinished(Last(tr'))| < |Unfinished(Last(tr))|
  {
    if w :| At(Last(tr), w).work != [] {
      tr' := ServesAlone(mode, cap, tr, w);
    } else {
      IdleFromCalm(mode, cap, tr);
      var taken := TakesUp(mode, cap, tr);
      NoMoreUnfinished(Last(tr), Last(taken));
      tr' := ServesAlone(mode, cap, taken, 0);
      LeadsTransitive(mode, cap, tr, taken, tr');
    }
  }

  // ----- every run -----

  lemma GoingIsSmooth(s: Sys, w: nat)
    requires Busy(At(s, w).pc)
    ensures Smooth(s, Going(s, w))
  {
  }

  lemma GoesOnOnward(mode: Mode, cap: nat, tr: Trace, i: nat)
    requires IsTrace(mode, cap, tr) && i < |tr.steps| && GoesOn(tr.states[i], tr.steps[i])
    ensures Onward(tr.states[i], tr.states[i + 1])
  {
    assert Took(tr, i);
    var w :| Busy(At(tr.states[i], w).pc) && tr.steps[i] == Going(tr.states[i], w);
    GoingIsSmooth(tr.states[i], w);
    OnwardAt(mode, cap, tr, i, tr.steps[i]);
  }

  ghost predicate OnwardFrom(states: seq<Sys>, i: nat)
    requires i + 1 < |states|
  {
    Onward(states[i], states[i + 1])
  }

  lemma {:induction false} StretchOnward(states: seq<Sys>, i: nat, k: nat)
    requires i <= k < |states| && Onward(states[i], states[i])
    requires forall j :: i <= j < k ==> OnwardFrom(states, j)
    ensures Onward(states[i], states[k])
  {
    if i < k {
      StretchOnward(states, i, k - 1);
      assert OnwardFrom(states, k - 1);
      OnwardTransitive(states[i], states[k - 1], states[k]);
    }
  }

  lemma OnwardItself(mode: Mode, cap: nat, tr: Trace, i: nat)
    requires IsTrace(mode, cap, tr) && i < |tr.states|
    ensures Onward(tr.states[i], tr.states[i])
  {
    InvAt(mode, cap, tr, i);
    GrowsReflexive(tr.states[i]);
  }

  lemma Settles(mode: Mode, cap: nat, tr: Trace) returns (tr': Trace)
    requires IsTrace(mode, cap, tr)
    ensures Leads(mode, cap, tr, tr') && Calm(Last(tr'))
  {
    tr' := Drain(mode, cap, tr);
    var n := |tr.steps|;
    OnwardItself(mode, cap, tr', n);
    forall j | n <= j < |tr'.steps| ensures OnwardFrom(tr'.states, j) {
      assert GoesOn(tr'.states[j], tr'.steps[j]);
      GoesOnOnward(mode, cap, tr', j);
    }
    StretchOnward(tr'.states, n, |tr'.steps|);
    assert tr'.states[n] == tr.states[n];
  }

  lemma NothingLeft(mode: Mode, cap: nat, tr: Trace)
    requires IsTrace(mode, cap, tr) && Calm(Last(tr)) && Unfinished(Last(tr)) == {}
    ensures AllIdle(Last(tr)) && Last(tr).inbox == {} && Last(tr).buf == []
  {
    forall w ensures At(Last(tr), w).work == [] {
      if At(Last(tr), w).work != [] {
        CurrentIsUnfinished(mode, cap, tr, w);
      }
    }
    IdleFromCalm(mode, cap, tr);
    WaitingIsUnfinished(mode, cap, tr);
  }

  lemma WaitingIsUnfinished(mode: Mode, cap: nat, tr: Trace)
    requires IsTrace(mode, cap, tr)
    ensures forall id :: id in Last(tr).inbox ==> id in Unfinished(Last(tr))
    ensures Last(tr).buf != [] ==> Last(tr).buf[0] in Unfinished(Last(tr))
  {
    InvAt(mode, cap, tr, |tr.steps|);
  }

  /**
   Any run, whatever failed in it, can be continued until everybody is idle, the channel is empty and
   every job is done, failed or given up.  If nothing fails any more for an outside reason, every job
   that was not given up and whose rate was not fetched yet, or fits its column, ends done, and every
   job whose fetch failed in time ends failed.
   */
  lemma EveryJobEnds(mode: Mode, cap: nat, tr: Trace) returns (tr': Trace)
    requires IsTrace(mode, cap, tr)
    ensures IsTrace(mode, cap, tr') && Continues(tr, tr')
    ensures AllIdle(Last(tr')) && Last(tr').inbox == {} && Last(tr').buf == []
    ensures Last(tr').db.jobs.Keys == Last(tr).db.jobs.Keys
    ensures forall id :: id in Last(tr').db.jobs ==> Last(tr').db.jobs[id].status.Terminal() || id in Last(tr').lost
    ensures forall id :: Hopeful(Last(tr), id) ==>
      id in Last(tr').db.jobs && Last(tr').db.jobs[id].status == Done
    ensures forall id :: Recordable(Last(tr), id) ==>
      id in Last(tr').db.jobs && Last(tr').db.jobs[id].status == Failed
  {
    var calm := Settles(mode, cap, tr);
    tr' := Finishes(mode, cap, calm);
    LeadsTransitive(mode, cap, tr, calm, tr');
    NothingLeft(mode, cap, tr');
    AllDecided(Last(tr'));
  }

  lemma AllDecided(s: Sys)
    requires AllIdle(s) && Unfinished(s) == {}
    ensures forall id :: id in s.db.jobs ==> s.db.jobs[id].status.Terminal() || id in s.lost
    ensures forall id :: Hopeful(s, id) ==> s.db.jobs[id].status == Done
    ensures forall id :: Recordable(s, id) ==> s.db.jobs[id].status == Failed
  {
    forall id | id in s.db.jobs ensures s.db.jobs[id].status.Terminal() || id in s.lost {
      assert id !in Unfinished(s);
    }
    forall w, id ensures !FailingWith(s, w, id) {
      assert At(s, w) == IDLE_ACTOR;
    }
  }
}
