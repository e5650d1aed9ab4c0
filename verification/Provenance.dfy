/** Which steps of a run the columns of a job's row come from. */
module Provenance {
  import opened Prelude
  import opened Tables
  import opened Machine
  import opened Ownership
  import opened Serial
  import opened Consistency
  import opened Guarantees

  /** The quote an actor has fetched and not yet stored or dropped. */
  function QuoteInHand(pc: Pc): Option<Quote> {
    if pc.Opening? || InTx(pc) then Some(pc.quote) else None
  }

  // ----- one step -----

  lemma NewRow(s: Sys, st: Step, id: JobId)
    requires Inv(s) && Enabled(s, st) && id in Next(s, st).db.jobs
    ensures id in s.db.jobs ==>
      Next(s, st).db.jobs[id].pair == s.db.jobs[id].pair
      && Next(s, st).db.jobs[id].requestedAt == s.db.jobs[id].requestedAt
    ensures id !in s.db.jobs ==>
      st == Create(id, Next(s, st).db.jobs[id].pair, Next(s, st).db.jobs[id].requestedAt)
  {
    NextGrows(s, st);
    OnlyCreateAdds(s, st);
  }

  /** Whoever a step moves, the actor it belongs to is the only one. */
  lemma MovesOne(s: Sys, st: Step, w: nat)
    requires Enabled(s, st) && (st.Create? || st.Enqueue? || st.Reject? || st.w != w)
    ensures At(Next(s, st), w) == At(s, w)
  {
  }

  /** The quote in hand comes from the step before, unless it has just been fetched. */
  lemma StillInHand(s: Sys, st: Step, w: nat)
    requires Enabled(s, st) && QuoteInHand(At(Next(s, st), w).pc).Some?
    ensures
      var (a, b) := (At(s, w), At(Next(s, st), w));
      Cur(b) == Cur(a) && (st == Fetch(w, b.pc.quote) || QuoteInHand(a.pc) == Some(b.pc.quote))
  {
    if st.Create? || st.Enqueue? || st.Reject? || st.w != w {
      MovesOne(s, st, w);
    }
  }

  /** A transaction's time comes from the step before, unless it has just begun. */
  lemma StillInTx(s: Sys, st: Step, w: nat)
    requires Enabled(s, st) && InTx(At(Next(s, st), w).pc)
    ensures
      var (a, b) := (At(s, w), At(Next(s, st), w));
      Cur(b) == Cur(a) && (st == Begin(w, b.pc.at) || (InTx(a.pc) && a.pc.at == b.pc.at))
  {
    if st.Create? || st.Enqueue? || st.Reject? || st.w != w {
      MovesOne(s, st, w);
    }
  }

  lemma StillFailing(s: Sys, st: Step, w: nat)
    requires Enabled(s, st) && At(Next(s, st), w).pc.Failing?
    ensures
      var (a, b) := (At(s, w), At(Next(s, st), w));
      Cur(b) == Cur(a) && (st == Fail(w, b.pc.msg, b.pc.late) || a.pc == b.pc)
  {
  }

  lemma CommitEnds(s: Sys, w: nat, id: JobId)
    requires Inv(s) && CanCommit(s, w) && id in s.db.jobs && !s.db.jobs[id].status.Terminal()
    requires id in DoCommit(s, w).db.jobs && DoCommit(s, w).db.jobs[id].status.Terminal()
    ensures Cur(At(s, w)) == id
    ensures DoCommit(s, w).db.jobs[id].status == Done
    ensures DoCommit(s, w).db.jobs[id].completedAt == Some(At(s, w).pc.at)
  {
    assert ActorOk(s, At(s, w));
  }

  lemma WriteEnds(s: Sys, w: nat, at: Micros, ok: bool, id: JobId)
    requires CanWriteFailed(s, w, ok) && id in s.db.jobs && !s.db.jobs[id].status.Terminal()
    requires id in DoWriteFailed(s, w, at, ok).db.jobs && DoWriteFailed(s, w, at, ok).db.jobs[id].status.Terminal()
    ensures ok && Cur(At(s, w)) == id
    ensures
      var row := DoWriteFailed(s, w, at, ok).db.jobs[id];
      row.status == Failed && row.completedAt == Some(at) && row.error == Some(At(s, w).pc.msg)
  {
  }

  /** Nothing but a commit and the write after a failed fetch ends a job. */
  lemma OnlyTheseEnd(s: Sys, st: Step, id: JobId)
    requires Inv(s) && Enabled(s, st) && !st.Commit? && !st.WriteFailed?
    requires id in Next(s, st).db.jobs && Next(s, st).db.jobs[id].status.Terminal()
    ensures id in s.db.jobs && s.db.jobs[id].status.Terminal()
  {
    if !Commits(st) {
      QuietStep(s, st);
    }
  }

  lemma EndsAt(mode: Mode, cap: nat, tr: Trace, n: nat, id: JobId)
    requires IsTrace(mode, cap, tr) && n < |tr.steps| && id in tr.states[n + 1].db.jobs
    requires tr.states[n + 1].db.jobs[id].status.Terminal()
    ensures EndedBefore(tr.states[n], tr.states[n + 1], id) || Ends(tr, n, id, tr.states[n + 1].db.jobs[id])
  {
    InvAt(mode, cap, tr, n);
    assert Took(tr, n);
    var s, st := tr.states[n], tr.steps[n];
    NextGrows(s, st);
    OnlyCreateAdds(s, st);
    if st.Commit? {
      if id in s.db.jobs && !s.db.jobs[id].status.Terminal() { CommitEnds(s, st.w, id); }
    } else if st.WriteFailed? {
      if id in s.db.jobs && !s.db.jobs[id].status.Terminal() { WriteEnds(s, st.w, st.at, st.ok, id); }
    } else {
      OnlyTheseEnd(s, st, id);
    }
  }

  predicate EndedBefore(s: Sys, s': Sys, id: JobId)
    requires id in s'.db.jobs
  {
    id in s.db.jobs && s.db.jobs[id] == s'.db.jobs[id]
  }

  /** Step n ends the job, as its row tells. */
  predicate Ends(tr: Trace, n: nat, id: JobId, row: Job)
    requires n < |tr.steps| && n < |tr.states|
  {
    var (s, st) := (tr.states[n], tr.steps[n]);
    if row.status.Done? then
      && st.Commit? && InTx(At(s, st.w).pc) && Cur(At(s, st.w)) == id
      && row.completedAt == Some(At(s, st.w).pc.at)
    else
      && st.WriteFailed? && st.ok && At(s, st.w).pc.Failing? && Cur(At(s, st.w)) == id
      && row.completedAt == Some(st.at) && row.error == Some(At(s, st.w).pc.msg)
  }

  // ----- runs -----

  /** A row's pair and request time are those of the step that created it. */
  lemma {:induction false} CreatedAt(mode: Mode, cap: nat, tr: Trace, n: nat, id: JobId) returns (i: nat)
    requires IsTrace(mode, cap, tr) && n < |tr.states| && id in tr.states[n].db.jobs
    ensures i < n
    ensures tr.steps[i] == Create(id, tr.states[n].db.jobs[id].pair, tr.states[n].db.jobs[id].requestedAt)
  {
    assert n > 0;
    NewRowAt(mode, cap, tr, n - 1, id);
    if id in tr.states[n - 1].db.jobs {
      i := CreatedAt(mode, cap, tr, n - 1, id);
    } else {
      i := n - 1;
    }
  }

  lemma NewRowAt(mode: Mode, cap: nat, tr: Trace, n: nat, id: JobId)
    requires IsTrace(mode, cap, tr) && n < |tr.steps| && id in tr.states[n + 1].db.jobs
    ensures id in tr.states[n].db.jobs ==>
      tr.states[n + 1].db.jobs[id].pair == tr.states[n].db.jobs[id].pair
      && tr.states[n + 1].db.jobs[id].requestedAt == tr.states[n].db.jobs[id].requestedAt
    ensures id !in tr.states[n].db.jobs ==>
      tr.steps[n] == Create(id, tr.states[n + 1].db.jobs[id].pair, tr.states[n + 1].db.jobs[id].requestedAt)
  {
    InvAt(mode, cap, tr, n);
    assert Took(tr, n);
    NewRow(tr.states[n], tr.steps[n], id);
  }

  /** The quote of an open transaction, or of one about to be opened, is the one its job's fetch answered. */
  lemma {:induction false} QuoteFrom(mode: Mode, cap: nat, tr: Trace, n: nat, w: nat) returns (i: nat)
    requires IsTrace(mode, cap, tr) && n < |tr.states| && QuoteInHand(At(tr.states[n], w).pc).Some?
    ensures i < n && tr.steps[i] == Fetch(w, At(tr.states[n], w).pc.quote)
    ensures Cur(At(tr.states[i], w)) == Cur(At(tr.states[n], w))
  {
    assert n > 0 && Took(tr, n - 1);
    StillInHand(tr.states[n - 1], tr.steps[n - 1], w);
    if tr.steps[n - 1] == Fetch(w, At(tr.states[n], w).pc.quote) {
      i := n - 1;
    } else {
      i := QuoteFrom(mode, cap, tr, n - 1, w);
    }
  }

  /** The time of an open transaction is that of its begin. */
  lemma {:induction false} TimeFrom(mode: Mode, cap: nat, tr: Trace, n: nat, w: nat) returns (i: nat)
    requires IsTrace(mode, cap, tr) && n < |tr.states| && InTx(At(tr.states[n], w).pc)
    ensures i < n && tr.steps[i] == Begin(w, At(tr.states[n], w).pc.at)
    ensures Cur(At(tr.states[i], w)) == Cur(At(tr.states[n], w))
  {
    assert n > 0 && Took(tr, n - 1);
    StillInTx(tr.states[n - 1], tr.steps[n - 1], w);
    if tr.steps[n - 1] == Begin(w, At(tr.states[n], w).pc.at) {
      i := n - 1;
    } else {
      i := TimeFrom(mode, cap, tr, n - 1, w);
    }
  }

  /** The message about to be written is the one its job's fetch failed with. */
  lemma {:induction false} MessageFrom(mode: Mode, cap: nat, tr: Trace, n: nat, w: nat) returns (i: nat)
    requires IsTrace(mode, cap, tr) && n < |tr.states| && At(tr.states[n], w).pc.Failing?
    ensures i < n && tr.steps[i] == Fail(w, At(tr.states[n], w).pc.msg, At(tr.states[n], w).pc.late)
    ensures Cur(At(tr.states[i], w)) == Cur(At(tr.states[n], w))
  {
    assert n > 0 && Took(tr, n - 1);
    StillFailing(tr.states[n - 1], tr.steps[n - 1], w);
    if tr.steps[n - 1].Fail? && tr.steps[n - 1].w == w {
      i := n - 1;
    } else {
      i := MessageFrom(mode, cap, tr, n - 1, w);
    }
  }

  lemma {:induction false} EndedAt(mode: Mode, cap: nat, tr: Trace, n: nat, id: JobId) returns (k: nat)
    requires IsTrace(mode, cap, tr) && n < |tr.states| && id in tr.states[n].db.jobs
    requires tr.states[n].db.jobs[id].status.Terminal()
    ensures k < n && Ends(tr, k, id, tr.states[n].db.jobs[id])
  {
    assert n > 0;
    EndsAt(mode, cap, tr, n - 1, id);
    if EndedBefore(tr.states[n - 1], tr.states[n], id) {
      k := EndedAt(mode, cap, tr, n - 1, id);
    } else {
      k := n - 1;
    }
  }

  /**
   A done job was fetched, then its transaction began, and then it committed: its completion time is
   the time of the begin, although the row appears with the commit.
   */
  lemma DoneBecause(mode: Mode, cap: nat, tr: Trace, id: JobId) returns (w: nat, fetched: nat, begun: nat, end: nat)
    requires IsTrace(mode, cap, tr) && id in Last(tr).db.jobs && Last(tr).db.jobs[id].status == Done
    ensures fetched < begun < end < |tr.steps| && tr.steps[end] == Commit(w)
    ensures Cur(At(tr.states[fetched], w)) == Cur(At(tr.states[begun], w)) == Cur(At(tr.states[end], w)) == id
    ensures exists q :: tr.steps[fetched] == Fetch(w, q) && id in Last(tr).fetched && Last(tr).fetched[id] == Some(q)
    ensures exists at :: tr.steps[begun] == Begin(w, at) && Last(tr).db.jobs[id].completedAt == Some(at)
  {
    end := EndedAt(mode, cap, tr, |tr.steps|, id);
    w := tr.steps[end].w;
    begun := TimeFrom(mode, cap, tr, end, w);
    assert Took(tr, begun);
    fetched := QuoteFrom(mode, cap, tr, begun, w);
    assert Took(tr, fetched);
    RunGrows(mode, cap, tr, fetched + 1, |tr.steps|);
  }

  /** A failed job's error is the one its fetch failed with, and its completion time that of the write. */
  lemma FailedBecause(mode: Mode, cap: nat, tr: Trace, id: JobId) returns (w: nat, fetched: nat, end: nat)
    requires IsTrace(mode, cap, tr) && id in Last(tr).db.jobs && Last(tr).db.jobs[id].status == Failed
    ensures fetched < end < |tr.steps|
    ensures Cur(At(tr.states[fetched], w)) == Cur(At(tr.states[end], w)) == id
    ensures exists msg :: tr.steps[fetched] == Fail(w, msg, false) && Last(tr).db.jobs[id].error == Some(msg)
    ensures exists at :: tr.steps[end] == WriteFailed(w, at, true) && Last(tr).db.jobs[id].completedAt == Some(at)
  {
    end := EndedAt(mode, cap, tr, |tr.steps|, id);
    w := tr.steps[end].w;
    assert Took(tr, end);
    fetched := MessageFrom(mode, cap, tr, end, w);
  }
}
