/**
 Deadlock freedom and progress.  A transaction asks for its locks in one fixed order, a claim never
 waits, so whoever waits for a lock is blocked by someone further along; the furthest can always go
 on, and letting statements run brings every transaction and every claim to its end.
 */
module Locks {
  import opened Tables
  import opened Machine
  import opened Ownership
  import opened Consistency

  // ----- waiting -----

  /** Inside a claim or a transaction, and so holding what others may wait for. */
  predicate Busy(pc: Pc) {
    InTx(pc) || pc.Scanning?
  }

  /** The resource class the next statement asks for: history key, shared job row, quotes row, job row. */
  function Rank(pc: Pc): nat {
    match pc
    case Appending(_, _) => 0
    case Referencing(_, _) => 1
    case Upserting(_, _, _) => 2
    case Finishing(_, _, _) => 3
    case _ => 4
  }

  /** Actor v holds the lock that the next statement of actor w asks for. */
  predicate WaitsFor(s: Sys, w: nat, v: nat) {
    var a, b := At(s, w), At(s, v);
    v != w &&
    match a.pc
    case Appending(q, _) => KeyOf(q, Source(s.mode)) in HistoryLocks(s.mode, b)
    case Referencing(_, _) => b.pc.Scanning? && Cur(a) in JobLocks(b)
    case Upserting(q, _, _) => q.pair in QuoteLocks(b)
    case Finishing(_, _, _) => Cur(a) in JobLocks(b)
    case Marking => Cur(a) in JobLocks(b)
    case Failing(_, _) => Cur(a) in JobLocks(b)
    case _ => false
  }

  /** A holder is always strictly further along than who waits for it. */
  lemma WaitsRise(s: Sys, w: nat, v: nat)
    requires WaitsFor(s, w, v)
    ensures Busy(At(s, v).pc)
    ensures Busy(At(s, w).pc) ==> Rank(At(s, w).pc) < Rank(At(s, v).pc)
  {
  }

  lemma {:induction false} RanksRise(s: Sys, path: seq<nat>)
    requires |path| >= 2 && Busy(At(s, path[0]).pc)
    requires forall i :: 0 <= i < |path| - 1 ==> WaitsFor(s, path[i], path[i + 1])
    ensures Rank(At(s, path[0]).pc) < Rank(At(s, path[|path| - 1]).pc)
  {
    WaitsRise(s, path[0], path[1]);
    if |path| > 2 {
      forall i | 0 <= i < |path[1..]| - 1 ensures WaitsFor(s, path[1..][i], path[1..][i + 1]) {
        assert WaitsFor(s, path[i + 1], path[i + 2]);
      }
      RanksRise(s, path[1..]);
    }
  }

  /** No deadlock: a chain of waiting actors, of any length, never comes back to where it began. */
  lemma NoCycle(s: Sys, chain: seq<nat>)
    requires |chain| >= 2
    requires forall i :: 0 <= i < |chain| - 1 ==> WaitsFor(s, chain[i], chain[i + 1])
    ensures chain[0] != chain[|chain| - 1]
  {
    var last := |chain| - 2;
    assert WaitsFor(s, chain[last], chain[last + 1]);
    WaitsRise(s, chain[last], chain[last + 1]);
    if Busy(At(s, chain[0]).pc) {
      RanksRise(s, chain);
    }
  }

  // ----- progress -----

  /**
   What actor w does next if nothing fails for an outside reason: an overflowing price is the only
   statement that must fail.
   */
  function Going(s: Sys, w: nat): Step
    requires Busy(At(s, w).pc)
  {
    match At(s, w).pc
    case Scanning(_, _, _, picked) => if ScanDone(At(s, w).pc) then Return(w, picked) else VisitRow(w)
    case Appending(q, _) => if Fits(q.price) then Append(w) else Abandon(w, "numeric field overflow")
    case Referencing(_, _) => Refer(w)
    case Upserting(_, _, _) => Upsert(w)
    case Finishing(_, _, _) => Finish(w)
    case _ => Commit(w)
  }

  lemma BlockedOnHistory(s: Sys, w: nat) returns (v: nat)
    requires At(s, w).pc.Appending? && Fits(At(s, w).pc.quote.price) && !CanAppend(s, w)
    ensures WaitsFor(s, w, v)
  {
    v :| v in s.actors && v != w && KeyOf(At(s, w).pc.quote, Source(s.mode)) in HistoryLocks(s.mode, s.actors[v]);
  }

  lemma BlockedOnShare(s: Sys, w: nat) returns (v: nat)
    requires Owned(s) && At(s, w).pc.Referencing? && !CanRefer(s, w)
    ensures WaitsFor(s, w, v)
  {
    assert ActorOk(s, At(s, w)) && Cur(At(s, w)) in At(s, w).work;
    v :| v in s.actors && v != w && s.actors[v].pc.Scanning? && Cur(At(s, w)) in JobLocks(s.actors[v]);
  }

  lemma BlockedOnQuote(s: Sys, w: nat) returns (v: nat)
    requires Owned(s) && At(s, w).pc.Upserting? && !CanUpsert(s, w)
    ensures WaitsFor(s, w, v)
  {
    assert ActorOk(s, At(s, w));
    v :| v in s.actors && v != w && At(s, w).pc.quote.pair in QuoteLocks(s.actors[v]);
  }

  lemma BlockedOnRow(s: Sys, w: nat) returns (v: nat)
    requires Owned(s) && At(s, w).pc.Finishing? && !CanFinish(s, w)
    ensures WaitsFor(s, w, v)
  {
    assert ActorOk(s, At(s, w)) && Cur(At(s, w)) in At(s, w).work;
    v :| v in s.actors && v != w && Cur(At(s, w)) in JobLocks(s.actors[v]);
  }

  /** The next statement of a busy actor can run. */
  predicate CanGo(s: Sys, w: nat)
    requires Busy(At(s, w).pc)
  {
    match At(s, w).pc
    case Appending(q, _) => Fits(q.price) ==> CanAppend(s, w)
    case Referencing(_, _) => CanRefer(s, w)
    case Upserting(_, _, _) => CanUpsert(s, w)
    case Finishing(_, _, _) => CanFinish(s, w)
    case _ => true
  }

  lemma CanGoIsEnabled(s: Sys, w: nat)
    requires Busy(At(s, w).pc)
    ensures CanGo(s, w) <==> Enabled(s, Going(s, w))
  {
  }

  /** A busy actor that cannot go on waits for another actor; a claim and a commit always can. */
  lemma BlockedByHolder(s: Sys, w: nat) returns (v: nat)
    requires Owned(s) && Busy(At(s, w).pc) && !Enabled(s, Going(s, w))
    ensures WaitsFor(s, w, v)
  {
    CanGoIsEnabled(s, w);
    v := NotGoingWaits(s, w);
  }

  lemma NotGoingWaits(s: Sys, w: nat) returns (v: nat)
    requires Owned(s) && Busy(At(s, w).pc) && !CanGo(s, w)
    ensures WaitsFor(s, w, v)
  {
    if At(s, w).pc.Appending? {
      v := BlockedOnHistory(s, w);
    } else if At(s, w).pc.Referencing? {
      v := BlockedOnShare(s, w);
    } else if At(s, w).pc.Upserting? {
      v := BlockedOnQuote(s, w);
    } else {
      v := BlockedOnRow(s, w);
    }
  }

  /** A status write outside a transaction that cannot reach its row waits for a claim, and a claim never waits. */
  lemma StatusWriteWaits(s: Sys, w: nat) returns (v: nat)
    requires Owned(s) && (At(s, w).pc.Marking? || At(s, w).pc.Failing?) && !RowReady(s, w)
    ensures WaitsFor(s, w, v) && At(s, v).pc.Scanning? && Enabled(s, Going(s, v))
  {
    assert ActorOk(s, At(s, w)) && Cur(At(s, w)) in At(s, w).work;
    v :| v in s.actors && v != w && Cur(At(s, w)) in JobLocks(s.actors[v]);
    HolderScans(s, w, v);
    CanGoIsEnabled(s, v);
  }

  lemma HolderScans(s: Sys, w: nat, v: nat)
    requires Owned(s) && v != w && At(s, w).work != [] && Cur(At(s, w)) in JobLocks(At(s, v))
    ensures At(s, v).pc.Scanning?
  {
    assert Apart(s.mode, At(s, w), At(s, v)) && ActorOk(s, At(s, v));
    assert Cur(At(s, w)) in At(s, w).work;
    assert At(s, v).work != [] ==> Cur(At(s, v)) in At(s, v).work;
  }

  /** Whenever someone is busy, someone busy can go on. */
  lemma {:induction false} SomeoneGoes(s: Sys, w: nat) returns (v: nat)
    requires Owned(s) && Busy(At(s, w).pc)
    ensures Busy(At(s, v).pc) && Enabled(s, Going(s, v))
    decreases 4 - Rank(At(s, w).pc)
  {
    if Enabled(s, Going(s, w)) {
      v := w;
    } else {
      var u := BlockedByHolder(s, w);
      WaitsRise(s, w, u);
      v := SomeoneGoes(s, u);
    }
  }

  // ----- how much is left -----

  function Remaining(pc: Pc): nat {
    match pc
    case Scanning(_, todo, _, _) => |todo| + 1
    case Appending(_, _) => 5
    case Referencing(_, _) => 4
    case Upserting(_, _, _) => 3
    case Finishing(_, _, _) => 2
    case Committing(_, _, _, _) => 1
    case _ => 0
  }

  /** Statements left before every open transaction and claim has ended. */
  ghost function Load(actors: map<nat, Actor>): nat {
    if actors == map[] then 0 else
    var w :| w in actors;
    Remaining(actors[w].pc) + Load(actors - {w})
  }

  lemma {:induction false} LoadSplit(actors: map<nat, Actor>, w: nat)
    requires w in actors
    ensures Load(actors) == Remaining(actors[w].pc) + Load(actors - {w})
  {
    var v :| v in actors && Load(actors) == Remaining(actors[v].pc) + Load(actors - {v});
    if v != w {
      LoadSplit(actors - {v}, w);
      LoadSplit(actors - {w}, v);
      assert actors - {v} - {w} == actors - {w} - {v};
    }
  }

  /** Going on always brings the end nearer, whatever the other actors hold. */
  lemma GoingLowers(s: Sys, w: nat)
    requires Busy(At(s, w).pc) && Enabled(s, Going(s, w))
    ensures Load(Next(s, Going(s, w)).actors) < Load(s.actors)
  {
    var s' := Next(s, Going(s, w));
    GoingActors(s, w);
    LoadSplit(s.actors, w);
    LoadSplit(s'.actors, w);
    assert s'.actors - {w} == s.actors - {w};
  }

  lemma GoingActors(s: Sys, w: nat)
    requires Busy(At(s, w).pc) && Enabled(s, Going(s, w))
    ensures w in s.actors && w in Next(s, Going(s, w)).actors
    ensures Next(s, Going(s, w)).actors == s.actors[w := At(Next(s, Going(s, w)), w)]
    ensures Remaining(At(Next(s, Going(s, w)), w).pc) < Remaining(At(s, w).pc)
  {
  }

  /** The step is some busy actor going on. */
  ghost predicate GoesOn(s: Sys, st: Step) {
    exists w :: Busy(At(s, w).pc) && st == Going(s, w)
  }

  function Extend(tr: Trace, st: Step): Trace
    requires tr.states != [] && Enabled(Last(tr), st)
  {
    Trace(tr.states + [Next(Last(tr), st)], tr.steps + [st])
  }

  lemma ExtendTrace(mode: Mode, cap: nat, tr: Trace, st: Step)
    requires IsTrace(mode, cap, tr) && Enabled(Last(tr), st)
    ensures IsTrace(mode, cap, Extend(tr, st))
  {
    forall i | 0 <= i < |tr.steps| + 1 ensures Took(Extend(tr, st), i) {
      if i < |tr.steps| {
        assert Took(tr, i);
      }
    }
  }

  /** From step `from` on, only busy actors going on. */
  ghost predicate AllGoOn(tr: Trace, from: nat)
    requires |tr.states| == |tr.steps| + 1
  {
    forall i :: from <= i < |tr.steps| ==> GoesOn(tr.states[i], tr.steps[i])
  }

  /** The second run continues the first. */
  predicate Continues(tr: Trace, tr': Trace) {
    tr.states <= tr'.states && tr.steps <= tr'.steps
  }

  lemma OneMore(mode: Mode, cap: nat, tr: Trace, w: nat) returns (tr': Trace)
    requires IsTrace(mode, cap, tr) && Busy(At(Last(tr), w).pc)
    ensures IsTrace(mode, cap, tr') && Continues(tr, tr')
    ensures |tr'.steps| == |tr.steps| + 1 && AllGoOn(tr', |tr.steps|)
    ensures Load(Last(tr').actors) < Load(Last(tr).actors)
  {
    InvAt(mode, cap, tr, |tr.steps|);
    var v := SomeoneGoes(Last(tr), w);
    tr' := GoOn(mode, cap, tr, v);
  }

  lemma GoOn(mode: Mode, cap: nat, tr: Trace, v: nat) returns (tr': Trace)
    requires IsTrace(mode, cap, tr) && Busy(At(Last(tr), v).pc) && Enabled(Last(tr), Going(Last(tr), v))
    ensures IsTrace(mode, cap, tr') && Continues(tr, tr')
    ensures |tr'.steps| == |tr.steps| + 1 && AllGoOn(tr', |tr.steps|)
    ensures Load(Last(tr').actors) < Load(Last(tr).actors)
  {
    GoingLowers(Last(tr), v);
    var st := Going(Last(tr), v);
    tr' := Extend(tr, st);
    ExtendTrace(mode, cap, tr, st);
    assert GoesOn(tr'.states[|tr.steps|], tr'.steps[|tr.steps|]);
  }

  lemma GoOnOneByOne(tr: Trace, longer: Trace, tr': Trace)
    requires |tr.states| == |tr.steps| + 1 && |longer.states| == |longer.steps| + 1 && |tr'.states| == |tr'.steps| + 1
    requires Continues(tr, longer) && Continues(longer, tr') && |longer.steps| == |tr.steps| + 1
    requires AllGoOn(longer, |tr.steps|) && AllGoOn(tr', |longer.steps|)
    ensures Continues(tr, tr') && AllGoOn(tr', |tr.steps|)
  {
    var n := |tr.steps|;
    assert GoesOn(longer.states[n], longer.steps[n]);
    assert tr'.states[n] == longer.states[n] && tr'.steps[n] == longer.steps[n];
  }

  /**
   From any reachable state, busy actors going on, and nothing else, bring every open transaction to
   commit or rollback and every claim to its end, within the statements that are left.
   */
  lemma {:induction false} Drain(mode: Mode, cap: nat, tr: Trace) returns (tr': Trace)
    requires IsTrace(mode, cap, tr)
    ensures IsTrace(mode, cap, tr') && Continues(tr, tr') && AllGoOn(tr', |tr.steps|)
    ensures |tr'.steps| <= |tr.steps| + Load(Last(tr).actors)
    ensures forall w :: !Busy(At(Last(tr'), w).pc)
    decreases Load(Last(tr).actors)
  {
    if w :| Busy(At(Last(tr), w).pc) {
      var longer := OneMore(mode, cap, tr, w);
      tr' := Drain(mode, cap, longer);
      GoOnOneByOne(tr, longer, tr');
    } else {
      tr' := tr;
    }
  }

  // ----- every way of going on -----

  ghost predicate FallsAt(states: seq<Sys>, i: nat)
    requires i + 1 < |states|
  {
    Load(states[i + 1].actors) < Load(states[i].actors)
  }

  lemma {:induction false} LoadFalls(states: seq<Sys>, i: nat, k: nat)
    requires i <= k < |states| && forall j :: i <= j < k ==> FallsAt(states, j)
    ensures Load(states[k].actors) + (k - i) <= Load(states[i].actors)
  {
    if i < k {
      LoadFalls(states, i, k - 1);
      assert FallsAt(states, k - 1);
    }
  }

  lemma GoingFalls(mode: Mode, cap: nat, tr: Trace, i: nat)
    requires IsTrace(mode, cap, tr) && i < |tr.steps| && GoesOn(tr.states[i], tr.steps[i])
    ensures FallsAt(tr.states, i)
  {
    assert Took(tr, i);
    var w :| Busy(At(tr.states[i], w).pc) && tr.steps[i] == Going(tr.states[i], w);
    GoingLowers(tr.states[i], w);
  }

  lemma StuckIsDone(s: Sys)
    requires Owned(s) && forall w :: Busy(At(s, w).pc) ==> !Enabled(s, Going(s, w))
    ensures forall w :: !Busy(At(s, w).pc)
  {
    if w :| Busy(At(s, w).pc) {
      var v := SomeoneGoes(s, w);
      assert false;
    }
  }

  lemma NoLongerThanLoad(mode: Mode, cap: nat, tr: Trace, i: nat)
    requires IsTrace(mode, cap, tr) && i <= |tr.steps| && AllGoOn(tr, i)
    ensures |tr.steps| - i <= Load(tr.states[i].actors)
  {
    forall j | i <= j < |tr.steps| ensures FallsAt(tr.states, j) {
      GoingFalls(mode, cap, tr, j);
    }
    LoadFalls(tr.states, i, |tr.steps|);
  }

  /**
   Whoever goes on and in whatever order: a stretch in which only busy actors go on is no longer than
   the statements left at its start, and one that cannot be made longer leaves nobody busy.
   */
  lemma EveryWayDrains(mode: Mode, cap: nat, tr: Trace, i: nat)
    requires IsTrace(mode, cap, tr) && i <= |tr.steps| && AllGoOn(tr, i)
    ensures |tr.steps| - i <= Load(tr.states[i].actors)
    ensures (forall w :: Busy(At(Last(tr), w).pc) ==> !Enabled(Last(tr), Going(Last(tr), w))) ==>
      forall w :: !Busy(At(Last(tr), w).pc)
  {
    NoLongerThanLoad(mode, cap, tr, i);
    InvAt(mode, cap, tr, |tr.steps|);
    if forall w :: Busy(At(Last(tr), w).pc) ==> !Enabled(Last(tr), Going(Last(tr), w)) {
      StuckIsDone(Last(tr));
    }
  }
}
