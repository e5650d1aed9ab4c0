/** The handler of an update request, and what one key can make the system do. */
module Http {
  import opened Prelude
  import opened Tables
  import opened Machine
  import opened Ownership
  import opened Consistency
  import opened Guarantees
  import opened Service
  import opened Requests
  import Keys = Idempotency
  import Provider

  function CodeOf(reply: Reply): nat {
    match reply
    case Accepted(_) => 202
    case BadRequest => 400
    case Conflict => 409
    case StoreError => 500
    case CreateError => 500
  }

  class HttpServer {
    const server: Server
    const api: Api
    const bus: ChanBus

    constructor (server: Server, api: Api, bus: ChanBus)
      requires bus.server == server && api.server == server
      ensures this.server == server && this.api == api && this.bus == bus
    {
      this.server, this.api, this.bus := server, api, bus;
    }

    ghost predicate Wired() { bus.server == server && api.server == server }

    /**
     The dispatcher of the mode: the channel; a new goroutine, which starts when it can; or none,
     where the pollers find the job by themselves.
     */
    method Dispatch(id: JobId, cancelled: bool) returns (err: Option<string>)
      requires server.Valid() && Wired() && id in server.sys.db.jobs
      requires server.mode.Chan? ==> id in server.sys.inbox
      modifies server
      ensures server.Valid() && Grows(old(server.sys), server.sys) && Keys.Grew(old(server.store), server.store, {})
      ensures server.mode.Chan? ==> (err.None? <==> id in server.sys.buf || id in server.sys.delivered)
      ensures server.mode.Chan? ==> (err.Some? <==> id in server.sys.lost)
      ensures !server.mode.Chan? ==> err.None?
    {
      server.Same();
      err := None;
      if server.mode.Chan? {
        err := bus.Enqueue(id, cancelled);
      }
    }

    /** A failed dispatch writes its code after the one already sent. */
    method DispatchAccepted(id: JobId, cancelled: bool) returns (written: seq<nat>)
      requires server.Valid() && Wired() && id in server.sys.db.jobs
      requires server.mode.Chan? ==> id in server.sys.inbox
      modifies server
      ensures server.Valid() && Grows(old(server.sys), server.sys) && Keys.Grew(old(server.store), server.store, {})
      ensures written == if server.mode.Chan? && id in server.sys.lost then [202, 503] else [202]
      ensures server.mode.Chan? && |written| == 1 ==> id in server.sys.buf || id in server.sys.delivered
    {
      written := [202];
      var err := Dispatch(id, cancelled);
      if err.Some? {
        written := written + [503];
      }
    }

    /**
     The codes are in the order the handler writes them, and a client sees the first.  `body` is the
     pair in the request, if its body is JSON.  A malformed request is answered 400 and changes
     nothing.  A 202 means a new job of the pair on a reservation of the key made during this call, and
     it is sent before the dispatch, so a job the channel refuses is accepted all the same.  A 409 means
     that a reservation of the key is less than a TTL old, and not this request's unless something
     failed; a 500 that something failed.  A key that stays live throughout the call gets no 202.
     */
    method RequestQuoteUpdate(body: Option<string>, key: string, id: JobId, now: Micros, cancelled: bool)
      returns (reply: Option<Reply>, written: seq<nat>, ghost g: Option<nat>)
      requires server.Valid() && Wired()
      modifies server, api
      ensures server.Valid() && Grows(old(server.sys), server.sys) && Keys.Grew(old(server.store), server.store, {})
      ensures written != [] && old(api.faults) <= api.faults
      ensures written == [400] <==> body.None? || !Provider.ValidatePair(body.value) || key == ""
      ensures written == [400] || written == [409] || written == [500] || written == [202] || written == [202, 503]
      ensures reply.None? <==> written == [400]
      ensures reply == Some(Conflict) <==> written == [409]
      ensures reply == Some(StoreError) || reply == Some(CreateError) <==> written == [500]
      ensures reply == Some(Accepted(id)) <==> written[0] == 202
      ensures written == [400] ==> server.sys == old(server.sys) && server.store == old(server.store)
      ensures written == [409] ==>
        Keys.Held(server.ttl, server.store, key) && (api.own != old(api.own) ==> api.faults > old(api.faults))
      ensures written == [500] ==> api.faults > old(api.faults)
      ensures written[0] == 202 ==>
        && Fulfils(server, old(server.sys), old(server.store), id, now, written, body.value, key, g)
        && (g.Some? <==> api.configured)
        && (api.configured ==> !Keys.StillLive(old(server.store), key, server.store.now))
    {
      server.Same();
      reply, written, g := None, [400], None;
      if body.None? || body.value == "" || !Provider.ValidatePair(body.value) || key == "" { return; }
      var r, asked, created;
      r, asked, created, g := api.RequestQuoteUpdate(body.value, Some(key), id, now);
      reply, written := Some(r), [CodeOf(r)];
      if r.Accepted? {
        written := DispatchAccepted(r.id, cancelled);
      }
    }
  }

  /** The accepted job: new, of the pair, on a new reservation of the key if there is one, and dispatched or refused. */
  ghost predicate Fulfils(server: Server, before: Sys, store: Keys.State, id: JobId, now: Micros,
      written: seq<nat>, pair: Pair, key: string, g: Option<nat>)
    reads server
  {
    && id !in before.db.jobs && id in server.sys.db.jobs
    && server.sys.db.jobs[id].pair == pair && server.sys.db.jobs[id].requestedAt == now
    && id in server.store.jobs && server.store.jobs[id] == g
    && (g.Some? ==> |store.grants| <= g.value < |server.store.grants| && server.store.grants[g.value].key == key)
    && written == (if server.mode.Chan? && id in server.sys.lost then [202, 503] else [202])
    && (server.mode.Chan? && |written| == 1 ==> id in server.sys.buf || id in server.sys.delivered)
  }

  /** A message that was refused is never delivered: its job stays queued, as it is, for good. */
  lemma {:induction false} RefusedStaysQueued(mode: Mode, cap: nat, tr: Trace, i: nat, k: nat, id: JobId)
    requires IsTrace(mode, cap, tr) && !mode.DbPoll? && i <= k < |tr.states|
    requires id in tr.states[i].lost && id !in tr.states[i].delivered
    ensures id in tr.states[k].lost && id !in tr.states[k].delivered
    ensures id in tr.states[i].db.jobs && tr.states[i].db.jobs[id].status == Queued
    ensures id in tr.states[k].db.jobs && tr.states[k].db.jobs[id] == tr.states[i].db.jobs[id]
  {
    LostIsQueuedAt(mode, cap, tr, i, id);
    RunGrows(mode, cap, tr, i, k);
    if i < k {
      RefusedStaysQueued(mode, cap, tr, i, k - 1, id);
      NotHandedOutAt(mode, cap, tr, k - 1, id);
    }
  }

  lemma LostIsQueuedAt(mode: Mode, cap: nat, tr: Trace, i: nat, id: JobId)
    requires IsTrace(mode, cap, tr) && !mode.DbPoll? && i < |tr.states| && id in tr.states[i].lost
    ensures id in tr.states[i].db.jobs && tr.states[i].db.jobs[id].status == Queued
  {
    InvAt(mode, cap, tr, i);
    LostIsQueued(tr.states[i], id);
  }

  lemma NotHandedOutAt(mode: Mode, cap: nat, tr: Trace, i: nat, id: JobId)
    requires IsTrace(mode, cap, tr) && !mode.DbPoll? && i < |tr.steps|
    requires id in tr.states[i].lost && id !in tr.states[i].delivered
    ensures id !in tr.states[i + 1].delivered
  {
    InvAt(mode, cap, tr, i);
    assert Took(tr, i);
    NotHandedOut(tr.states[i], tr.steps[i], id);
  }

  lemma LostIsQueued(s: Sys, id: JobId)
    requires Inv(s) && !s.mode.DbPoll? && id in s.lost
    ensures id in s.db.jobs && s.db.jobs[id].status == Queued
  {
  }

  lemma NotHandedOut(s: Sys, st: Step, id: JobId)
    requires Inv(s) && Enabled(s, st) && !s.mode.DbPoll? && id in s.lost && id !in s.delivered
    ensures id !in Next(s, st).delivered
  {
    HandsOutDelivers(s, st);
    OnePlace(s, id);
    assert st.Return? ==> ActorOk(s, At(s, st.w));
  }

  // ----- what one key can make the system do -----

  function FetchedAt(tr: Trace, i: nat): JobId
    requires |tr.states| == |tr.steps| + 1 && i < |tr.steps| && Fetches(tr.steps[i])
  {
    Cur(At(tr.states[i], tr.steps[i].w))
  }

  /** The steps of the run that fetch a rate for one of the jobs. */
  function FetchSteps(tr: Trace, ids: set<JobId>): set<nat>
    requires |tr.states| == |tr.steps| + 1
  {
    set i | 0 <= i < |tr.steps| && Fetches(tr.steps[i]) && FetchedAt(tr, i) in ids
  }

  /** The commits that complete one of the jobs. */
  function Completions(s: Sys, ids: set<JobId>): set<nat> {
    set i | 0 <= i < |s.log| && s.log[i].Completed? && s.log[i].id in ids
  }

  lemma FetchStepsBound(mode: Mode, cap: nat, tr: Trace, ids: set<JobId>)
    requires IsTrace(mode, cap, tr)
    ensures |FetchSteps(tr, ids)| <= |ids|
  {
    var jobOf := (i: nat) =>
      if |tr.states| == |tr.steps| + 1 && i < |tr.steps| && Fetches(tr.steps[i]) then FetchedAt(tr, i) else "";
    var xs := FetchSteps(tr, ids);
    forall i, k | i in xs && k in xs && i != k ensures jobOf(i) != jobOf(k) {
      FetchedOnce(mode, cap, tr, if i < k then i else k, if i < k then k else i);
    }
    InjectionSize<nat, JobId>(xs, ids, jobOf);
  }

  lemma CompletionsBound(s: Sys, ids: set<JobId>)
    requires LogOk(s)
    ensures |Completions(s, ids)| <= |ids|
  {
    var jobOf := (i: nat) => if i < |s.log| && s.log[i].Completed? then s.log[i].id else "";
    InjectionSize<nat, JobId>(Completions(s, ids), ids, jobOf);
  }

  /**
   In a span T the requests with one key cause at most floor(T / TTL) + 1 fetches and as many
   completions, whatever the requests, the workers and the failures; and every fetch anybody makes is
   for a job whose request is on record.
   */
  lemma OneKeyFewFetches(server: Server, key: string, from: int, span: nat)
    requires server.Valid()
    ensures
      var ids := Keys.JobsWithin(server.store, key, from, span);
      var most := if server.ttl == 0 then 1 else span / server.ttl + 1;
      && |FetchSteps(server.trace, ids)| <= most
      && |Completions(server.sys, ids)| <= most
    ensures forall id :: id in server.sys.fetched ==> id in server.store.jobs
  {
    var ids := Keys.JobsWithin(server.store, key, from, span);
    server.Sound();
    Keys.JobsBound(server.ttl, server.keys, key, from, span);
    FetchStepsBound(server.mode, server.cap, server.trace, ids);
    CompletionsBound(server.sys, ids);
  }
}
