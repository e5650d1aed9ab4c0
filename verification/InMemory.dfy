/**
 The in-memory repositories of the HTTP package: a mutex makes each call one step, so the calls are
 sequential, but a claim ranges over its map in any order.
 */
module InMemory {
  import opened Prelude
  import opened Tables

  datatype QuoteUpdate =
    QuoteUpdate(id: string, pair: Pair, status: Status, error: Option<string>, price: Option<real>, updatedAt: int)

  type Jobs = map<string, QuoteUpdate>

  datatype Claim = Claim(id: string, pair: Pair)

  function Ids(out: seq<Claim>): seq<string> {
    seq(|out|, i requires 0 <= i < |out| => out[i].id)
  }

  function QueuedIds(jobs: Jobs): set<string> {
    set id | id in jobs && jobs[id].status == Queued
  }

  /** The claimed jobs turn from queued to processing and nothing else changes. */
  ghost predicate Moved(before: Jobs, ids: set<string>, after: Jobs) {
    && ids <= QueuedIds(before)
    && after.Keys == before.Keys
    && forall id :: id in before ==> after[id] == if id in ids then before[id].(status := Processing) else before[id]
  }

  /** How many a claim returns: a limit of zero or less is no limit. */
  function Taken(queued: nat, limit: int): nat {
    if 0 < limit < queued then limit else queued
  }

  ghost predicate IsClaim(before: Jobs, limit: int, out: seq<Claim>, after: Jobs) {
    && Distinct(Ids(out))
    && Moved(before, Elements(Ids(out)), after)
    && (forall i :: 0 <= i < |out| ==> out[i].id in before && out[i].pair == before[out[i].id].pair)
    && |out| == Taken(|QueuedIds(before)|, limit)
  }

  /** A run of claims on one store: states[i + 1] is what the claim that returned outs[i] left. */
  ghost predicate AreClaims(states: seq<Jobs>, limit: int, outs: seq<seq<Claim>>) {
    && |states| == |outs| + 1
    && forall i :: 0 <= i < |outs| ==> IsClaim(states[i], limit, outs[i], states[i + 1])
  }

  function AllIds(outs: seq<seq<Claim>>): seq<string> {
    if outs == [] then [] else AllIds(outs[..|outs| - 1]) + Ids(outs[|outs| - 1])
  }

  /**
   Over any number of claims no job is returned twice, the jobs returned are the ones that moved, and
   n claims of limit L return min(n * L, queued) of them (all at the first claim when L <= 0).
   */
  lemma {:induction false} ClaimsAddUp(states: seq<Jobs>, limit: int, outs: seq<seq<Claim>>)
    requires AreClaims(states, limit, outs)
    ensures Distinct(AllIds(outs))
    ensures Moved(states[0], Elements(AllIds(outs)), states[|outs|])
    ensures |AllIds(outs)| == if outs == [] then 0 else Taken(|QueuedIds(states[0])|, |outs| * limit)
  {
    var n := |outs|;
    if n > 0 {
      ClaimsAddUp(states[..n], limit, outs[..n - 1]);
      assert IsClaim(states[n - 1], limit, outs[n - 1], states[n]);
      MovedTwice(states[0], AllIds(outs[..n - 1]), states[n - 1], limit, outs[n - 1], states[n]);
      TakenTwice(|QueuedIds(states[0])|, n - 1, limit);
    }
  }

  lemma MovedTwice(first: Jobs, ids: seq<string>, before: Jobs, limit: int, out: seq<Claim>, after: Jobs)
    requires Distinct(ids) && Moved(first, Elements(ids), before) && IsClaim(before, limit, out, after)
    ensures Distinct(ids + Ids(out)) && Moved(first, Elements(ids + Ids(out)), after)
    ensures |QueuedIds(before)| == |QueuedIds(first)| - |ids|
  {
    StillQueued(first, ids, before);
    assert forall id :: id in ids ==> id in Elements(ids);
    assert forall id :: id in Ids(out) ==> id in Elements(Ids(out));
    DistinctAppend(ids, Ids(out));
    assert Elements(ids + Ids(out)) == Elements(ids) + Elements(Ids(out));
  }

  lemma StillQueued(first: Jobs, ids: seq<string>, before: Jobs)
    requires Distinct(ids) && Moved(first, Elements(ids), before)
    ensures QueuedIds(before) == QueuedIds(first) - Elements(ids)
    ensures |QueuedIds(before)| == |QueuedIds(first)| - |ids|
  {
    DistinctSize(ids);
    assert forall id :: id in QueuedIds(before) <==> id in QueuedIds(first) && id !in Elements(ids);
  }

  lemma TakenTwice(queued: nat, n: nat, limit: int)
    ensures
      var first := if n == 0 then 0 else Taken(queued, n * limit);
      first <= queued && first + Taken(queued - first, limit) == Taken(queued, (n + 1) * limit)
  {
    assert (n + 1) * limit == n * limit + limit;
    if limit <= 0 {
      assert n * limit <= 0;
    } else {
      assert n * limit >= n;
    }
  }

  const THE_ID := "update-1"

  function Created(jobs: Jobs, pair: Pair, now: int): Jobs {
    jobs[THE_ID := QuoteUpdate(THE_ID, pair, Queued, None, None, now)]
  }

  /** The store after the requests, each a pair and its time. */
  function CreatedAll(jobs: Jobs, requests: seq<(Pair, int)>): Jobs {
    if requests == [] then jobs else
      var last := requests[|requests| - 1];
      Created(CreatedAll(jobs, requests[..|requests| - 1]), last.0, last.1)
  }

  /** However many requests, the store has one job of theirs, queued, for the last pair; earlier ones are gone. */
  lemma {:induction false} OneJobEver(jobs: Jobs, requests: seq<(Pair, int)>)
    requires requests != []
    ensures
      var (pair, now) := requests[|requests| - 1];
      && CreatedAll(jobs, requests).Keys == jobs.Keys + {THE_ID}
      && CreatedAll(jobs, requests)[THE_ID] == QuoteUpdate(THE_ID, pair, Queued, None, None, now)
      && forall id :: id in jobs && id != THE_ID ==> CreatedAll(jobs, requests)[id] == jobs[id]
  {
    if |requests| > 1 {
      OneJobEver(jobs, requests[..|requests| - 1]);
    } else {
      assert CreatedAll(jobs, requests[..0]) == jobs;
    }
  }

  class FakeUpdateJobRepo {
    var jobs: Option<Jobs> // None: the map was never made

    constructor (jobs: Option<Jobs>)
      ensures this.jobs == jobs
    {
      this.jobs := jobs;
    }

    function Table(): Jobs reads this {
      if jobs.Some? then jobs.value else map[]
    }

    /** Every job gets the same id, so a second one replaces the first. */
    method CreateQueued(pair: Pair, now: int) returns (id: string)
      modifies this
      ensures id == THE_ID && jobs == Some(Created(old(Table()), pair, now))
    {
      id := THE_ID;
      jobs := Some(Table()[id := QuoteUpdate(id, pair, Queued, None, None, now)]);
    }

    /** No guard on the status being replaced; an unknown id changes nothing. */
    method UpdateStatus(id: string, status: Status, error: Option<string>, now: int) returns (err: Option<string>)
      modifies this
      ensures err.None? <==> id in old(Table())
      ensures err.None? ==> jobs == Some(
        old(Table())[id := old(Table())[id].(status := status, error := error, updatedAt := now)])
      ensures err.Some? ==> jobs == old(jobs) && err.value == if old(jobs).None? then "no jobs" else "not found"
    {
      if jobs.None? { return Some("no jobs"); }
      if id !in jobs.value { return Some("not found"); }
      jobs := Some(jobs.value[id := jobs.value[id].(status := status, error := error, updatedAt := now)]);
      err := None;
    }

    method ClaimQueued(limit: int) returns (out: seq<Claim>)
      modifies this
      ensures IsClaim(old(Table()), limit, out, Table())
      ensures jobs.None? <==> old(jobs).None?
    {
      ghost var before := Table();
      out := [];
      var todo := Table().Keys;
      while todo != {}
        invariant jobs.None? <==> old(jobs).None?
        invariant Claiming(before, todo, out, Table())
        invariant limit > 0 ==> |out| < limit
        decreases |todo|
      {
        var id :| id in todo;
        var j := jobs.value[id];
        ClaimingNext(before, todo, out, Table(), id);
        todo := todo - {id};
        if j.status == Queued {
          jobs := Some(jobs.value[id := j.(status := Processing)]);
          out := out + [Claim(id, j.pair)];
          if limit > 0 && |out| >= limit {
            break;
          }
        }
      }
      CountClaimed(before, todo, out, Table(), limit);
    }
  }

  /** The loop so far: the entries of `todo` are not visited yet. */
  ghost predicate Claiming(before: Jobs, todo: set<string>, out: seq<Claim>, jobs: Jobs) {
    && todo <= before.Keys
    && Distinct(Ids(out))
    && Elements(Ids(out)) == QueuedIds(before) - todo
    && Moved(before, Elements(Ids(out)), jobs)
    && forall i :: 0 <= i < |out| ==> out[i].id in before && out[i].pair == before[out[i].id].pair
  }

  lemma ClaimingNext(before: Jobs, todo: set<string>, out: seq<Claim>, jobs: Jobs, id: string)
    requires Claiming(before, todo, out, jobs) && id in todo
    ensures id in jobs && jobs[id] == before[id]
    ensures
      if jobs[id].status == Queued then
        Claiming(before, todo - {id}, out + [Claim(id, jobs[id].pair)], jobs[id := jobs[id].(status := Processing)])
      else Claiming(before, todo - {id}, out, jobs)
  {
    var ids := Ids(out);
    assert id !in Elements(ids);
    if jobs[id].status == Queued {
      DistinctAppend(ids, [id]);
      assert Ids(out + [Claim(id, jobs[id].pair)]) == ids + [id];
      assert Elements(ids + [id]) == Elements(ids) + {id};
    }
  }

  /** A claim that stopped at its limit, or saw every job, took as many as it should. */
  lemma CountClaimed(before: Jobs, todo: set<string>, out: seq<Claim>, jobs: Jobs, limit: int)
    requires Claiming(before, todo, out, jobs)
    requires if todo == {} then limit > 0 ==> |out| <= limit else limit > 0 && |out| == limit
    ensures IsClaim(before, limit, out, jobs)
  {
    var ids := Ids(out);
    DistinctSize(ids);
    assert QueuedIds(before) == Elements(ids) + (QueuedIds(before) * todo);
    assert todo == {} ==> QueuedIds(before) == Elements(ids);
  }

  class FakeQuoteRepo {
    var store: Option<map<Pair, Quote>>

    constructor (store: Option<map<Pair, Quote>>)
      ensures this.store == store
    {
      this.store := store;
    }

    method GetLast(pair: Pair) returns (r: Result<Quote>)
      ensures r.Ok? <==> store.Some? && pair in store.value
      ensures r.Ok? ==> r.value == store.value[pair]
      ensures r.Err? ==> r.error == "not found"
    {
      if store.None? { return Err("not found"); }
      if pair !in store.value { return Err("not found"); }
      r := Ok(store.value[pair]);
    }

    method Upsert(q: Quote)
      modifies this
      ensures store == Some((if old(store).Some? then old(store).value else map[])[q.pair := q])
    {
      if store.None? { store := Some(map[]); }
      store := Some(store.value[q.pair := q]);
    }
  }
}
