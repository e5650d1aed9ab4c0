/**
 A request: it reserves its key, creates its job, answers, and only then dispatches.  The key store,
 the tables and the workers are one server here, and everybody else runs in between.
 */
module Requests {
  import opened Prelude
  import opened Tables
  import opened Machine
  import opened Consistency
  import opened Service
  import Keys = Idempotency

  datatype Reply = Accepted(id: JobId) | BadRequest | Conflict | StoreError | CreateError

  function ReplyOf(asked: Option<Result<bool>>, created: Option<Result<JobId>>): Reply {
    match (asked, created)
    case (_, Some(Ok(id))) => Accepted(id)
    case (_, Some(Err(_))) => CreateError
    case (Some(Ok(_)), None) => Conflict
    case (Some(Err(_)), None) => StoreError
    case (None, None) => BadRequest
  }

  /** The job is in the tables, unfinished business of this request, on reservation g if there is one. */
  ghost predicate Made(server: Server, id: JobId, pair: Pair, now: Micros, g: Option<nat>)
    reads server
  {
    && id in server.sys.db.jobs && server.sys.db.jobs[id] == Job(pair, Queued, None, now, None)
    && id in server.store.jobs && server.store.jobs[id] == g
    && (!server.mode.DbPoll? ==> id in server.sys.inbox)
  }

  class Api {
    const server: Server
    const configured: bool // a service built without a store reserves nothing
    ghost var faults: nat // times the store, the database or a connection failed it
    ghost var own: seq<nat> // the reservations that are its requests' doing

    constructor (server: Server, configured: bool)
      ensures this.server == server && this.configured == configured && faults == 0 && own == []
    {
      this.server, this.configured, faults, own := server, configured, 0, [];
    }

    /** Whether the next call fails. */
    method Fault() returns (failed: bool)
      modifies this`faults
      ensures faults == old(faults) + if failed then 1 else 0
    {
      failed := *;
      if failed { faults := faults + 1; }
    }

    /** The command at the store, at one moment; `heard`: its reply gets back. */
    method SetNX(key: string, heard: bool) returns (made: bool)
      requires server.Valid()
      modifies server`store, server`keys, this`own
      ensures server.Valid() && Keys.Grew(old(server.store), server.store, {})
      ensures server.store.now == old(server.store).now
      ensures made <==> !Keys.Held(server.ttl, old(server.store), key)
      ensures !made ==> server.store == old(server.store) && own == old(own)
      ensures made ==> own == old(own) + [|old(server.store).grants|]
      ensures made ==> server.store.grants == old(server.store).grants + [Keys.Grant(key, old(server.store).now)]
      ensures made ==> (heard <==> |old(server.store).grants| in server.store.pending)
    {
      server.SoundKeys();
      server.Same();
      Keys.LiveExactly(server.ttl, server.store, key);
      made := !Keys.Live(server.store, key);
      if made {
        own := own + [|server.store.grants|];
        server.TakeKey(Keys.Reserves(key, heard));
      }
    }

    /**
     Yes makes `g` the key's reservation, now and for this request.  When nothing fails the answer is
     yes exactly if no reservation of the key is less than a TTL old.
     */
    method TryReserve(key: string) returns (r: Result<bool>, g: nat)
      requires server.Valid()
      modifies server, this
      ensures server.Valid() && Grows(old(server.sys), server.sys) && Keys.Grew(old(server.store), server.store, {})
      ensures old(faults) <= faults && old(own) <= own
      ensures r == Ok(true) ==> Reserved(key, g, old(server.store))
      ensures r == Ok(false) ==> Keys.Held(server.ttl, server.store, key)
      ensures faults == old(faults) ==> r == Ok(!Keys.Held(server.ttl, old(server.store), key))
      ensures faults == old(faults) && r == Ok(false) ==> own == old(own)
    {
      server.Same();
      g := |server.store.grants|;
      var failed := Fault();
      if failed {
        r, g := AskAgain(key);
        return;
      }
      var made := SetNX(key, true);
      r := Ok(made);
    }

    /** The others run, then the reservation. */
    method ReserveLater(key: string) returns (r: Result<bool>, g: nat)
      requires server.Valid()
      modifies server, this
      ensures server.Valid() && Grows(old(server.sys), server.sys) && Keys.Grew(old(server.store), server.store, {})
      ensures old(faults) <= faults && old(own) <= own
      ensures r == Ok(true) ==> Reserved(key, g, old(server.store))
      ensures r == Ok(false) ==> Keys.Held(server.ttl, server.store, key)
      ensures r == Ok(false) && own != old(own) ==> faults > old(faults)
      ensures r.Err? ==> faults > old(faults)
    {
      server.Others(None, {});
      r, g := TryReserve(key);
    }

    /** A reservation of the key that its store made since, at this moment, and that nobody else can use. */
    ghost predicate Reserved(key: string, g: nat, before: Keys.State)
      reads this, server
    {
      && |before.grants| <= g < |server.store.grants|
      && g in server.store.pending && g in own
      && server.store.grants[g] == Keys.Grant(key, server.store.now)
    }

    /**
     The command or its reply got lost, and the client asks again, a number of times.  It may be told
     that the key exists because of its own first command.
     */
    method AskAgain(key: string) returns (r: Result<bool>, g: nat)
      requires server.Valid()
      modifies server, this
      ensures server.Valid() && Grows(old(server.sys), server.sys) && Keys.Grew(old(server.store), server.store, {})
      ensures faults == old(faults) && old(own) <= own
      ensures r == Ok(true) ==> Reserved(key, g, old(server.store))
      ensures r == Ok(false) ==> Keys.Held(server.ttl, server.store, key)
    {
      server.Same();
      g := |server.store.grants|;
      var tries: nat := *;
      while tries > 0
        invariant server.Valid() && Grows(old(server.sys), server.sys)
        invariant Keys.Grew(old(server.store), server.store, {}) && faults == old(faults) && old(own) <= own
      {
        Unheard(key);
        tries := tries - 1;
      }
      var heard := *;
      if !heard { return Err("connection"), g; }
      g := |server.store.grants|;
      var made := SetNX(key, true);
      r := Ok(made);
    }

    /** One more command whose reply is not heard, if it reaches the store at all. */
    method Unheard(key: string)
      requires server.Valid()
      modifies server, this
      ensures server.Valid() && Grows(old(server.sys), server.sys) && Keys.Grew(old(server.store), server.store, {})
      ensures faults == old(faults) && old(own) <= own
    {
      var reached := *;
      if reached {
        var made := SetNX(key, false);
      }
      server.Others(None, {});
    }

    /**
     The insert, of an id drawn for it: one drawn before counts as a failure.  The row may be there
     although the caller is told it is not; then nobody will dispatch it.
     */
    method CreateQueued(id: JobId, pair: Pair, now: Micros, g: Option<nat>) returns (r: Result<JobId>)
      requires server.Valid() && (g.Some? ==> g.value in server.store.pending && g.value < |server.store.grants|)
      modifies server, this`faults
      ensures server.Valid() && Grows(old(server.sys), server.sys) && Keys.Grew(old(server.store), server.store, {})
      ensures old(faults) <= faults && (r.Err? ==> faults > old(faults))
      ensures g.Some? ==> g.value !in server.store.pending
      ensures r.Ok? ==> r.value == id && id !in old(server.sys).db.jobs && Made(server, id, pair, now, g)
      ensures r.Ok? ==> server.sys == DoCreate(old(server.sys), id, pair, now)
    {
      server.Same();
      var unacknowledged := *;
      var failed := Fault();
      if id in server.sys.db.jobs || (failed && !unacknowledged) {
        faults := old(faults) + 1;
        GiveUp(g);
        return Err("insert");
      }
      server.Create(g, id, pair, now);
      if failed {
        Forget(id);
        return Err("insert");
      }
      r := Ok(id);
    }

    /** The others run, then the insert; the reservation was made since `before`. */
    method CreateLater(pair: Pair, id: JobId, now: Micros, g: Option<nat>, ghost before: Keys.State)
      returns (r: Result<JobId>)
      requires server.Valid() && Keys.Inv(server.ttl, before) && Keys.Grew(before, server.store, {})
      requires g.Some? ==> g.value in server.store.pending && |before.grants| <= g.value < |server.store.grants|
      modifies server, this`faults
      ensures server.Valid() && Grows(old(server.sys), server.sys) && Keys.Grew(old(server.store), server.store, {})
      ensures old(faults) <= faults && (r.Err? ==> faults > old(faults))
      ensures r.Ok? ==> r.value == id && id !in old(server.sys).db.jobs && Made(server, id, pair, now, g)
      ensures g.Some? ==> var key := old(server.store).grants[g.value].key;
        && !Keys.StillLive(before, key, server.store.now)
        && Keys.Spent(server.ttl, server.store, g.value, key)
    {
      server.Others(None, {}, if g.Some? then {g.value} else {});
      r := CreateQueued(id, pair, now, g);
      if g.Some? {
        server.NotLiveBefore(before, g.value);
        server.Spend(g.value);
      }
    }

    method GiveUp(g: Option<nat>)
      requires server.Valid() && (g.Some? ==> g.value in server.store.pending)
      modifies server`store, server`keys
      ensures server.Valid() && Keys.Grew(old(server.store), server.store, {})
      ensures g.Some? ==> g.value !in server.store.pending
    {
      server.Same();
      if g.Some? { server.TakeKey(Keys.Drops(g.value)); }
    }

    method Forget(id: JobId)
      requires server.Valid()
      modifies server`sys, server`trace
      ensures server.Valid() && Grows(old(server.sys), server.sys)
    {
      server.Same();
      if CanReject(server.sys, id) {
        server.Take(Reject(id));
      }
    }

    /**
     `asked` and `created` are what the store and the job table answered, if they were asked; they
     decide the reply.  A request without a key changes nothing.  An accepted one has a new job, on a
     reservation of its key made during this call; a conflict means that a reservation of the key is
     less than a TTL old, and not this request's unless something failed; any other error means that
     something did fail, and a creation that fails leaves its reservation spent.
     */
    method RequestQuoteUpdate(pair: Pair, idem: Option<string>, id: JobId, now: Micros)
      returns (reply: Reply, asked: Option<Result<bool>>, created: Option<Result<JobId>>, ghost g: Option<nat>)
      requires server.Valid()
      modifies server, this
      ensures server.Valid() && Grows(old(server.sys), server.sys) && Keys.Grew(old(server.store), server.store, {})
      ensures old(faults) <= faults && old(own) <= own
      ensures asked.Some? <==> configured && idem != None && idem != Some("")
      ensures created.Some? <==> idem != None && idem != Some("") && (asked.Some? ==> asked.value == Ok(true))
      ensures reply == ReplyOf(asked, created)
      ensures reply.BadRequest? ==> server.sys == old(server.sys) && server.store == old(server.store)
      ensures reply.Accepted? ==>
        reply.id == id && id !in old(server.sys).db.jobs && Made(server, id, pair, now, g)
      ensures g.Some? ==> |old(server.store).grants| <= g.value < |server.store.grants|
      ensures g.Some? ==> server.store.grants[g.value].key == idem.value
      ensures g.Some? ==> !Keys.StillLive(old(server.store), idem.value, server.store.now)
      ensures created.Some? ==> (g.Some? <==> configured)
      ensures reply.Conflict? ==> Keys.Held(server.ttl, server.store, idem.value)
      ensures reply.Conflict? && own != old(own) ==> faults > old(faults)
      ensures reply.StoreError? || reply.CreateError? ==> faults > old(faults)
      ensures reply.CreateError? && g.Some? ==> Keys.Spent(server.ttl, server.store, g.value, idem.value)
    {
      server.Same();
      server.SoundKeys();
      asked, created, g := None, None, None;
      if idem == None || idem == Some("") {
        reply := BadRequest;
        return;
      }
      var reservation: Option<nat> := None;
      if configured {
        var reserved, n := ReserveLater(idem.value);
        asked := Some(reserved);
        if reserved.Err? || !reserved.value {
          reply := if reserved.Err? then StoreError else Conflict;
          return;
        }
        reservation := Some(n);
      }
      g := reservation;
      var r := CreateLater(pair, id, now, reservation, old(server.store));
      created := Some(r);
      reply := if r.Err? then CreateError else Accepted(id);
    }
  }
}
