/** The two brokers agree. A promotion pass run alone is a run of the protocol, and after it
    Redis and Postgres have work for a queue under exactly the same circumstances. */
module Agreement {
  import opened Jobs
  import opened RedisStore
  import opened Lifecycle
  import opened Invariant
  import opened Conservation
  import opened Promotion
  import opened SoloScheduler
  import RedisRefinement
  import JobTable
  import PostgresTable
  import PostgresLifecycle

  // ---------- a pass as events ----------

  ghost predicate PassAt(s: State, tok: Token, now: Time, src: Source, due: seq<Id>, rest: seq<Source>, count: nat) {
    tok in s.calls && s.calls[tok] == Promoting(now, src, due, rest, count)
  }

  lemma {:induction false} PromoteEvents(evs: seq<Event>, tok: Token, now: Time, src: Source, due: seq<Id>,
                                         rest: seq<Source>, count: nat)
    returns (es: seq<Event>)
    requires Legal(evs) && PassAt(Exec(evs), tok, now, src, due, rest, count)
    ensures evs <= es && Legal(es)
    ensures Exec(es).store == PromoteEach(Exec(evs).store, src, due).0
    ensures PassAt(Exec(es), tok, now, src, [], rest, count + PromoteEach(Exec(evs).store, src, due).1)
    decreases |due|
  {
    es := evs;
    if due != [] {
      var s := Exec(evs);
      var e := Promote(tok, src, due[0], PromoteScript(s.store, src, due[0]).1);
      Extend(evs, e);
      es := PromoteEvents(evs + [e], tok, now, src, due[1..], rest, count + (if e.moved then 1 else 0));
    }
  }

  lemma {:induction false} ScanEvents(evs: seq<Event>, tok: Token, now: Time, src: Source, rest: seq<Source>,
                                      count: nat, batches: seq<seq<Id>>)
    returns (es: seq<Event>, last: Source)
    requires Legal(evs) && PassAt(Exec(evs), tok, now, src, [], rest, count)
    requires Listed(Exec(evs).store, now, rest, batches)
    ensures evs <= es && Legal(es)
    ensures Exec(es).store == PassResult(Exec(evs).store, rest, batches).0
    ensures PassAt(Exec(es), tok, now, last, [], [], count + PassResult(Exec(evs).store, rest, batches).1)
    decreases |rest|
  {
    es, last := evs, src;
    if rest != [] {
      Extend(evs, Scan(tok, batches[0]));
      es := PromoteEvents(evs + [Scan(tok, batches[0])], tok, now, rest[0], batches[0], rest[1..], count);
      var n := PromoteEach(Exec(evs).store, rest[0], batches[0]).1;
      es, last := ScanEvents(es, tok, now, rest[0], rest[1..], count + n, batches[1..]);
    }
  }

  lemma BeginEvent(evs: seq<Event>, queues: seq<Queue>)
    requires Legal(evs)
    ensures Legal(evs + [PassBegin(Exec(evs).next, queues)])
    ensures var s, t := Exec(evs), Exec(evs + [PassBegin(Exec(evs).next, queues)]);
            t.store == s.store && PassAt(t, s.next, s.clock, ScheduledSet, [], Sources(queues), 0)
  {
    Extend(evs, PassBegin(Exec(evs).next, queues));
  }

  lemma EndEvent(evs: seq<Event>, tok: Token, now: Time, src: Source, count: nat)
    requires Legal(evs) && PassAt(Exec(evs), tok, now, src, [], [], count)
    ensures Legal(evs + [PassEnd(tok, count)]) && Exec(evs + [PassEnd(tok, count)]).store == Exec(evs).store
  {
    Extend(evs, PassEnd(tok, count));
  }

  /** A pass with nothing interleaved is a run of the protocol: it ends with PassEnd, returns
      the count of PassResult and leaves its store. */
  lemma PassRuns(evs: seq<Event>, queues: seq<Queue>, batches: seq<seq<Id>>) returns (es: seq<Event>)
    requires Legal(evs) && Listed(Exec(evs).store, Exec(evs).clock, Sources(queues), batches)
    ensures evs <= es && Legal(es) && es != []
    ensures Exec(es).store == PassResult(Exec(evs).store, Sources(queues), batches).0
    ensures Last(es) == PassEnd(Exec(evs).next, PassResult(Exec(evs).store, Sources(queues), batches).1)
  {
    var s := Exec(evs);
    var begun := evs + [PassBegin(s.next, queues)];
    BeginEvent(evs, queues);
    var scanned, last := ScanEvents(begun, s.next, s.clock, ScheduledSet, Sources(queues), 0, batches);
    var n := PassResult(s.store, Sources(queues), batches).1;
    EndEvent(scanned, s.next, s.clock, last, n);
    es := scanned + [PassEnd(s.next, n)];
    assert evs <= begun <= scanned <= es;
  }

  // ---------- claimable work ----------

  lemma ReachableHasRecords(s: State, l: Ledger)
    requires Coupled(s, l)
    ensures HasRecords(s.store)
  {
    forall src, id | id in Members(s.store, src) ensures id in s.store.jobs {
      PromoteMoves(s, l, src, id);
    }
  }

  /** A due job is on its queue's list after the pass. */
  lemma DueIsQueued(s: State, l: Ledger, queues: seq<Queue>, batches: seq<seq<Id>>, q: Queue, id: Id)
    requires Coupled(s, l) && Listed(s.store, s.clock, Sources(queues), batches) && q in queues
    requires id in l && JobTable.Allowed(RedisRefinement.TableOf(l), JobTable.Take(id, q), s.clock)
    ensures id in List(PassResult(s.store, Sources(queues), batches).0.queues, q)
  {
    ReachableHasRecords(s, l);
    assert EntryOk(id, l[id]) && KeptAt(s.store, id, l[id]);
    var t := PassResult(s.store, Sources(queues), batches).0;
    match l[id].place.loc
    case InQueue(_) =>
      StoredAt(s.store, l, id, InQueue(q));
      PassEffect(s.store, s.clock, Sources(queues), batches);
      assert List(t.queues, q) == Reverse(BoundFor(s.store.jobs, Flatten(batches), q)) + List(s.store.queues, q);
    case InScheduled =>
      assert Sources(queues)[0] == ScheduledSet;
      PassComplete(s.store, s.clock, Sources(queues), batches, ScheduledSet, id);
    case InRetry(_) =>
      var i :| 0 <= i < |queues| && queues[i] == q;
      assert Sources(queues)[i + 1] == RetrySet(q);
      PassComplete(s.store, s.clock, Sources(queues), batches, RetrySet(q), id);
  }

  /** A job that is queued, or due in a waiting set, could be taken. */
  lemma QueuedCanGo(s: State, l: Ledger, q: Queue, id: Id)
    requires Coupled(s, l) && Timely(l, s.clock) && id in List(s.store.queues, q)
    ensures id in l && JobTable.Allowed(RedisRefinement.TableOf(l), JobTable.Take(id, q), s.clock)
  {
    StoredAt(s.store, l, id, InQueue(q));
    assert EntryOk(id, l[id]);
  }

  lemma WaitingCanGo(s: State, l: Ledger, src: Source, id: Id)
    requires Coupled(s, l) && id in Members(s.store, src) && Members(s.store, src)[id] <= s.clock
    ensures id in l && JobTable.Allowed(RedisRefinement.TableOf(l), JobTable.Take(id, l[id].job.queue), s.clock)
    ensures id in s.store.jobs && s.store.jobs[id] == l[id].job
  {
    PromoteMoves(s, l, src, id);
    assert KeptAt(s.store, id, l[id]);
  }

  /** What is on the list after the pass was there before, or due and bound for it. */
  lemma ListAfterPass(s: Store, now: Time, srcs: seq<Source>, batches: seq<seq<Id>>, q: Queue, id: Id)
    requires HasRecords(s) && Listed(s, now, srcs, batches)
    requires id in List(PassResult(s, srcs, batches).0.queues, q)
    ensures id in List(s.queues, q) || (DueIn(s, now, srcs, id) && Names(s.jobs, id, q))
  {
    PassEffect(s, now, srcs, batches);
    ReverseHas(BoundFor(s.jobs, Flatten(batches), q), id);
  }

  /** Whatever is on the list after the pass could be taken. */
  lemma QueuedIsDue(s: State, l: Ledger, queues: seq<Queue>, batches: seq<seq<Id>>, q: Queue, id: Id)
    requires Coupled(s, l) && Timely(l, s.clock) && Listed(s.store, s.clock, Sources(queues), batches)
    requires id in List(PassResult(s.store, Sources(queues), batches).0.queues, q)
    ensures id in l && JobTable.Allowed(RedisRefinement.TableOf(l), JobTable.Take(id, q), s.clock)
  {
    ReachableHasRecords(s, l);
    ListAfterPass(s.store, s.clock, Sources(queues), batches, q, id);
    if id in List(s.store.queues, q) {
      QueuedCanGo(s, l, q, id);
    } else {
      var src :| src in Sources(queues) && id in Members(s.store, src) && Members(s.store, src)[id] <= s.clock;
      WaitingCanGo(s, l, src, id);
    }
  }

  /** With any number of schedulers, a job of the table that could be taken is on its queue's list
      after a complete pass that covers the queue. */
  lemma ClaimableIsQueued(evs: seq<Event>, queues: seq<Queue>, batches: seq<seq<Id>>, q: Queue, id: Id)
    requires Legal(evs) && q in queues && Listed(Exec(evs).store, Exec(evs).clock, Sources(queues), batches)
    requires JobTable.Allowed(RedisRefinement.TableAfter(evs), JobTable.Take(id, q), Exec(evs).clock)
    ensures id in List(PassResult(Exec(evs).store, Sources(queues), batches).0.queues, q)
  {
    RunCoupled(evs);
    RedisRefinement.RedisRefinesButForTime(evs);
    DueIsQueued(Exec(evs), History(evs), queues, batches, q, id);
  }

  /** After a complete pass that covers the queue, Redis has something to pop from it exactly
      when the abstract table has a claimable job for it. */
  lemma RedisHasWork(evs: seq<Event>, queues: seq<Queue>, batches: seq<seq<Id>>, q: Queue)
    requires Legal(evs) && Solo(evs) && q in queues
    requires Listed(Exec(evs).store, Exec(evs).clock, Sources(queues), batches)
    ensures List(PassResult(Exec(evs).store, Sources(queues), batches).0.queues, q) != []
       <==> JobTable.Claimable(RedisRefinement.TableAfter(evs), q, Exec(evs).clock)
  {
    RunCoupled(evs);
    NeverEarly(evs);
    RedisRefinement.RedisRefines(evs);
    var s, l := Exec(evs), History(evs);
    var list := List(PassResult(s.store, Sources(queues), batches).0.queues, q);
    if list != [] {
      QueuedIsDue(s, l, queues, batches, q, list[0]);
    }
    if JobTable.Claimable(RedisRefinement.TableAfter(evs), q, s.clock) {
      var id :| JobTable.Allowed(RedisRefinement.TableAfter(evs), JobTable.Take(id, q), s.clock);
      ClaimableIsQueued(evs, queues, batches, q, id);
    }
  }

  /** Some candidate comes first. */
  lemma {:induction false} PickExists(rows: PostgresTable.Rows, q: Queue, now: Time, locked: set<Id>,
                                      among: set<Id>, id: Id)
    returns (best: Id)
    requires id in among && among <= rows.Keys
    requires forall i | i in among :: PostgresTable.Candidate(rows, q, now, locked, i)
    ensures best in among && forall i | i in among :: PostgresTable.Before(rows[best], rows[i])
    decreases |among|
  {
    var rest := among - {id};
    if rest == {} {
      best := id;
      assert forall i | i in among :: i == id;
    } else {
      var other :| other in rest;
      best := PickExists(rows, q, now, locked, rest, other);
      if PostgresTable.Before(rows[id], rows[best]) {
        best := id;
      }
      assert forall i | i in among :: i == id || i in rest;
    }
  }

  lemma RowsHaveWork(rows: PostgresTable.Rows, q: Queue, clock: Time)
    ensures (exists id :: PostgresTable.Picks(rows, q, clock, {}, id))
       <==> JobTable.Claimable(PostgresLifecycle.TableOf(rows), q, clock)
  {
    var t := PostgresLifecycle.TableOf(rows);
    if id :| PostgresTable.Picks(rows, q, clock, {}, id) {
      assert id in t && JobTable.Allowed(t, JobTable.Take(id, q), clock);
    }
    if JobTable.Claimable(t, q, clock) {
      var id :| id in t && JobTable.Allowed(t, JobTable.Take(id, q), clock);
      var among := set i | i in rows && PostgresTable.Candidate(rows, q, clock, {}, i);
      var best := PickExists(rows, q, clock, {}, among, id);
      assert PostgresTable.Picks(rows, q, clock, {}, best);
    }
  }

  /** Postgres's Dequeue finds a row for the queue exactly when the abstract table has a
      claimable job for it, if no other transaction holds a lock. */
  lemma PostgresHasWork(evs: seq<PostgresLifecycle.Event>, q: Queue)
    requires PostgresLifecycle.Legal(evs)
    ensures (exists id :: PostgresTable.Picks(PostgresLifecycle.Exec(evs).rows, q,
                                              PostgresLifecycle.Exec(evs).clock, {}, id))
       <==> JobTable.Claimable(PostgresLifecycle.TableAfter(evs), q, PostgresLifecycle.Exec(evs).clock)
  {
    PostgresLifecycle.PostgresRefines(evs);
    RowsHaveWork(PostgresLifecycle.Exec(evs).rows, q, PostgresLifecycle.Exec(evs).clock);
  }

  /** Two runs, one on each broker, that stand for the same table at the same clock: after a
      promotion pass on the Redis side, both have work for a covered queue or neither has. */
  lemma BrokersAgree(evs: seq<Event>, queues: seq<Queue>, batches: seq<seq<Id>>,
                     pevs: seq<PostgresLifecycle.Event>, q: Queue)
    requires Legal(evs) && Solo(evs) && q in queues && PostgresLifecycle.Legal(pevs)
    requires Listed(Exec(evs).store, Exec(evs).clock, Sources(queues), batches)
    requires RedisRefinement.TableAfter(evs) == PostgresLifecycle.TableAfter(pevs)
    requires Exec(evs).clock == PostgresLifecycle.Exec(pevs).clock
    ensures List(PassResult(Exec(evs).store, Sources(queues), batches).0.queues, q) != []
       <==> exists id :: PostgresTable.Picks(PostgresLifecycle.Exec(pevs).rows, q,
                                             PostgresLifecycle.Exec(pevs).clock, {}, id)
  {
    RedisHasWork(evs, queues, batches, q);
    PostgresHasWork(pevs, q);
  }
}
