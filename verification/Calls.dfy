/** Every broker call made without interruption is a run of the protocol, and what it then does to
    the store is spelled out here key by key. In particular the protocol lets each of them happen
    wherever a client or a worker may make it. */
module Calls {
  import opened Jobs
  import opened Backoff
  import opened RedisStore
  import opened Lifecycle
  import opened Invariant
  import opened Conservation
  import Middleware

  /** A new job can be enqueued in every state, with any reading of the clock that is not ahead. */
  lemma EnqueueRuns(evs: seq<Event>, job: Job, now: Time)
    requires Legal(evs) && Newborn(job) && job.id !in Exec(evs).issued && now <= Exec(evs).clock
    ensures Legal(evs + [Enqueue(job, now)])
    ensures var s, t := Exec(evs).store, Exec(evs + [Enqueue(job, now)]).store;
            && t == s.(jobs := s.jobs[job.id := job], queues := t.queues, scheduled := t.scheduled)
            && (job.processAt <= now ==> AtHead(s.queues, t.queues, job.queue, job.id) && t.scheduled == s.scheduled)
            && (job.processAt > now ==> t.queues == s.queues && t.scheduled == s.scheduled[job.id := job.processAt])
  {
    Extend(evs, Enqueue(job, now));
  }

  /** Acknowledge: the ID leaves the active set and the record goes. */
  lemma AcknowledgeRuns(evs: seq<Event>, tok: Token, job: Job) returns (run: seq<Event>)
    requires Legal(evs) && InProgress(Exec(evs), tok, Holding(job))
    ensures evs <= run && Legal(run) && tok !in Exec(run).calls
    ensures var s := Exec(evs).store; Exec(run).store == s.(active := s.active - {job.id}, jobs := s.jobs - {job.id})
  {
    var e, e' := Release(tok, job.id), Forget(tok, job.id);
    Extend(evs, e);
    Extend(evs + [e], e');
    run := evs + [e] + [e'];
  }

  /** A failure with attempts left: the record is rewritten, the ID waits for the backoff. */
  lemma RetryRuns(evs: seq<Event>, tok: Token, job: Job, error: string, jitter: nat,
                  frac: nat) returns (run: seq<Event>)
    requires Legal(evs) && InProgress(Exec(evs), tok, Holding(job)) && jitter < 30 && frac < SECOND
    requires job.attempts + 1 < job.maxAttempts
    ensures evs <= run && Legal(run) && tok !in Exec(run).calls
    ensures var s, t, n := Exec(evs).store, Exec(run).store, job.attempts + 1;
            && t == s.(jobs := s.jobs[job.id := job.(attempts := n, status := StatusRetry, lastError := error)],
                    active := s.active - {job.id}, retry := t.retry)
            && job.id in ZSet(t.retry, job.queue)
            && ZSet(t.retry, job.queue) == ZSet(s.retry, job.queue)[job.id := ZSet(t.retry, job.queue)[job.id]]
            && (n <= 309 ==>
                  ZSet(t.retry, job.queue)[job.id] == Exec(evs).clock + n * n * n * n + 15 + jitter * (n + 1))
            && (forall q | q != job.queue :: ZSet(t.retry, q) == ZSet(s.retry, q))
  {
    var n := job.attempts + 1;
    var at := RetryAt(Exec(evs).clock, frac, NextDelay(n, jitter));
    if n <= 309 {
      WhenRetried(Exec(evs).clock, frac, n, jitter);
    }
    var e := Fail(tok, job, error, jitter, frac, Exec(evs).clock);
    var e' := Requeue(tok, job.(attempts := n, status := StatusRetry, lastError := error), at);
    Extend(evs, e);
    Extend(evs + [e], e');
    run := evs + [e] + [e'];
  }

  /** What burying a record does to the store. */
  ghost predicate BuriedAs(s: Store, t: Store, job: Job) {
    && t == s.(jobs := s.jobs[job.id := job], active := s.active - {job.id}, dead := t.dead)
    && AtHead(s.dead, t.dead, job.queue, job.id)
  }

  /** The last failure: the record is rewritten, the ID goes to the head of the dead list. */
  lemma LastFailureRuns(evs: seq<Event>, tok: Token, job: Job, error: string, jitter: nat, frac: nat)
    returns (run: seq<Event>)
    requires Legal(evs) && InProgress(Exec(evs), tok, Holding(job)) && jitter < 30 && frac < SECOND
    requires job.attempts + 1 >= job.maxAttempts
    ensures evs <= run && Legal(run) && tok !in Exec(run).calls
    ensures BuriedAs(Exec(evs).store, Exec(run).store,
                     job.(attempts := job.attempts + 1, status := StatusDead, lastError := error))
  {
    var e := Fail(tok, job, error, jitter, frac, Exec(evs).clock);
    var e' := Bury(tok, job.(attempts := job.attempts + 1, status := StatusDead, lastError := error));
    Extend(evs, e);
    Extend(evs + [e], e');
    run := evs + [e] + [e'];
  }

  /** No handler: dead at once, with the reason and no attempt used. */
  lemma RejectionRuns(evs: seq<Event>, tok: Token, job: Job, error: string) returns (run: seq<Event>)
    requires Legal(evs) && InProgress(Exec(evs), tok, Holding(job))
    ensures evs <= run && Legal(run) && tok !in Exec(run).calls
    ensures BuriedAs(Exec(evs).store, Exec(run).store, job.(status := StatusDead, lastError := error))
  {
    var e, e' := Reject(tok, job, error), Bury(tok, job.(status := StatusDead, lastError := error));
    Extend(evs, e);
    Extend(evs + [e], e');
    run := evs + [e] + [e'];
  }

  /** RetryDeadJob of a job on the dead list: reset, and at the head of its queue. */
  lemma RevivalRuns(evs: seq<Event>, id: Id, now: Time) returns (run: seq<Event>)
    requires Legal(evs) && id in Exec(evs).store.jobs && Exec(evs).store.jobs[id].status == StatusDead
    requires now <= Exec(evs).clock
    ensures evs <= run && Legal(run) && run != [] && Last(run) == Revive(Exec(evs).next, id, now, true)
    ensures var s, t, job := Exec(evs).store, Exec(run).store, Exec(evs).store.jobs[id];
            && t == s.(jobs := s.jobs[id := job.(status := StatusPending, attempts := 0, lastError := "",
                    processAt := now)],
                    queues := t.queues, dead := t.dead)
            && AtHead(s.queues, t.queues, job.queue, id)
            && id in List(s.dead, job.queue) && id !in List(t.dead, job.queue)
            && (forall q | q != job.queue :: List(t.dead, q) == List(s.dead, q))
  {
    var s, job := Exec(evs), Exec(evs).store.jobs[id];
    var e, e' := LookUp(s.next, id), Revive(s.next, id, now, true);
    DeadOnce(evs, id, job.queue);
    Extend(evs, e);
    Extend(evs + [e], e');
    run := evs + [e] + [e'];
  }

  /** RetryDeadJob of any other job is refused and changes nothing. */
  lemma RefusalRuns(evs: seq<Event>, id: Id, now: Time) returns (run: seq<Event>)
    requires Legal(evs) && id in Exec(evs).store.jobs && Exec(evs).store.jobs[id].status != StatusDead
    requires now <= Exec(evs).clock
    ensures evs <= run && Legal(run) && run != [] && Last(run) == Revive(Exec(evs).next, id, now, false)
    ensures Exec(run).store == Exec(evs).store
  {
    var s, job := Exec(evs), Exec(evs).store.jobs[id];
    var e, e' := LookUp(s.next, id), Revive(s.next, id, now, false);
    PlacesAgree(evs, id, job.queue);
    assert job.id == id by {
      RunCoupled(evs);
      assert KeptAt(s.store, id, History(evs)[id]) && EntryOk(id, History(evs)[id]);
    }
    Extend(evs, e);
    Extend(evs + [e], e');
    run := evs + [e] + [e'];
  }

  /** A call can break off at any point, without touching the store: by a crash, a cancelled
      context or an error. A promotion pass that does returns what it has counted. */
  lemma BreaksOff(evs: seq<Event>, tok: Token)
    requires Legal(evs) && tok in Exec(evs).calls
    ensures var s, c := Exec(evs), Exec(evs).calls[tok];
            var run := evs + [if c.Promoting? then PassEnd(tok, c.count) else Drop(tok)];
            Legal(run) && Exec(run) == s.(calls := s.calls - {tok})
  {
    var c := Exec(evs).calls[tok];
    Extend(evs, if c.Promoting? then PassEnd(tok, c.count) else Drop(tok));
  }

  /** A dead job is on the dead list of its queue, once. */
  lemma DeadOnce(evs: seq<Event>, id: Id, q: Queue)
    requires Legal(evs) && id in Exec(evs).store.jobs
    requires Exec(evs).store.jobs[id].status == StatusDead && Exec(evs).store.jobs[id].queue == q
    ensures Exec(evs).store.jobs[id].id == id && Count(List(Exec(evs).store.dead, q), id) == 1
  {
    var s, l := Exec(evs).store, History(evs);
    RunCoupled(evs);
    PlacesAgree(evs, id, q);
    StoredAt(s, l, id, InDead(q));
    assert KeptAt(s, id, l[id]) && EntryOk(id, l[id]);
  }

  /** Pool.process on a delivered job, for every outcome of its handler chain, panics included. */
  lemma ProcessRuns(evs: seq<Event>, tok: Token, job: Job, o: Middleware.Outcome, jitter: nat, frac: nat)
    returns (run: seq<Event>)
    requires Legal(evs) && InProgress(Exec(evs), tok, Holding(job)) && jitter < 30 && frac < SECOND
    ensures evs <= run && Legal(run) && tok !in Exec(run).calls
    ensures var s, t := Exec(evs).store, Exec(run).store;
            && (o.Ok? ==> t == s.(active := s.active - {job.id}, jobs := s.jobs - {job.id}))
            && (!o.Ok? ==>
                  && job.id in t.jobs && job.id !in t.active && t.jobs[job.id].attempts == job.attempts + 1
                  && (o.Err? ==> t.jobs[job.id].lastError == o.message)
                  && (o.Panicked? ==> "panic: " + o.value <= t.jobs[job.id].lastError)
                  && (job.attempts + 1 >= job.maxAttempts <==> t.jobs[job.id].status == StatusDead)
                  && (job.id in List(t.dead, job.queue) || job.id in ZSet(t.retry, job.queue)))
  {
    var error := if o.Ok? then "" else Middleware.Recovered(o).message;
    if o.Ok? {
      run := AcknowledgeRuns(evs, tok, job);
    } else if job.attempts + 1 >= job.maxAttempts {
      run := LastFailureRuns(evs, tok, job, error, jitter, frac);
      assert job.id in List(Exec(run).store.dead, job.queue);
    } else {
      run := RetryRuns(evs, tok, job, error, jitter, frac);
      assert job.id in ZSet(Exec(run).store.retry, job.queue);
    }
  }
}
