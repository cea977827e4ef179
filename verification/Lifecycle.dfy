/** The job lifecycle as one labelled transition system: a Redis store, a clock and any number
    of broker calls in progress. One event is one Lua script, one Redis command or one local
    decision of a worker, and events of different calls interleave freely. */
module Lifecycle {
  import opened Jobs
  import opened RedisStore
  import opened Backoff

  type Token = nat

  /** A broker call between two of its atomic steps, or a delivered job not yet settled. */
  datatype Call =
    | Popping(id: Id)                  // Dequeue, between the pop script and GET
    | Holding(job: Job)                // the job is in somebody's hands
    | Requeuing(job: Job, at: Time)    // the worker has decided to retry at `at`
    | Burying(job: Job)                // the worker has given the job up
    | Acking(id: Id)                   // Acknowledge, between ZREM and DEL
    | Reviving(read: Job)              // RetryDeadJob, between GET and the script
    | Promoting(now: Time, src: Source, due: seq<Id>, rest: seq<Source>, count: nat)

  datatype State = State(
    store: Store,
    clock: Time,
    issued: set<Id>,            // every ID handed to Enqueue so far
    calls: map<Token, Call>,
    next: Token)

  datatype Event =
    | Tick(now: Time)
    | Enqueue(job: Job, now: Time)
    | Pop(tok: Token, queue: Queue, id: Id, deadline: Time)
    | Read(tok: Token, id: Id)
    | Fail(tok: Token, job: Job, error: string, jitter: nat, frac: nat, now: Time)
    | Reject(tok: Token, job: Job, error: string)
    | Requeue(tok: Token, job: Job, at: Time)
    | Bury(tok: Token, job: Job)
    | Release(tok: Token, id: Id)
    | Forget(tok: Token, id: Id)
    | Drop(tok: Token)
    | LookUp(tok: Token, id: Id)
    | Revive(tok: Token, id: Id, now: Time, ok: bool)
    | PassBegin(tok: Token, queues: seq<Queue>)
    | Scan(tok: Token, ids: seq<Id>)
    | Promote(tok: Token, src: Source, id: Id, moved: bool)
    | PassEnd(tok: Token, count: nat)

  const INITIAL: State := State(EMPTY, 0, {}, map[], 0)

  predicate InProgress(s: State, tok: Token, c: Call) {
    tok in s.calls && s.calls[tok] == c
  }

  /** PromoteDueJobs reads the scheduled set first, then each queue's retry set. */
  function Sources(queues: seq<Queue>): (r: seq<Source>)
    ensures |r| == |queues| + 1 && r[0] == ScheduledSet
    ensures forall i | 0 <= i < |queues| :: r[i + 1] == RetrySet(queues[i])
  {
    [ScheduledSet] + seq(|queues|, i requires 0 <= i < |queues| => RetrySet(queues[i]))
  }

  /** Which events can happen in a state. The clocks a client reads are never ahead of the
      system clock; enqueued IDs are new; Drop is a crash, a cancelled context or a call
      that returned an error without effect; a promotion pass cut short by an error still
      returns its count, with PassEnd. */
  ghost predicate Enabled(s: State, e: Event) {
    match e
    case Tick(now) => s.clock <= now
    case Enqueue(job, now) => Newborn(job) && job.id !in s.issued && now <= s.clock
    case Pop(tok, q, id, deadline) => tok == s.next && PopScript(s.store, q, deadline).1 == Some(id)
    case Read(tok, id) => InProgress(s, tok, Popping(id)) && id in s.store.jobs
    case Fail(tok, job, error, jitter, frac, now) =>
      InProgress(s, tok, Holding(job)) && jitter < 30 && frac < SECOND && now == s.clock
    case Reject(tok, job, error) => InProgress(s, tok, Holding(job))
    case Requeue(tok, job, at) => InProgress(s, tok, Requeuing(job, at))
    case Bury(tok, job) => InProgress(s, tok, Burying(job))
    case Release(tok, id) => tok in s.calls && s.calls[tok].Holding? && s.calls[tok].job.id == id
    case Forget(tok, id) => InProgress(s, tok, Acking(id))
    case Drop(tok) => tok in s.calls && !s.calls[tok].Promoting?
    case LookUp(tok, id) => tok == s.next && id in s.store.jobs
    case Revive(tok, id, now, ok) =>
      && tok in s.calls && s.calls[tok].Reviving? && s.calls[tok].read.id == id && now <= s.clock
      && var read := s.calls[tok].read; ok == ReviveScript(s.store, read.queue, id, Reset(read, now)).1
    case PassBegin(tok, queues) => tok == s.next
    case Scan(tok, ids) =>
      && tok in s.calls && s.calls[tok].Promoting?
      && var c := s.calls[tok];
      c.due == [] && c.rest != [] && IsRangeByScore(Members(s.store, c.rest[0]), c.now, ids)
    case Promote(tok, src, id, moved) =>
      && tok in s.calls && s.calls[tok].Promoting?
      && var c := s.calls[tok];
      c.due != [] && c.due[0] == id && c.src == src && moved == PromoteScript(s.store, src, id).1
    case PassEnd(tok, count) => tok in s.calls && s.calls[tok].Promoting? && s.calls[tok].count == count
  }

  function Start(s: State, store: Store, c: Call): State {
    s.(store := store, calls := s.calls[s.next := c], next := s.next + 1)
  }

  function Continue(s: State, store: Store, tok: Token, c: Call): State {
    s.(store := store, calls := s.calls[tok := c])
  }

  function Finish(s: State, store: Store, tok: Token): State {
    s.(store := store, calls := s.calls - {tok})
  }

  /** What a worker does next with a failed job: its attempt counter has been raised. */
  function AfterFailure(job: Job, jitter: nat, frac: nat, now: Time): Call {
    if job.status == StatusDead then Burying(job)
    else Requeuing(job, RetryAt(now, frac, NextDelay(job.attempts, jitter)))
  }

  ghost function Apply(s: State, e: Event): State
    requires Enabled(s, e)
  {
    match e
    case Tick(now) => s.(clock := now)
    case Enqueue(job, now) => s.(store := EnqueueScript(s.store, job, now), issued := s.issued + {job.id})
    case Pop(tok, q, id, deadline) => Start(s, PopScript(s.store, q, deadline).0, Popping(id))
    case Read(tok, id) => Continue(s, s.store, tok, Holding(s.store.jobs[id]))
    case Fail(tok, job, error, jitter, frac, now) =>
      Continue(s, s.store, tok, AfterFailure(Failed(job, error), jitter, frac, now))
    case Reject(tok, job, error) => Continue(s, s.store, tok, Burying(Rejected(job, error)))
    case Requeue(tok, job, at) => Finish(s, RequeueScript(s.store, job, at), tok)
    case Bury(tok, job) => Finish(s, BuryScript(s.store, job), tok)
    case Release(tok, id) => Continue(s, ReleaseCommand(s.store, id), tok, Acking(id))
    case Forget(tok, id) => Finish(s, ForgetCommand(s.store, id), tok)
    case Drop(tok) => Finish(s, s.store, tok)
    case LookUp(tok, id) => Start(s, s.store, Reviving(s.store.jobs[id]))
    case Revive(tok, id, now, ok) =>
      var read := s.calls[tok].read;
      Finish(s, ReviveScript(s.store, read.queue, id, Reset(read, now)).0, tok)
    case PassBegin(tok, queues) => Start(s, s.store, Promoting(s.clock, ScheduledSet, [], Sources(queues), 0))
    case Scan(tok, ids) =>
      var c := s.calls[tok];
      Continue(s, s.store, tok, Promoting(c.now, c.rest[0], ids, c.rest[1..], c.count))
    case Promote(tok, src, id, moved) =>
      var c := s.calls[tok];
      Continue(s, PromoteScript(s.store, src, id).0, tok,
               Promoting(c.now, src, c.due[1..], c.rest, c.count + (if moved then 1 else 0)))
    case PassEnd(tok, count) => Finish(s, s.store, tok)
  }

  // ---------- runs ----------

  /** A run is a sequence of events, each enabled where it happens. Every prefix of a run is
      a run, so a fact about the last state of every run is a fact about every state. */
  ghost predicate Legal(evs: seq<Event>)
    decreases |evs|, 0
  {
    evs == [] || (Legal(Front(evs)) && Enabled(Exec(Front(evs)), Last(evs)))
  }

  ghost function Exec(evs: seq<Event>): State
    requires Legal(evs)
    decreases |evs|, 1
  {
    if evs == [] then INITIAL else Apply(Exec(Front(evs)), Last(evs))
  }

  // ---------- the history of each job, read off the events alone ----------

  datatype Place = Stored(loc: Loc) | Gone

  /** `job` is the record as last written, `due` the time it was last told to wait for, and
      `firstFailure` the time of the failure that took its attempts from 0 to 1. */
  datatype Entry = Entry(job: Job, place: Place, due: Time, firstFailure: Time)

  type Ledger = map<Id, Entry>

  function Relocate(l: Ledger, id: Id, place: Place): Ledger {
    if id in l then l[id := l[id].(place := place)] else l
  }

  /** The meaning of each event for the job it is about. No store is consulted. */
  function Note(l: Ledger, e: Event): Ledger {
    match e
    case Enqueue(job, now) =>
      l[job.id := Entry(job, Stored(if job.processAt <= now then InQueue(job.queue) else InScheduled),
                        job.processAt, 0)]
    case Pop(tok, q, id, deadline) => Relocate(l, id, Stored(InActive))
    case Fail(tok, job, error, jitter, frac, now) =>
      if job.id in l && job.attempts == 0 then l[job.id := l[job.id].(firstFailure := now)] else l
    case Requeue(tok, job, at) =>
      if job.id in l then l[job.id := l[job.id].(job := job, place := Stored(InRetry(job.queue)), due := at)] else l
    case Bury(tok, job) =>
      if job.id in l then l[job.id := l[job.id].(job := job, place := Stored(InDead(job.queue)))] else l
    case Release(tok, id) => Relocate(l, id, Gone)
    case Revive(tok, id, now, ok) =>
      if ok && id in l
      then l[id := l[id].(job := Reset(l[id].job, now), place := Stored(InQueue(l[id].job.queue)), due := now)]
      else l
    case Promote(tok, src, id, moved) =>
      if moved && id in l then Relocate(l, id, Stored(InQueue(l[id].job.queue))) else l
    case _ => l
  }

  function History(evs: seq<Event>): Ledger {
    if evs == [] then map[] else Note(History(Front(evs)), Last(evs))
  }

  // ---------- the invariant: the store agrees with the history ----------

  function Expected(l: Ledger, id: Id, loc: Loc): nat {
    if id in l && l[id].place == Stored(loc) then 1 else 0
  }

  /** Every ID is stored exactly where its history puts it, once, and nowhere else. */
  ghost predicate Located(s: Store, l: Ledger) {
    forall id, loc :: Occ(s, id, loc) == Expected(l, id, loc)
  }

  /** The record of a stored job is the one last written, and the score of a waiting job is
      its due time. An acknowledged job may keep its record until DEL. */
  ghost predicate KeptAt(s: Store, id: Id, e: Entry) {
    && (id in s.jobs ==> s.jobs[id] == e.job)
    && (e.place.Stored? ==> id in s.jobs)
    && (e.place == Stored(InScheduled) ==> id in s.scheduled && s.scheduled[id] == e.due)
    && (forall q :: e.place == Stored(InRetry(q)) ==> id in ZSet(s.retry, q) && ZSet(s.retry, q)[id] == e.due)
  }

  ghost predicate Kept(s: Store, l: Ledger) {
    && s.jobs.Keys <= l.Keys
    && (forall id | id in l :: KeptAt(s, id, l[id]))
  }

  predicate Runnable(j: Job) {
    (j.status == StatusPending || j.status == StatusRetry) && j.attempts < j.maxAttempts
  }

  /** Status, place and queue of one job agree. */
  predicate EntryOk(id: Id, e: Entry) {
    && e.job.id == id && 1 <= e.job.maxAttempts
    && match e.place
       case Stored(InQueue(q)) => q == e.job.queue && Runnable(e.job)
       case Stored(InScheduled) => e.job.status == StatusPending && e.job.attempts == 0
       case Stored(InRetry(q)) => q == e.job.queue && e.job.status == StatusRetry
                                  && 1 <= e.job.attempts < e.job.maxAttempts
       case Stored(InDead(q)) => q == e.job.queue && e.job.status == StatusDead && e.job.attempts <= e.job.maxAttempts
       case Stored(InActive) => Runnable(e.job)
       case Gone => Runnable(e.job)
  }

  ghost predicate Sound(l: Ledger) {
    forall id | id in l :: EntryOk(id, l[id])
  }

  predicate IsActive(l: Ledger, id: Id) {
    id in l && l[id].place == Stored(InActive)
  }

  /** What each call in progress knows about its job. */
  predicate CallOk(l: Ledger, clock: Time, c: Call) {
    match c
    case Popping(id) => IsActive(l, id)
    case Holding(job) => IsActive(l, job.id) && l[job.id].job == job
    case Requeuing(job, at) =>
      && IsActive(l, job.id)
      && var j := l[job.id].job;
      job == j.(attempts := j.attempts + 1, status := StatusRetry, lastError := job.lastError)
      && job.attempts < job.maxAttempts
    case Burying(job) =>
      && IsActive(l, job.id)
      && (job.attempts == l[job.id].job.attempts || job.attempts == l[job.id].job.attempts + 1 == job.maxAttempts)
      && job == l[job.id].job.(attempts := job.attempts, status := StatusDead, lastError := job.lastError)
    case Acking(id) => id in l && l[id].place == Gone
    case Reviving(read) => read.id in l && Fixed(read) == Fixed(l[read.id].job)
    case Promoting(now, src, due, rest, count) => now <= clock
  }

  /** The call has the job in its hands. */
  predicate Owns(c: Call, id: Id) {
    (c.Popping? && c.id == id) || ((c.Holding? || c.Requeuing? || c.Burying?) && c.job.id == id)
  }

  ghost predicate CallsOk(s: State, l: Ledger) {
    forall t | t in s.calls :: t < s.next && CallOk(l, s.clock, s.calls[t])
  }

  /** No two calls have the same job in their hands. */
  ghost predicate SoleOwners(s: State) {
    forall t, u, id | t in s.calls && u in s.calls && Owns(s.calls[t], id) && Owns(s.calls[u], id) :: t == u
  }

  ghost predicate Coupled(s: State, l: Ledger) {
    && l.Keys == s.issued
    && Located(s.store, l)
    && Kept(s.store, l)
    && Sound(l)
    && CallsOk(s, l)
    && SoleOwners(s)
  }
}
