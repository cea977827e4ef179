/** The job lifecycle over the Postgres broker: the same workers, one SQL statement per event. */
module PostgresLifecycle {
  import opened Jobs
  import opened Backoff
  import opened PostgresTable
  import L = Lifecycle
  import JobTable

  datatype State = State(rows: Rows, clock: Time, calls: map<L.Token, L.Call>, next: L.Token)

  /** Promotion does not appear: PromoteDueJobs is a no-op here. `locked` are the rows that
      other transactions hold while Dequeue runs, which SKIP LOCKED passes over. */
  datatype Event =
    | Tick(now: Time)
    | Enqueue(job: Job, inserted: bool)
    | Claim(tok: L.Token, queue: Queue, id: Id, locked: set<Id>)
    | Fail(tok: L.Token, job: Job, error: string, jitter: nat, frac: nat)
    | Reject(tok: L.Token, job: Job, error: string)
    | Requeue(tok: L.Token, job: Job, at: Time)
    | Bury(tok: L.Token, job: Job)
    | Acknowledge(tok: L.Token, id: Id)
    | Drop(tok: L.Token)
    | Revive(id: Id, ok: bool)

  const INITIAL: State := State(map[], 0, map[], 0)

  predicate InProgress(s: State, tok: L.Token, c: L.Call) {
    tok in s.calls && s.calls[tok] == c
  }

  ghost predicate Enabled(s: State, e: Event) {
    match e
    case Tick(now) => s.clock <= now
    case Enqueue(job, inserted) => Newborn(job) && inserted == Insert(s.rows, job).1
    case Claim(tok, q, id, locked) => tok == s.next && Picks(s.rows, q, s.clock, locked, id)
    case Fail(tok, job, _, jitter, frac) => InProgress(s, tok, L.Holding(job)) && jitter < 30 && frac < SECOND
    case Reject(tok, job, _) => InProgress(s, tok, L.Holding(job))
    case Requeue(tok, job, at) => InProgress(s, tok, L.Requeuing(job, at))
    case Bury(tok, job) => InProgress(s, tok, L.Burying(job))
    case Acknowledge(tok, id) => tok in s.calls && s.calls[tok].Holding? && s.calls[tok].job.id == id
    case Drop(tok) => tok in s.calls
    case Revive(id, ok) => ok == MarkPending(s.rows, id, s.clock).1
  }

  ghost function Apply(s: State, e: Event): State
    requires Enabled(s, e)
  {
    match e
    case Tick(now) => s.(clock := now)
    case Enqueue(job, _) => s.(rows := Insert(s.rows, job).0)
    case Claim(tok, _, id, _) =>
      var rows := MarkActive(s.rows, id);
      s.(rows := rows, calls := s.calls[tok := L.Holding(rows[id])], next := tok + 1)
    case Fail(tok, job, error, jitter, frac) =>
      s.(calls := s.calls[tok := L.AfterFailure(Failed(job, error), jitter, frac, s.clock)])
    case Reject(tok, job, error) => s.(calls := s.calls[tok := L.Burying(Rejected(job, error))])
    case Requeue(tok, job, at) => s.(rows := MarkRetry(s.rows, job, at), calls := s.calls - {tok})
    case Bury(tok, job) => s.(rows := MarkDead(s.rows, job), calls := s.calls - {tok})
    case Acknowledge(tok, id) => s.(rows := MarkCompleted(s.rows, id), calls := s.calls - {tok})
    case Drop(tok) => s.(calls := s.calls - {tok})
    case Revive(id, _) => s.(rows := MarkPending(s.rows, id, s.clock).0)
  }

  ghost predicate Legal(evs: seq<Event>)
    decreases |evs|, 0
  {
    evs == [] || (Legal(Front(evs)) && Enabled(Exec(Front(evs)), Last(evs)))
  }

  ghost function Exec(evs: seq<Event>): State
    requires Legal(evs)
    decreases |evs|, 1
  {
    if evs == [] then INITIAL else Apply(Exec(Front(evs)), Last(evs))
  }

  // ---------- the invariant ----------

  /** A row is in order: its counter fits its status. */
  predicate RowOk(id: Id, j: Job) {
    j.id == id && 1 <= j.maxAttempts
    && (if j.status == StatusDead then j.attempts <= j.maxAttempts else j.attempts < j.maxAttempts)
  }

  /** At most one live row for each non-empty key. */
  ghost predicate KeysUnique(rows: Rows) {
    forall a, b | a in rows && b in rows && a != b && Live(rows[a]) && Live(rows[b]) ::
      rows[a].uniqueKey == "" || rows[a].uniqueKey != rows[b].uniqueKey
  }

  predicate Active(rows: Rows, id: Id) {
    id in rows && rows[id].status == StatusActive
  }

  predicate CallOk(rows: Rows, c: L.Call) {
    match c
    case Holding(job) => Active(rows, job.id) && rows[job.id] == job
    case Requeuing(job, _) =>
      Active(rows, job.id) && Fixed(job) == Fixed(rows[job.id])
      && job.attempts == rows[job.id].attempts + 1 && job.attempts < job.maxAttempts
    case Burying(job) =>
      Active(rows, job.id) && Fixed(job) == Fixed(rows[job.id])
      && (job.attempts == rows[job.id].attempts || job.attempts == rows[job.id].attempts + 1 == job.maxAttempts)
    case _ => false
  }

  ghost predicate Good(s: State) {
    && (forall id | id in s.rows :: RowOk(id, s.rows[id]))
    && KeysUnique(s.rows)
    && (forall t | t in s.calls :: t < s.next && CallOk(s.rows, s.calls[t]))
    && (forall t, u | t in s.calls && u in s.calls && s.calls[t].job.id == s.calls[u].job.id :: t == u)
  }

  // ---------- the table it stands for ----------

  function PhaseOf(j: Job): JobTable.Phase {
    match j.status
    case StatusActive => JobTable.Running
    case StatusDead => JobTable.Buried
    case StatusCompleted => JobTable.Done
    case _ => JobTable.Waiting(j.processAt)
  }

  function RowOf(j: Job): JobTable.Row {
    JobTable.Row(Fixed(j), j.attempts, j.lastError, PhaseOf(j))
  }

  function TableOf(rows: Rows): JobTable.Table {
    map id | id in rows :: RowOf(rows[id])
  }

  function OpOf(s: State, e: Event): JobTable.Op {
    match e
    case Enqueue(job, inserted) => if inserted then JobTable.Submit(job) else JobTable.Nothing
    case Claim(_, q, id, _) => JobTable.Take(id, q)
    case Acknowledge(_, id) => JobTable.Complete(id)
    case Requeue(_, job, at) => JobTable.Postpone(job.id, job.attempts, job.lastError, at)
    case Bury(_, job) => JobTable.Kill(job.id, job.attempts, job.lastError)
    case Revive(id, ok) => if ok then JobTable.Restore(id, s.clock) else JobTable.Nothing
    case _ => JobTable.Nothing
  }

  lemma Changed(rows: Rows, id: Id, j: Job)
    ensures TableOf(rows[id := j]) == TableOf(rows)[id := RowOf(j)]
  {
  }

  /** What the invariant gives an event. */
  lemma CallFacts(s: State, e: Event)
    requires Good(s) && Enabled(s, e)
    ensures (e.Requeue? || e.Bury? || e.Fail? || e.Reject? || e.Acknowledge?) ==> CallOk(s.rows, s.calls[e.tok])
    ensures (e.Requeue? || e.Bury? || e.Fail? || e.Reject?) ==>
              e.job.id in s.rows && RowOk(e.job.id, s.rows[e.job.id])
    ensures e.Acknowledge? ==> e.id in s.rows && RowOk(e.id, s.rows[e.id])
  {
  }

  lemma SettleTable(s: State, e: Event)
    requires Enabled(s, e) && (e.Requeue? || e.Bury? || e.Acknowledge?)
    ensures TableOf(Apply(s, e).rows) == JobTable.Do(TableOf(s.rows), OpOf(s, e))
  {
    var id := if e.Acknowledge? then e.id else e.job.id;
    if id in s.rows {
      Changed(s.rows, id, Apply(s, e).rows[id]);
    }
  }

  /** One statement is one operation of the table. */
  lemma StepTable(s: State, e: Event)
    requires Enabled(s, e)
    ensures TableOf(Apply(s, e).rows) == JobTable.Do(TableOf(s.rows), OpOf(s, e))
  {
    match e
    case Enqueue(job, inserted) => if inserted { Changed(s.rows, job.id, job); }
    case Claim(_, _, id, _) => Changed(s.rows, id, Apply(s, e).rows[id]);
    case Acknowledge(_, _) => SettleTable(s, e);
    case Requeue(_, _, _) => SettleTable(s, e);
    case Bury(_, _) => SettleTable(s, e);
    case Revive(id, ok) => if ok { Changed(s.rows, id, Apply(s, e).rows[id]); }
    case _ =>
  }

  /** Each operation is allowed where it happens. */
  lemma StepAllowed(s: State, e: Event)
    requires Good(s) && Enabled(s, e)
    ensures JobTable.Allowed(TableOf(s.rows), OpOf(s, e), s.clock)
  {
    CallFacts(s, e);
  }

  // ---------- preservation ----------

  /** Replacing a row keeps keys unique unless it makes a taken key live. */
  lemma KeysKept(rows: Rows, id: Id, j: Job)
    requires KeysUnique(rows)
    requires Live(j) ==> (id in rows && Live(rows[id]) && j.uniqueKey == rows[id].uniqueKey)
                         || !KeyTaken(rows, id, j.uniqueKey)
    ensures KeysUnique(rows[id := j])
  {
  }

  /** The other calls are about other rows. */
  lemma OthersOk(s: State, id: Id, j: Job, tok: L.Token)
    requires Good(s) && tok in s.calls && s.calls[tok].job.id == id
    ensures forall t | t in s.calls && t != tok :: CallOk(s.rows[id := j], s.calls[t])
  {
    forall t | t in s.calls && t != tok ensures CallOk(s.rows[id := j], s.calls[t]) {
      assert CallOk(s.rows, s.calls[t]) && CallOk(s.rows, s.calls[tok]);
    }
  }

  lemma IdleRowOk(s: State, id: Id, j: Job)
    requires Good(s) && !Active(s.rows, id)
    ensures forall t | t in s.calls :: s.calls[t].job.id != id && CallOk(s.rows[id := j], s.calls[t])
  {
    forall t | t in s.calls ensures s.calls[t].job.id != id && CallOk(s.rows[id := j], s.calls[t]) {
      assert CallOk(s.rows, s.calls[t]);
    }
  }

  lemma SettleGood(s: State, e: Event)
    requires Good(s) && Enabled(s, e) && (e.Requeue? || e.Bury? || e.Acknowledge?)
    ensures Good(Apply(s, e))
  {
    CallFacts(s, e);
    var id := if e.Acknowledge? then e.id else e.job.id;
    var j := Apply(s, e).rows[id];
    KeysKept(s.rows, id, j);
    OthersOk(s, id, j, e.tok);
  }

  lemma DecideGood(s: State, e: Event)
    requires Good(s) && Enabled(s, e) && (e.Fail? || e.Reject?)
    ensures Good(Apply(s, e))
  {
    CallFacts(s, e);
    assert Apply(s, e).calls[e.tok].job.id == e.job.id;
  }

  lemma ClaimGood(s: State, e: Event)
    requires Good(s) && Enabled(s, e) && e.Claim?
    ensures Good(Apply(s, e))
  {
    var j := Apply(s, e).rows[e.id];
    KeysKept(s.rows, e.id, j);
    IdleRowOk(s, e.id, j);
    assert RowOk(e.id, s.rows[e.id]);
  }

  lemma ArriveGood(s: State, e: Event)
    requires Good(s) && Enabled(s, e) && ((e.Enqueue? && e.inserted) || (e.Revive? && e.ok))
    ensures Good(Apply(s, e))
  {
    var id := if e.Enqueue? then e.job.id else e.id;
    var j := Apply(s, e).rows[id];
    KeysKept(s.rows, id, j);
    IdleRowOk(s, id, j);
    assert e.Revive? ==> RowOk(id, s.rows[id]);
  }

  lemma StepGood(s: State, e: Event)
    requires Good(s) && Enabled(s, e)
    ensures Good(Apply(s, e))
  {
    match e
    case Requeue(_, _, _) => SettleGood(s, e);
    case Bury(_, _) => SettleGood(s, e);
    case Acknowledge(_, _) => SettleGood(s, e);
    case Fail(_, _, _, _, _) => DecideGood(s, e);
    case Reject(_, _, _) => DecideGood(s, e);
    case Claim(_, _, _, _) => ClaimGood(s, e);
    case Enqueue(_, inserted) => if inserted { ArriveGood(s, e); }
    case Revive(_, ok) => if ok { ArriveGood(s, e); }
    case _ =>
  }

  /** In every state of every run: live keys are unique, so the partial index is never violated
      by Dequeue, Requeue or MoveToDeadLetter; held jobs are active rows, each with one holder. */
  lemma {:induction false} RunGood(evs: seq<Event>)
    requires Legal(evs)
    ensures Good(Exec(evs))
  {
    if evs != [] {
      RunGood(Front(evs));
      StepGood(Exec(Front(evs)), Last(evs));
    }
  }

  ghost function TableAfter(evs: seq<Event>): JobTable.Table
    requires Legal(evs)
  {
    if evs == [] then map[] else JobTable.Do(TableAfter(Front(evs)), OpOf(Exec(Front(evs)), Last(evs)))
  }

  ghost predicate Conforms(evs: seq<Event>)
    requires Legal(evs)
  {
    evs == [] || (Conforms(Front(evs))
                  && JobTable.Allowed(TableAfter(Front(evs)), OpOf(Exec(Front(evs)), Last(evs)),
                                      Exec(Front(evs)).clock))
  }

  /** Refinement: every Postgres run, with any number of workers, is a run of the abstract
      table, and the rows are the table. */
  lemma {:induction false} PostgresRefines(evs: seq<Event>)
    requires Legal(evs)
    ensures Conforms(evs) && TableAfter(evs) == TableOf(Exec(evs).rows)
  {
    if evs != [] {
      PostgresRefines(Front(evs));
      RunGood(Front(evs));
      StepTable(Exec(Front(evs)), Last(evs));
      StepAllowed(Exec(Front(evs)), Last(evs));
    }
  }

  // ---------- what Enqueue and Dequeue come to over runs ----------

  /** The ID is unused, and so is the key, if there is one, but for rows that are dead or
      completed. */
  predicate Insertable(rows: Rows, job: Job) {
    && job.id !in rows
    && (job.uniqueKey == "" || forall i | i in rows && rows[i].uniqueKey == job.uniqueKey ::
          rows[i].status == StatusDead || rows[i].status == StatusCompleted)
  }

  lemma InsertIff(rows: Rows, job: Job)
    requires Newborn(job)
    ensures Insert(rows, job).1 <==> Insertable(rows, job)
    ensures Insert(rows, job).0 == if Insertable(rows, job) then rows[job.id := job] else rows
  {
  }

  lemma Extend(evs: seq<Event>, e: Event)
    requires Legal(evs)
    ensures Legal(evs + [e]) <==> Enabled(Exec(evs), e)
    ensures Legal(evs + [e]) ==> TableAfter(evs + [e]) == JobTable.Do(TableAfter(evs), OpOf(Exec(evs), e))
  {
    assert Front(evs + [e]) == evs && Last(evs + [e]) == e;
  }

  /** What an Enqueue leaves in the table, as it turned out. */
  lemma AfterEnqueue(evs: seq<Event>, job: Job, inserted: bool)
    requires Legal(evs) && Newborn(job) && Enabled(Exec(evs), Enqueue(job, inserted))
    ensures Legal(evs + [Enqueue(job, inserted)])
    ensures var t := TableAfter(evs + [Enqueue(job, inserted)]);
            && (!inserted ==> t == TableAfter(evs))
            && (inserted ==>
                  job.id in t && t[job.id] == JobTable.Row(Fixed(job), 0, job.lastError,
                                                           JobTable.Waiting(job.processAt)))
  {
    var op := if inserted then JobTable.Submit(job) else JobTable.Nothing;
    assert Legal(evs + [Enqueue(job, inserted)])
           && TableAfter(evs + [Enqueue(job, inserted)]) == JobTable.Do(TableAfter(evs), op)
    by { Extend(evs, Enqueue(job, inserted)); }
    Submitted(TableAfter(evs), job);
  }

  lemma Submitted(t: JobTable.Table, job: Job)
    requires Newborn(job)
    ensures var t' := JobTable.Do(t, JobTable.Submit(job));
            job.id in t' && t'[job.id] == JobTable.Row(Fixed(job), 0, job.lastError, JobTable.Waiting(job.processAt))
    ensures JobTable.Do(t, JobTable.Nothing) == t
  {
  }

  /** In every reachable table the Enqueue of a new job inserts its row exactly when it is
      insertable. The job then waits for its time; otherwise nothing changes. */
  lemma EnqueueInserts(evs: seq<Event>, job: Job, inserted: bool)
    requires Legal(evs) && Newborn(job)
    ensures Legal(evs + [Enqueue(job, inserted)]) <==> inserted == Insertable(Exec(evs).rows, job)
    ensures inserted == Insertable(Exec(evs).rows, job) ==>
              var t := TableAfter(evs + [Enqueue(job, inserted)]);
              && (!inserted ==> t == TableAfter(evs))
              && (inserted ==>
                    job.id in t && t[job.id] == JobTable.Row(Fixed(job), 0, job.lastError,
                                                             JobTable.Waiting(job.processAt)))
  {
    var e := Enqueue(job, inserted);
    assert Enabled(Exec(evs), e) <==> inserted == Insertable(Exec(evs).rows, job) by { InsertIff(Exec(evs).rows, job); }
    assert Legal(evs + [e]) <==> Enabled(Exec(evs), e) by { Extend(evs, e); }
    if Legal(evs + [e]) {
      AfterEnqueue(evs, job, inserted);
    }
  }

  /** Whatever Dequeue claims, no other job that could have been taken from the queue then, and that
      nobody had locked, has a lower priority number, or the same one and an earlier time. */
  lemma ClaimsMostUrgent(evs: seq<Event>, other: Id)
    requires Legal(evs) && evs != [] && Last(evs).Claim? && other !in Last(evs).locked
    requires JobTable.Allowed(TableAfter(Front(evs)), JobTable.Take(other, Last(evs).queue), Exec(Front(evs)).clock)
    ensures var t, id := TableAfter(Front(evs)), Last(evs).id;
            && id in t && t[id].phase.Waiting? && t[id].spec.queue == Last(evs).queue
            && t[id].spec.priority <= t[other].spec.priority
            && (t[id].spec.priority == t[other].spec.priority ==> t[id].phase.due <= t[other].phase.due)
  {
    PostgresRefines(Front(evs));
    assert Candidate(Exec(Front(evs)).rows, Last(evs).queue, Exec(Front(evs)).clock, Last(evs).locked, other);
  }
}
