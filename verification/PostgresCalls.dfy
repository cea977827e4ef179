/** The calls of a worker and of an administrator on the Postgres broker: each can be made wherever
    the protocol has it, and what it then does to the rows is spelled out here column by column. */
module PostgresCalls {
  import opened Jobs
  import opened Backoff
  import opened PostgresTable
  import opened PostgresLifecycle
  import Broker = PostgresBroker

  lemma Two(evs: seq<Event>, e: Event, e': Event)
    requires Legal(evs) && Enabled(Exec(evs), e) && Enabled(Apply(Exec(evs), e), e')
    ensures Legal(evs + [e] + [e']) && Exec(evs + [e] + [e']) == Apply(Apply(Exec(evs), e), e')
  {
    Extend(evs, e);
    Extend(evs + [e], e');
    assert Front(evs + [e]) == evs && Front(evs + [e] + [e']) == evs + [e];
  }

  /** The row of a held job is the job. */
  lemma HeldRow(evs: seq<Event>, tok: L.Token, job: Job)
    requires Legal(evs) && InProgress(Exec(evs), tok, L.Holding(job))
    ensures job.id in Exec(evs).rows && Exec(evs).rows[job.id] == job && job.status == StatusActive
  {
    RunGood(evs);
    assert CallOk(Exec(evs).rows, Exec(evs).calls[tok]);
  }

  /** Acknowledge: the row stays, as completed. */
  lemma AcknowledgeRuns(evs: seq<Event>, tok: L.Token, job: Job)
    requires Legal(evs) && InProgress(Exec(evs), tok, L.Holding(job))
    ensures var rows, run := Exec(evs).rows, evs + [Acknowledge(tok, job.id)];
            && Legal(run) && job.id in rows && rows[job.id] == job && job.status == StatusActive
            && Exec(run).rows == rows[job.id := job.(status := StatusCompleted)]
  {
    HeldRow(evs, tok, job);
    Extend(evs, Acknowledge(tok, job.id));
    assert Front(evs + [Acknowledge(tok, job.id)]) == evs;
  }

  lemma RetrySteps(s: State, tok: L.Token, job: Job, error: string, jitter: nat, frac: nat, at: Time)
    requires InProgress(s, tok, L.Holding(job)) && jitter < 30 && frac < SECOND && job.attempts + 1 < job.maxAttempts
    requires job.id in s.rows && s.rows[job.id] == job
             && at == RetryAt(s.clock, frac, NextDelay(job.attempts + 1, jitter))
    ensures var e := Fail(tok, job, error, jitter, frac);
            var failed := job.(attempts := job.attempts + 1, status := StatusRetry, lastError := error);
            && Enabled(s, e) && Enabled(Apply(s, e), Requeue(tok, failed, at))
            && Apply(Apply(s, e), Requeue(tok, failed, at)).rows == s.rows[job.id := failed.(processAt := at)]
  {
  }

  /** Pool.fail with attempts left: the row waits for its backoff. */
  lemma RetryRuns(evs: seq<Event>, tok: L.Token, job: Job, error: string, jitter: nat, frac: nat)
    returns (run: seq<Event>)
    requires Legal(evs) && InProgress(Exec(evs), tok, L.Holding(job)) && jitter < 30 && frac < SECOND
    requires job.attempts + 1 < job.maxAttempts
    ensures evs <= run && Legal(run) && job.id in Exec(evs).rows && job.id in Exec(run).rows
    ensures var rows, rows', n := Exec(evs).rows, Exec(run).rows, job.attempts + 1;
            && rows' == rows[job.id := job.(attempts := n, status := StatusRetry, lastError := error,
                        processAt := rows'[job.id].processAt)]
            && (n <= 309 ==> rows'[job.id].processAt == Exec(evs).clock + n * n * n * n + 15 + jitter * (n + 1))
  {
    HeldRow(evs, tok, job);
    var n := job.attempts + 1;
    var at := RetryAt(Exec(evs).clock, frac, NextDelay(n, jitter));
    if n <= 309 {
      WhenRetried(Exec(evs).clock, frac, n, jitter);
    }
    RetrySteps(Exec(evs), tok, job, error, jitter, frac, at);
    var e := Fail(tok, job, error, jitter, frac);
    var e' := Requeue(tok, job.(attempts := n, status := StatusRetry, lastError := error), at);
    Two(evs, e, e');
    run := evs + [e] + [e'];
  }

  /** Pool.fail on the last attempt: the row is dead. */
  lemma LastFailureRuns(evs: seq<Event>, tok: L.Token, job: Job, error: string, jitter: nat, frac: nat)
    returns (run: seq<Event>)
    requires Legal(evs) && InProgress(Exec(evs), tok, L.Holding(job)) && jitter < 30 && frac < SECOND
    requires job.attempts + 1 >= job.maxAttempts
    ensures evs <= run && Legal(run) && job.id in Exec(evs).rows
    ensures Exec(run).rows == Exec(evs).rows[job.id := job.(attempts := job.attempts + 1, status := StatusDead,
                              lastError := error)]
  {
    HeldRow(evs, tok, job);
    var e := Fail(tok, job, error, jitter, frac);
    var e' := Bury(tok, job.(attempts := job.attempts + 1, status := StatusDead, lastError := error));
    Two(evs, e, e');
    run := evs + [e] + [e'];
  }

  /** No handler: dead at once, with the reason and no attempt used. */
  lemma RejectionRuns(evs: seq<Event>, tok: L.Token, job: Job, error: string) returns (run: seq<Event>)
    requires Legal(evs) && InProgress(Exec(evs), tok, L.Holding(job))
    ensures evs <= run && Legal(run) && job.id in Exec(evs).rows
    ensures Exec(run).rows == Exec(evs).rows[job.id := job.(status := StatusDead, lastError := error)]
  {
    HeldRow(evs, tok, job);
    var e, e' := Reject(tok, job, error), Bury(tok, job.(status := StatusDead, lastError := error));
    Two(evs, e, e');
    run := evs + [e] + [e'];
  }

  /** A call can break off at any point, without touching the rows. */
  lemma BreaksOff(evs: seq<Event>, tok: L.Token)
    requires Legal(evs) && tok in Exec(evs).calls
    ensures Legal(evs + [Drop(tok)])
    ensures Exec(evs + [Drop(tok)]) == Exec(evs).(calls := Exec(evs).calls - {tok})
  {
    Extend(evs, Drop(tok));
    assert Front(evs + [Drop(tok)]) == evs && Last(evs + [Drop(tok)]) == Drop(tok);
  }

  /** Dequeue can claim the most urgent ready row that nobody has locked: it is active from then
      on, in the hands of the caller, and otherwise as it was. */
  lemma ClaimRuns(evs: seq<Event>, q: Queue, id: Id, locked: set<Id>)
    requires Legal(evs) && Broker.MostUrgent(Exec(evs).rows, q, Exec(evs).clock, locked, id)
    ensures var s, run := Exec(evs), evs + [Claim(Exec(evs).next, q, id, locked)];
            var taken := s.rows[id].(status := StatusActive);
            && Legal(run) && Exec(run).rows == s.rows[id := taken]
            && Exec(run).calls == s.calls[s.next := L.Holding(taken)]
  {
    var e := Claim(Exec(evs).next, q, id, locked);
    Broker.PicksMostUrgent(Exec(evs).rows, q, Exec(evs).clock, locked, id);
    Extend(evs, e);
    assert Front(evs + [e]) == evs && Last(evs + [e]) == e;
  }

  /** RetryDeadJob of a dead row whose key is free: as if newly enqueued. */
  lemma RevivalRuns(evs: seq<Event>, id: Id, ok: bool)
    requires Legal(evs)
    ensures Legal(evs + [Revive(id, ok)]) <==> (ok <==> Revivable(Exec(evs).rows, id))
    ensures ok && Revivable(Exec(evs).rows, id) ==>
              var rows := Exec(evs).rows;
              Exec(evs + [Revive(id, ok)]).rows
              == rows[id := rows[id].(status := StatusPending, attempts := 0, lastError := "",
              processAt := Exec(evs).clock)]
    ensures !ok && !Revivable(Exec(evs).rows, id) ==> Exec(evs + [Revive(id, ok)]).rows == Exec(evs).rows
  {
    var rows := Exec(evs).rows;
    assert MarkPending(rows, id, Exec(evs).clock).1 <==> Revivable(rows, id) by { RevivableMeans(rows, id); }
    Extend(evs, Revive(id, ok));
    assert Front(evs + [Revive(id, ok)]) == evs && Last(evs + [Revive(id, ok)]) == Revive(id, ok);
  }

  /** The row is dead, and no row that is neither dead nor completed has its key, if it has one. */
  predicate Revivable(rows: Rows, id: Id) {
    && id in rows && rows[id].status == StatusDead
    && (rows[id].uniqueKey == "" || forall i | i in rows && rows[i].uniqueKey == rows[id].uniqueKey ::
          rows[i].status == StatusDead || rows[i].status == StatusCompleted)
  }

  lemma RevivableMeans(rows: Rows, id: Id)
    ensures (id in rows && rows[id].status == StatusDead && !KeyTaken(rows, id, rows[id].uniqueKey)) <==>
            Revivable(rows, id)
  {
  }
}
