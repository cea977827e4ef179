/** The methods of postgresBroker, each statement an update of the one table. */
module PostgresBroker {
  import opened Jobs
  import opened PostgresTable
  import JobTable
  import P = PostgresLifecycle

  /** The row is waiting on the queue and its time has come. */
  predicate Ready(j: Job, q: Queue, now: Time) {
    j.queue == q && (j.status == StatusPending || j.status == StatusRetry) && j.processAt <= now
  }

  /** Of the ready rows that nobody has locked, this one has the lowest priority number, and
      among those of its priority the earliest due time. */
  ghost predicate MostUrgent(rows: Rows, q: Queue, now: Time, locked: set<Id>, id: Id) {
    && id in rows && id !in locked && Ready(rows[id], q, now)
    && forall i | i in rows && i !in locked && Ready(rows[i], q, now) ::
         && rows[id].priority <= rows[i].priority
         && (rows[id].priority == rows[i].priority ==> rows[id].processAt <= rows[i].processAt)
  }

  ghost predicate NothingReady(rows: Rows, q: Queue, now: Time, locked: set<Id>) {
    forall i | i in rows && i !in locked :: !Ready(rows[i], q, now)
  }

  /** Dequeue's loop: the first listed queue with a ready row gives its most urgent one, which is
      active from then on. */
  ghost predicate DequeueResult(rows: Rows, queues: seq<Queue>, now: Time, locked: set<Id>, rows': Rows,
                                r: Option<Job>) {
    match r
    case None => rows' == rows && forall k | 0 <= k < |queues| :: NothingReady(rows, queues[k], now, locked)
    case Some(job) =>
      exists k, id :: 0 <= k < |queues|
                      && MostUrgent(rows, queues[k], now, locked, id)
                      && job == rows[id].(status := StatusActive) && rows' == rows[id := job]
                      && forall i | 0 <= i < k :: NothingReady(rows, queues[i], now, locked)
  }

  lemma PicksMostUrgent(rows: Rows, q: Queue, now: Time, locked: set<Id>, id: Id)
    ensures Picks(rows, q, now, locked, id) <==> MostUrgent(rows, q, now, locked, id)
  {
    forall i ensures Candidate(rows, q, now, locked, i) <==> i in rows && i !in locked && Ready(rows[i], q, now) {
    }
  }

  class Broker {
    var rows: Rows

    constructor ()
      ensures rows == map[]
    {
      rows := map[];
    }

    method Enqueue(job: Job) returns (inserted: bool)
      modifies this
      ensures (rows, inserted) == Insert(old(rows), job)
      ensures inserted <==>
              && job.id !in old(rows)
              && (job.uniqueKey == "" || job.status == StatusDead || job.status == StatusCompleted
                  || forall i | i in old(rows) && old(rows)[i].uniqueKey == job.uniqueKey ::
                    old(rows)[i].status == StatusDead || old(rows)[i].status == StatusCompleted)
      ensures rows == if inserted then old(rows)[job.id := job] else old(rows)
      ensures Newborn(job) ==>
                P.TableOf(rows) == JobTable.Do(P.TableOf(old(rows)),
                                               if inserted then JobTable.Submit(job) else JobTable.Nothing)
    {
      if job.id in rows || (Live(job) && KeyTaken(rows, job.id, job.uniqueKey)) {
        return false;
      }
      P.Changed(rows, job.id, job);
      rows := rows[job.id := job];
      inserted := true;
    }

    /** The sub-select: the first due, unlocked row of one queue. */
    method Select(q: Queue, now: Time, locked: set<Id>) returns (r: Option<Id>)
      ensures r.None? ==> NothingReady(rows, q, now, locked)
      ensures r.Some? ==> MostUrgent(rows, q, now, locked, r.value) && Picks(rows, q, now, locked, r.value)
    {
      r := None;
      var left := rows.Keys;
      while left != {}
        invariant left <= rows.Keys
        invariant r.None? ==> forall id | id in rows && id !in left :: !Candidate(rows, q, now, locked, id)
        invariant r.Some? ==> Candidate(rows, q, now, locked, r.value)
        invariant r.Some? ==> forall id | id in rows && id !in left && Candidate(rows, q, now, locked, id) ::
                      Before(rows[r.value], rows[id])
        decreases |left|
      {
        var id :| id in left;
        if Candidate(rows, q, now, locked, id) && (r.None? || !Before(rows[r.value], rows[id])) {
          r := Some(id);
        }
        left := left - {id};
      }
      if r.Some? {
        PicksMostUrgent(rows, q, now, locked, r.value);
      } else {
        assert forall id | id in rows && id !in locked
                           && Ready(rows[id], q, now) :: Candidate(rows, q, now, locked, id);
      }
    }

    method Dequeue(queues: seq<Queue>, now: Time, locked: set<Id>) returns (r: Option<Job>)
      modifies this
      ensures DequeueResult(old(rows), queues, now, locked, rows, r)
    {
      for k := 0 to |queues|
        invariant rows == old(rows)
        invariant forall i | 0 <= i < k :: NothingReady(rows, queues[i], now, locked)
      {
        var id := Select(queues[k], now, locked);
        if id.Some? {
          rows := MarkActive(rows, id.value);
          return Some(rows[id.value]);
        }
      }
      r := None;
    }

    method Acknowledge(id: Id)
      modifies this
      ensures rows == MarkCompleted(old(rows), id)
      ensures rows == if id in old(rows) then old(rows)[id := old(rows)[id].(status := StatusCompleted)] else old(rows)
      ensures P.TableOf(rows) == JobTable.Do(P.TableOf(old(rows)), JobTable.Complete(id))
    {
      if id in rows {
        P.Changed(rows, id, rows[id].(status := StatusCompleted));
        rows := rows[id := rows[id].(status := StatusCompleted)];
      }
    }

    method Requeue(job: Job, at: Time)
      modifies this
      ensures rows == MarkRetry(old(rows), job, at)
      ensures job.id !in old(rows) ==> rows == old(rows)
      ensures job.id in old(rows) ==>
                rows == old(rows)[job.id := old(rows)[job.id].(status := StatusRetry, attempts := job.attempts,
                lastError := job.lastError, processAt := at)]
      ensures P.TableOf(rows) == JobTable.Do(P.TableOf(old(rows)),
                                             JobTable.Postpone(job.id, job.attempts, job.lastError, at))
    {
      if job.id in rows {
        var row := rows[job.id];
        row := row.(status := StatusRetry, attempts := job.attempts, lastError := job.lastError, processAt := at);
        P.Changed(rows, job.id, row);
        rows := rows[job.id := row];
      }
    }

    method MoveToDeadLetter(job: Job)
      modifies this
      ensures rows == MarkDead(old(rows), job)
      ensures job.id !in old(rows) ==> rows == old(rows)
      ensures job.id in old(rows) ==>
                rows == old(rows)[job.id := old(rows)[job.id].(status := StatusDead, attempts := job.attempts,
                lastError := job.lastError)]
      ensures P.TableOf(rows) == JobTable.Do(P.TableOf(old(rows)), JobTable.Kill(job.id, job.attempts, job.lastError))
    {
      if job.id in rows {
        var row := rows[job.id].(status := StatusDead, attempts := job.attempts, lastError := job.lastError);
        P.Changed(rows, job.id, row);
        rows := rows[job.id := row];
      }
    }

    method RetryDeadJob(id: Id, now: Time) returns (ok: bool)
      modifies this
      ensures (rows, ok) == MarkPending(old(rows), id, now)
      ensures ok <==>
              && id in old(rows) && old(rows)[id].status == StatusDead
              && (old(rows)[id].uniqueKey == ""
                  || forall i | i in old(rows) && old(rows)[i].uniqueKey == old(rows)[id].uniqueKey ::
                    old(rows)[i].status == StatusDead || old(rows)[i].status == StatusCompleted)
      ensures !ok ==> rows == old(rows)
      ensures ok ==>
                rows == old(rows)[id := old(rows)[id].(status := StatusPending, attempts := 0, lastError := "",
                processAt := now)]
      ensures P.TableOf(rows) == JobTable.Do(P.TableOf(old(rows)),
                                             if ok then JobTable.Restore(id, now) else JobTable.Nothing)
    {
      if id !in rows || rows[id].status != StatusDead || KeyTaken(rows, id, rows[id].uniqueKey) {
        return false;
      }
      P.Changed(rows, id, Reset(rows[id], now));
      rows := rows[id := Reset(rows[id], now)];
      ok := true;
    }
  }
}
