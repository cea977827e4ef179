/** The jobs table of internal/broker/postgres.go. One SQL statement is one atomic function on
    the rows; Redis's separate structures are here a status and a due time. */
module PostgresTable {
  import opened Jobs

  type Rows = map<Id, Job>

  /** The rows covered by the partial unique index on unique_key. */
  predicate Live(j: Job) {
    j.status != StatusCompleted && j.status != StatusDead
  }

  /** Some live row other than `id` already uses the key; an empty key is stored as NULL. */
  predicate KeyTaken(rows: Rows, id: Id, key: string) {
    key != "" && exists i | i in rows :: i != id && rows[i].uniqueKey == key && Live(rows[i])
  }

  /** Enqueue's INSERT: a duplicate ID or a taken key violates a constraint, and the error is
      swallowed. */
  function Insert(rows: Rows, job: Job): (Rows, bool) {
    if job.id in rows || (Live(job) && KeyTaken(rows, job.id, job.uniqueKey)) then (rows, false)
    else (rows[job.id := job], true)
  }

  predicate Candidate(rows: Rows, q: Queue, now: Time, locked: set<Id>, id: Id) {
    && id in rows && id !in locked && rows[id].queue == q && rows[id].processAt <= now
    && (rows[id].status == StatusPending || rows[id].status == StatusRetry)
  }

  /** ORDER BY priority ASC, process_at ASC. */
  predicate Before(a: Job, b: Job) {
    a.priority < b.priority || (a.priority == b.priority && a.processAt <= b.processAt)
  }

  /** The row Dequeue's sub-select picks: first in order among the due rows of the queue that no
      other transaction has locked. Ties may go either way. */
  ghost predicate Picks(rows: Rows, q: Queue, now: Time, locked: set<Id>, id: Id) {
    && Candidate(rows, q, now, locked, id)
    && (forall i | Candidate(rows, q, now, locked, i) :: Before(rows[id], rows[i]))
  }

  /** Dequeue's UPDATE of the picked row. */
  function MarkActive(rows: Rows, id: Id): Rows {
    if id in rows then rows[id := rows[id].(status := StatusActive)] else rows
  }

  function MarkCompleted(rows: Rows, id: Id): Rows {
    if id in rows then rows[id := rows[id].(status := StatusCompleted)] else rows
  }

  function MarkRetry(rows: Rows, job: Job, at: Time): Rows {
    if job.id in rows
    then rows[job.id := rows[job.id].(status := StatusRetry, attempts := job.attempts, lastError := job.lastError,
         processAt := at)]
    else rows
  }

  function MarkDead(rows: Rows, job: Job): Rows {
    if job.id in rows
    then rows[job.id := rows[job.id].(status := StatusDead, attempts := job.attempts, lastError := job.lastError)]
    else rows
  }

  /** RetryDeadJob's UPDATE: only a dead row, and only if its key is still free. */
  function MarkPending(rows: Rows, id: Id, now: Time): (Rows, bool) {
    if id in rows && rows[id].status == StatusDead && !KeyTaken(rows, id, rows[id].uniqueKey)
    then (rows[id := Reset(rows[id], now)], true)
    else (rows, false)
  }
}
