/** The abstract job table both brokers implement: one row per job ever submitted. */
module JobTable {
  import opened Jobs

  datatype Phase = Waiting(due: Time) | Running | Buried | Done

  /** `spec` is the unchanging part of the job. */
  datatype Row = Row(spec: Job, attempts: nat, lastError: string, phase: Phase)

  type Table = map<Id, Row>

  datatype Op =
    | Submit(job: Job)
    | Take(id: Id, queue: Queue)
    | Complete(id: Id)
    | Postpone(id: Id, attempts: nat, error: string, due: Time)
    | Kill(id: Id, attempts: nat, error: string)
    | Restore(id: Id, due: Time)
    | Nothing

  predicate Is(t: Table, id: Id, phase: Phase) {
    id in t && t[id].phase == phase
  }

  /** When an operation may happen. A job is taken from its own queue and never before it is
      due; an attempt is counted exactly once; only the last attempt or a missing handler
      kills; only a dead job is restored. */
  predicate Allowed(t: Table, op: Op, clock: Time) {
    match op
    case Submit(job) => Newborn(job) && job.id !in t
    case Take(id, q) => id in t && t[id].spec.queue == q && t[id].phase.Waiting? && t[id].phase.due <= clock
    case Complete(id) => Is(t, id, Running)
    case Postpone(id, attempts, _, _) =>
      Is(t, id, Running) && attempts == t[id].attempts + 1 && attempts < t[id].spec.maxAttempts
    case Kill(id, attempts, _) =>
      Is(t, id, Running) && (attempts == t[id].attempts || attempts == t[id].attempts + 1 == t[id].spec.maxAttempts)
    case Restore(id, due) => Is(t, id, Buried) && due <= clock
    case Nothing => true
  }

  function Do(t: Table, op: Op): Table {
    match op
    case Submit(job) => t[job.id := Row(Fixed(job), job.attempts, job.lastError, Waiting(job.processAt))]
    case Take(id, _) => if id in t then t[id := t[id].(phase := Running)] else t
    case Complete(id) => if id in t then t[id := t[id].(phase := Done)] else t
    case Postpone(id, attempts, error, due) =>
      if id in t then t[id := t[id].(attempts := attempts, lastError := error, phase := Waiting(due))] else t
    case Kill(id, attempts, error) =>
      if id in t then t[id := t[id].(attempts := attempts, lastError := error, phase := Buried)] else t
    case Restore(id, due) =>
      if id in t then t[id := t[id].(attempts := 0, lastError := "", phase := Waiting(due))] else t
    case Nothing => t
  }

  /** A row is in order: attempts are left unless it is buried, and never too many were used. */
  predicate RowOk(row: Row) {
    1 <= row.spec.maxAttempts && row.attempts <= row.spec.maxAttempts
    && (!row.phase.Buried? ==> row.attempts < row.spec.maxAttempts)
  }

  /** What the operations allowed on the table guarantee: rows stay in order and keep their spec, a
      row that is done stays as it is, a row is made by Submit and never goes, it runs only from
      waiting, and its attempts grow by one or, on a restore, start again. */
  lemma TableSafe(t: Table, op: Op, clock: Time, id: Id)
    requires Allowed(t, op, clock) && (id in t ==> RowOk(t[id]))
    ensures id in Do(t, op) <==> id in t || (op.Submit? && op.job.id == id)
    ensures id in Do(t, op) ==> RowOk(Do(t, op)[id])
    ensures id in t ==>
              var before, after := t[id], Do(t, op)[id];
              && after.spec == before.spec
              && (before.phase.Done? ==> after == before)
              && (after.phase.Running? && !before.phase.Running? ==> before.phase.Waiting? && before.phase.due <= clock)
              && (after.phase.Done? && !before.phase.Done? ==> before.phase.Running?)
              && (after.phase.Buried? && !before.phase.Buried? ==> before.phase.Running?)
              && (after.phase.Waiting? && after != before ==> before.phase.Running? || before.phase.Buried?)
              && (before.phase.Buried? && after != before ==> after.attempts == 0 && after.phase.Waiting?)
              && (!before.phase.Buried? ==> before.attempts <= after.attempts <= before.attempts + 1)
  {
  }

  /** Some job of the queue could be taken now. */
  ghost predicate Claimable(t: Table, q: Queue, clock: Time) {
    exists id :: id in t && Allowed(t, Take(id, q), clock)
  }
}
