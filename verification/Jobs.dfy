/** The job record of job.go and the ways the system rewrites it.
    Times are whole Unix seconds, as Redis stores them. */
module Jobs {

  type Id = string
  type Queue = string
  type Time = int

  datatype Option<+T> = None | Some(value: T)

  /** All but the last element of a run, and the last. */
  function Front<T>(s: seq<T>): seq<T>
    requires s != []
  {
    s[..|s| - 1]
  }

  function Last<T>(s: seq<T>): T
    requires s != []
  {
    s[|s| - 1]
  }

  datatype Status = StatusPending | StatusActive | StatusRetry | StatusDead | StatusCompleted

  datatype Job = Job(
    id: Id,
    queue: Queue,
    kind: string,       // the handler name, "Type" in job.go
    payload: string,
    priority: int,
    createdAt: Time,
    enqueuedAt: Time,
    processAt: Time,
    attempts: nat,
    maxAttempts: int,
    lastError: string,
    uniqueKey: string,
    status: Status)

  /** What every job built by NewJob and Client.Enqueue satisfies when it reaches a broker. */
  predicate Newborn(j: Job) {
    j.id != "" && j.status == StatusPending && j.attempts == 0 && 1 <= j.maxAttempts
  }

  /** The part of a record that no operation of the system changes: everything but
      the attempt counter, the status, the last error and the due time. */
  function Fixed(j: Job): Job {
    j.(attempts := 0, status := StatusPending, lastError := "", processAt := 0)
  }

  /** Two records of the same job differ at most in what the system rewrites. */
  lemma FixedMeans(a: Job, b: Job)
    ensures Fixed(a) == Fixed(b) <==>
            && a.id == b.id && a.queue == b.queue && a.kind == b.kind && a.payload == b.payload
            && a.priority == b.priority && a.createdAt == b.createdAt && a.enqueuedAt == b.enqueuedAt
            && a.maxAttempts == b.maxAttempts && a.uniqueKey == b.uniqueKey
  {
  }

  /** Pool.fail: one more attempt is used up, and the job is dead once none is left. */
  function Failed(j: Job, error: string): Job {
    j.(attempts := j.attempts + 1,
    status := if j.attempts + 1 >= j.maxAttempts then StatusDead else StatusRetry,
    lastError := error)
  }

  /** Pool.process for a job type with no handler: dead at once, no attempt used. */
  function Rejected(j: Job, error: string): Job {
    j.(status := StatusDead, lastError := error)
  }

  /** RetryDeadJob: the record as if newly enqueued at `now`. */
  function Reset(j: Job, now: Time): Job {
    j.(status := StatusPending, attempts := 0, lastError := "", processAt := now)
  }

  /** NewJob followed by Client.Enqueue's options: an empty queue name means "default",
      a delay that is not positive and a MaxAttempts that is not positive mean "not given". */
  function BuildJob(id: Id, queue: Queue, kind: string, payload: string, now: Time,
                    delay: Time, maxAttempts: int): (j: Job)
    ensures id != "" ==> Newborn(j)
    ensures now <= j.processAt && j.queue != ""
    ensures j.id == id && j.kind == kind && j.payload == payload && j.createdAt == now
    ensures queue != "" ==> j.queue == queue
    ensures queue == "" ==> j.queue == "default"
    ensures delay > 0 ==> j.processAt == now + delay
    ensures delay <= 0 ==> j.processAt == now
    ensures maxAttempts > 0 ==> j.maxAttempts == maxAttempts
    ensures maxAttempts <= 0 ==> j.maxAttempts == 3
    ensures j.status == StatusPending && j.attempts == 0 && j.lastError == ""
  {
    Job(id, if queue == "" then "default" else queue, kind, payload, 0, now, 0,
        if delay > 0 then now + delay else now,
        0, if maxAttempts > 0 then maxAttempts else 3, "", "", StatusPending)
  }
}
