/** internal/worker/pool.go: what a worker does with one job. */
module WorkerPool {
  import opened Jobs
  import opened Backoff
  import opened Middleware
  import L = Lifecycle

  /** The broker call that records an outcome. */
  datatype BrokerCall =
    | Acknowledge(job: Job)
    | Requeue(job: Job, delay: int)
    | MoveToDeadLetter(job: Job)

  const NO_HANDLER: string := "no handler registered for job type "

  /** The call for a job, given what its handler came to. */
  function CallFor(job: Job, o: Outcome, jitter: nat): BrokerCall {
    match Recovered(o)
    case Ok => Acknowledge(job)
    case Err(message) =>
      var failed := Failed(job, message);
      if failed.status == StatusDead then MoveToDeadLetter(failed)
      else Requeue(failed, NextDelay(failed.attempts, jitter))
  }

  class Pool {
    var registry: map<string, Handler>
    var middleware: seq<Middleware>
    var calls: seq<BrokerCall>      // the outcome calls made so far

    constructor (handlers: map<string, Handler>)
      ensures registry == handlers && middleware == [Logging] && calls == []
    {
      registry, middleware, calls := handlers, [Logging], [];
    }

    /** Use: later middlewares go inside the earlier ones. */
    method Use(mws: seq<Middleware>)
      modifies this`middleware
      ensures middleware == old(middleware) + mws
      ensures forall h: Handler :: Chain(h, middleware) == Chain(Chain(h, mws), old(middleware))
    {
      middleware := middleware + mws;
      forall h: Handler ensures Chain(h, middleware) == Chain(Chain(h, mws), old(middleware)) {
        ChainConcat(h, old(middleware), mws);
      }
    }

    /** Pool.fail. */
    method Fail(job: Job, message: string, jitter: nat)
      modifies this`calls
      ensures calls == old(calls) + [CallFor(job, Err(message), jitter)]
      ensures job.attempts + 1 >= job.maxAttempts ==>
                calls == old(calls) + [MoveToDeadLetter(job.(attempts := job.attempts + 1, status := StatusDead,
                                                        lastError := message))]
      ensures job.attempts + 1 < job.maxAttempts ==>
                calls == old(calls) + [Requeue(job.(attempts := job.attempts + 1, status := StatusRetry,
                                               lastError := message), NextDelay(job.attempts + 1, jitter))]
    {
      var attempts := job.attempts + 1;
      if attempts >= job.maxAttempts {
        calls := calls + [MoveToDeadLetter(job.(attempts := attempts, status := StatusDead, lastError := message))];
        return;
      }
      var failed := job.(attempts := attempts, status := StatusRetry, lastError := message);
      calls := calls + [Requeue(failed, NextDelay(attempts, jitter))];
    }

    /** Pool.process: exactly one broker call, whatever the handler and the middlewares do, a
        panic at any depth included. */
    method Process(job: Job, jitter: nat)
      modifies this`calls
      ensures |calls| == |old(calls)| + 1 && calls[..|old(calls)|] == old(calls)
      ensures calls[|old(calls)|] ==
              if job.kind in registry then CallFor(job, Chain(registry[job.kind], middleware)(job), jitter)
              else MoveToDeadLetter(Rejected(job, NO_HANDLER + job.kind))
      ensures job.kind !in registry ==>
                calls[|old(calls)|] == MoveToDeadLetter(job.(status := StatusDead, lastError := NO_HANDLER + job.kind))
      ensures job.kind in registry ==>
                var o, call := Chain(registry[job.kind], middleware)(job), calls[|old(calls)|];
                && (o.Ok? ==> call == Acknowledge(job))
                && (!o.Ok? ==> !call.Acknowledge? && call.job.attempts == job.attempts + 1)
                && (o.Err? ==> call.job.lastError == o.message)
                && (o.Panicked? ==> "panic: " + o.value <= call.job.lastError)
    {
      if job.kind !in registry {
        calls := calls + [MoveToDeadLetter(job.(status := StatusDead, lastError := NO_HANDLER + job.kind))];
        return;
      }
      var chain := BuildChain(registry[job.kind], middleware);
      var o := Recovered(chain(job));
      match o {
        case Ok => calls := calls + [Acknowledge(job)];
        case Err(message) => Fail(job, message, jitter);
        case Panicked(_) => assert false;
      }
    }
  }

  /** The logging every pool starts with changes no outcome, whatever is added to it with Use: a
      recovery added there still catches what panics further in. */
  lemma DefaultChain(h: Handler, mws: seq<Middleware>, job: Job)
    ensures Chain(h, [Logging] + mws)(job) == Chain(h, mws)(job)
    ensures Chain(h, [Logging] + [Recovery] + mws)(job) == Recovered(Chain(h, mws)(job))
  {
    LoggingIsTransparent();
    ChainConcat(h, [Logging], mws);
    TransparentChain(Chain(h, mws), [Logging], job);
    RecoveryCatches(h, [Logging], mws, job);
  }

  /** The job is acknowledged exactly when its handler chain returns without error and without a
      panic; otherwise one attempt is used up, and the job is dead-lettered exactly when that
      was the last. The delay is the backoff for the attempts used. */
  lemma OutcomeDecides(job: Job, o: Outcome, jitter: nat)
    ensures CallFor(job, o, jitter).Acknowledge? <==> o.Ok?
    ensures CallFor(job, o, jitter).MoveToDeadLetter? <==> !o.Ok? && job.attempts + 1 >= job.maxAttempts
    ensures !o.Ok? ==> CallFor(job, o, jitter).job.attempts == job.attempts + 1
    ensures CallFor(job, o, jitter).Requeue? ==> CallFor(job, o, jitter).delay == NextDelay(job.attempts + 1, jitter)
    ensures o.Err? ==> CallFor(job, o, jitter).job.lastError == o.message
    ensures o.Panicked? ==> "panic: " + o.value <= CallFor(job, o, jitter).job.lastError
    ensures o.Ok? ==> CallFor(job, o, jitter).job == job
    ensures CallFor(job, o, jitter).MoveToDeadLetter? ==> CallFor(job, o, jitter).job.status == StatusDead
    ensures CallFor(job, o, jitter).Requeue? ==> CallFor(job, o, jitter).job.status == StatusRetry
    ensures Fixed(CallFor(job, o, jitter).job) == Fixed(job)
  {
  }

  /** A worker's calls are the steps of the protocol: what Process does with a failed job is what
      the lifecycle's Fail event leaves to be done, with the same record and the same due time. */
  lemma ProcessIsFail(job: Job, o: Outcome, jitter: nat, frac: nat, now: Time)
    requires !o.Ok?
    ensures var pending := L.AfterFailure(Failed(job, Recovered(o).message), jitter, frac, now);
            match CallFor(job, o, jitter)
            case Requeue(j, delay) => pending == L.Requeuing(j, RetryAt(now, frac, delay))
            case MoveToDeadLetter(j) => pending == L.Burying(j)
            case Acknowledge(_) => false
  {
  }
}
