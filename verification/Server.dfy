/** One server (dispatcher, channel buffer, workers, scheduler and Run's shutdown sequence) on a
    store it shares with any number of other servers, clients and administrators. */
module Server {
  import opened Jobs
  import opened RedisStore
  import opened Lifecycle
  import opened Dispatcher

  /** Dispatcher.Run: at the top of the loop, past the cancellation check, between the pop and
      the GET of Dequeue, blocked in Submit, or returned. */
  datatype Disp = AtTop | Ready | Fetching(tok: Token) | Submitting(tok: Token) | Stopped

  datatype Worker = Idle | Busy(tok: Token) | Exited

  datatype Sched = Waiting | Passing(tok: Token) | Halted

  /** `taken` are the deliveries the dispatcher ever popped, `settled` those whose outcome has
      been recorded in the store. */
  datatype Server = Server(
    capacity: nat,
    schedule: seq<Queue>,
    idx: nat,
    disp: Disp,
    buffer: seq<Token>,
    workers: seq<Worker>,
    sched: Sched,
    cancelled: bool,
    closed: bool,
    taken: map<Token, Id>,
    settled: set<Token>)

  datatype World = World(core: State, srv: Server)

  datatype Act =
    | Other(e: Event)              // somebody else's step
    | Cancel
    | Check
    | Poll(e: Event)
    | PollEmpty
    | PollError
    | Fetch(e: Event)
    | FetchError(e: Event)
    | Submit
    | HandOff(w: nat)
    | SubmitCancelled(e: Event)
    | TakeJob(w: nat)
    | Work(w: nat, e: Event)
    | WorkDone(w: nat)
    | StopWorker(w: nat)
    | PassStart(e: Event)
    | PassStep(e: Event)
    | PassStop(e: Event, halt: bool)
    | StopScheduler
    | Close

  /** NewServer: a buffer size of zero means twice the concurrency. */
  function NewServer(concurrency: nat, bufferSize: nat, queues: seq<QueueConfig>): (s: Server)
    ensures |s.workers| == concurrency && s.schedule == Expand(queues)
    ensures s.capacity == if bufferSize == 0 then 2 * concurrency else bufferSize
    ensures s.capacity == 0 ==> concurrency == 0
  {
    Server(if bufferSize == 0 then concurrency * 2 else bufferSize, Expand(queues), 0, AtTop, [],
           seq(concurrency, _ => Idle), Waiting, false, false, map[], {})
  }

  /** The atomic step an action makes on the store and the calls, if any. */
  function CoreOf(a: Act): Option<Event> {
    match a
    case Other(e) => Some(e)
    case Poll(e) => Some(e)
    case Fetch(e) => Some(e)
    case FetchError(e) => Some(e)
    case SubmitCancelled(e) => Some(e)
    case Work(_, e) => Some(e)
    case PassStart(e) => Some(e)
    case PassStep(e) => Some(e)
    case PassStop(e, _) => Some(e)
    case _ => None
  }

  /** The event is not about a call of this server. */
  predicate Foreign(srv: Server, e: Event) {
    e.Tick? || e.Enqueue? || (e.tok !in srv.taken && srv.sched != Passing(e.tok))
  }

  /** What Pool.process and its broker calls do with the job in a worker's hands. */
  predicate WorkStep(e: Event) {
    e.Fail? || e.Reject? || e.Requeue? || e.Bury? || e.Release? || e.Forget? || e.Drop?
  }

  predicate IsWorker(srv: Server, w: nat, state: Worker) {
    w < |srv.workers| && srv.workers[w] == state
  }

  /** The pass has handled everything it listed and has no source left to read. One that ends
      before that was ended by an error. */
  predicate PassDone(s: State, tok: Token) {
    tok in s.calls && s.calls[tok].Promoting? && s.calls[tok].due == [] && s.calls[tok].rest == []
  }

  /** When an action is possible. Cancellation is only noticed where the source looks at the
      context: at the top of the dispatcher's loop, in Submit's, the workers' and the scheduler's
      select, and after an error. */
  ghost predicate Possible(world: World, a: Act) {
    var srv, core := world.srv, world.core;
    && (CoreOf(a).Some? ==> Enabled(core, CoreOf(a).value))
    && match a
       case Other(e) => Foreign(srv, e)
       case Cancel => true
       case Check => srv.disp == AtTop
       case Poll(e) => srv.disp == Ready && srv.schedule != [] && e.Pop? && e.queue == PollAt(srv.schedule, srv.idx)
       case PollEmpty => srv.disp == Ready && srv.schedule != []
                         && List(core.store.queues, PollAt(srv.schedule, srv.idx)) == []
       case PollError => srv.disp == Ready
       case Fetch(e) => e.Read? && srv.disp == Fetching(e.tok)
       case FetchError(e) => e.Drop? && srv.disp == Fetching(e.tok)
       case Submit => srv.disp.Submitting? && |srv.buffer| < srv.capacity
       case HandOff(w) => srv.disp.Submitting? && srv.buffer == [] && IsWorker(srv, w, Idle)
       case SubmitCancelled(e) => e.Drop? && srv.disp == Submitting(e.tok) && srv.cancelled
       case TakeJob(w) => IsWorker(srv, w, Idle) && srv.buffer != []
       case Work(w, e) => WorkStep(e) && IsWorker(srv, w, Busy(e.tok))
       case WorkDone(w) => w < |srv.workers| && srv.workers[w].Busy? && srv.workers[w].tok !in core.calls
       case StopWorker(w) => IsWorker(srv, w, Idle) && srv.cancelled
       case PassStart(e) => srv.sched == Waiting && e.PassBegin?
       case PassStep(e) => (e.Scan? || e.Promote?) && srv.sched == Passing(e.tok)
       case PassStop(e, halt) =>
         e.PassEnd? && srv.sched == Passing(e.tok) && halt == (srv.cancelled && !PassDone(core, e.tok))
       case StopScheduler => srv.sched == Waiting && srv.cancelled
       case Close =>
         && srv.cancelled && !srv.closed && srv.disp == Stopped && srv.sched == Halted
         && (forall w | 0 <= w < |srv.workers| :: srv.workers[w] == Exited)
  }

  /** The outcome of a delivery reaches the store. */
  predicate Settling(e: Event) {
    e.Requeue? || e.Bury? || e.Release?
  }

  function AfterError(srv: Server): Disp {
    if srv.cancelled then Stopped else AtTop
  }

  ghost function Local(world: World, a: Act): Server
    requires Possible(world, a)
  {
    var srv := world.srv;
    match a
    case Other(_) => srv
    case Cancel => srv.(cancelled := true)
    case Check => srv.(disp := if srv.cancelled || srv.schedule == [] then Stopped else Ready)
    case Poll(e) => srv.(disp := Fetching(e.tok), idx := srv.idx + 1, taken := srv.taken[e.tok := e.id])
    case PollEmpty => srv.(disp := AtTop, idx := srv.idx + 1)
    case PollError => srv.(disp := AfterError(srv), idx := srv.idx + 1)
    case Fetch(e) => srv.(disp := Submitting(e.tok))
    case FetchError(_) => srv.(disp := AfterError(srv))
    case Submit => srv.(disp := AtTop, buffer := srv.buffer + [srv.disp.tok])
    case HandOff(w) => srv.(disp := AtTop, workers := srv.workers[w := Busy(srv.disp.tok)])
    case SubmitCancelled(_) => srv.(disp := Stopped)
    case TakeJob(w) => srv.(buffer := srv.buffer[1..], workers := srv.workers[w := Busy(srv.buffer[0])])
    case Work(_, e) => if Settling(e) then srv.(settled := srv.settled + {e.tok}) else srv
    case WorkDone(w) => srv.(workers := srv.workers[w := Idle])
    case StopWorker(w) => srv.(workers := srv.workers[w := Exited])
    case PassStart(e) => srv.(sched := Passing(e.tok))
    case PassStep(_) => srv
    case PassStop(_, halt) => srv.(sched := if halt then Halted else Waiting)
    case StopScheduler => srv.(sched := Halted)
    case Close => srv.(closed := true)
  }

  ghost function Do(world: World, a: Act): World
    requires Possible(world, a)
  {
    World(if CoreOf(a).Some? then Apply(world.core, CoreOf(a).value) else world.core, Local(world, a))
  }

  // ---------- runs ----------

  ghost predicate Run(start: Server, acts: seq<Act>)
    decreases |acts|, 0
  {
    acts == [] || (Run(start, Front(acts)) && Possible(After(start, Front(acts)), Last(acts)))
  }

  ghost function After(start: Server, acts: seq<Act>): World
    requires Run(start, acts)
    decreases |acts|, 1
  {
    if acts == [] then World(INITIAL, start) else Do(After(start, Front(acts)), Last(acts))
  }

  /** The steps of a run of the server on the shared store are a run of the protocol. */
  function Steps(acts: seq<Act>): seq<Event> {
    if acts == [] then [] else
    Steps(Front(acts)) + (if CoreOf(Last(acts)).Some? then [CoreOf(Last(acts)).value] else [])
  }

  lemma {:induction false} RunIsRun(start: Server, acts: seq<Act>)
    requires Run(start, acts)
    ensures Legal(Steps(acts)) && Exec(Steps(acts)) == After(start, acts).core
  {
    if acts != [] {
      var front, a := Front(acts), Last(acts);
      RunIsRun(start, front);
      if CoreOf(a).Some? {
        assert Front(Steps(acts)) == Steps(front) && Last(Steps(acts)) == CoreOf(a).value;
      } else {
        assert Steps(acts) == Steps(front);
      }
    }
  }

  // ---------- points of a run ----------

  lemma {:induction false} RunPrefix(start: Server, acts: seq<Act>, k: nat)
    requires Run(start, acts) && k <= |acts|
    ensures Run(start, acts[..k])
    decreases |acts|
  {
    if k < |acts| {
      assert Front(acts)[..k] == acts[..k];
      RunPrefix(start, Front(acts), k);
    } else {
      assert acts[..k] == acts;
    }
  }

  /** The world after the first k actions. */
  ghost function At(start: Server, acts: seq<Act>, k: nat): World
    requires Run(start, acts) && k <= |acts|
  {
    RunPrefix(start, acts, k);
    After(start, acts[..k])
  }

  lemma ActAt(start: Server, acts: seq<Act>, k: nat)
    requires Run(start, acts) && k < |acts|
    ensures Possible(At(start, acts, k), acts[k]) && At(start, acts, k + 1) == Do(At(start, acts, k), acts[k])
  {
    RunPrefix(start, acts, k + 1);
    assert acts[..k + 1][..k] == acts[..k];
  }

  /** A Dequeue of this server, whatever comes of it. */
  predicate IsPoll(a: Act) {
    a.Poll? || a.PollEmpty? || a.PollError?
  }

  function Polls(acts: seq<Act>, i: nat, j: nat): nat
    requires i <= j <= |acts|
  {
    if i == j then 0 else Polls(acts, i, j - 1) + (if IsPoll(acts[j - 1]) then 1 else 0)
  }

  /** Polls counts the polls of the stretch. */
  lemma {:induction false} PollsCount(acts: seq<Act>, i: nat, j: nat)
    requires i <= j <= |acts|
    ensures Polls(acts, i, j) == |set k: nat | i <= k < j && IsPoll(acts[k])|
    decreases j
  {
    var polls := set k: nat | i <= k < j && IsPoll(acts[k]);
    if i == j {
      assert polls == {};
    } else {
      PollsCount(acts, i, j - 1);
      var before := set k: nat | i <= k < j - 1 && IsPoll(acts[k]);
      assert polls == before + (if IsPoll(acts[j - 1]) then {j - 1} else {});
    }
  }
}
