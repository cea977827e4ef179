/** What holds in every state of every run of a server, up to and after Close. */
module Shutdown {
  import opened Jobs
  import opened RedisStore
  import opened Lifecycle
  import opened Invariant
  import opened Dispatcher
  import opened Server
  import opened ServerSafety

  predicate Fresh(srv: Server) {
    && srv.idx == 0 && srv.disp == AtTop && srv.buffer == [] && srv.sched == Waiting
    && !srv.cancelled && !srv.closed && srv.taken == map[] && srv.settled == {}
    && forall w | 0 <= w < |srv.workers| :: srv.workers[w] == Idle
  }

  lemma NewServerIsFresh(concurrency: nat, bufferSize: nat, queues: seq<QueueConfig>)
    ensures Fresh(NewServer(concurrency, bufferSize, queues))
  {
  }

  lemma HistoryOfSteps(acts: seq<Act>)
    requires acts != []
    ensures History(Steps(acts)) == NoteAct(History(Steps(Front(acts))), Last(acts))
  {
    var front, a := Front(acts), Last(acts);
    if CoreOf(a).Some? {
      assert Front(Steps(acts)) == Steps(front) && Last(Steps(acts)) == CoreOf(a).value;
    } else {
      assert Steps(acts) == Steps(front);
    }
  }

  lemma {:induction false} RunOk(start: Server, acts: seq<Act>)
    requires Fresh(start) && Run(start, acts)
    ensures WorldOk(After(start, acts), History(Steps(acts)))
    ensures var srv := After(start, acts).srv;
            |srv.workers| == |start.workers| && srv.capacity == start.capacity && srv.schedule == start.schedule
  {
    if acts != [] {
      var front, a := Front(acts), Last(acts);
      RunOk(start, front);
      WorldStep(After(start, front), History(Steps(front)), a);
      HistoryOfSteps(acts);
    }
  }

  // ---------- backpressure ----------

  function DispatcherTokens(d: Disp): set<Token> {
    if d.Fetching? || d.Submitting? then {d.tok} else {}
  }

  function BufferTokens(buffer: seq<Token>): set<Token> {
    set tok | tok in buffer
  }

  function WorkerTokens(workers: seq<Worker>): set<Token> {
    set w | 0 <= w < |workers| && workers[w].Busy? :: workers[w].tok
  }

  /** All deliveries in the server's hands. */
  function Held(srv: Server): set<Token> {
    DispatcherTokens(srv.disp) + BufferTokens(srv.buffer) + WorkerTokens(srv.workers)
  }

  lemma {:induction false} BufferSize(buffer: seq<Token>)
    ensures |BufferTokens(buffer)| <= |buffer|
  {
    if buffer == [] {
      assert BufferTokens(buffer) == {};
    } else {
      BufferSize(buffer[1..]);
      assert buffer == [buffer[0]] + buffer[1..];
      assert BufferTokens(buffer) == BufferTokens(buffer[1..]) + {buffer[0]};
    }
  }

  lemma {:induction false} WorkersSize(workers: seq<Worker>)
    ensures |WorkerTokens(workers)| <= |workers|
  {
    if workers == [] {
      assert WorkerTokens(workers) == {};
    } else {
      var front, last := workers[..|workers| - 1], workers[|workers| - 1];
      WorkersSize(front);
      var one := if last.Busy? then {last.tok} else {};
      forall tok ensures tok in WorkerTokens(workers) <==> tok in WorkerTokens(front) + one {
        if tok in WorkerTokens(front) {
          var w :| 0 <= w < |front| && front[w].Busy? && front[w].tok == tok;
          assert workers[w] == front[w];
        }
        if tok in WorkerTokens(workers) {
          var w :| 0 <= w < |workers| && workers[w].Busy? && workers[w].tok == tok;
          assert w < |front| ==> front[w] == workers[w];
        }
      }
      assert WorkerTokens(workers) == WorkerTokens(front) + one;
    }
  }

  lemma HeldSize(srv: Server)
    ensures |Held(srv)| <= 1 + |srv.buffer| + |srv.workers|
  {
    BufferSize(srv.buffer);
    WorkersSize(srv.workers);
    var a, b, c := DispatcherTokens(srv.disp), BufferTokens(srv.buffer), WorkerTokens(srv.workers);
    assert |a + b| <= |a| + |b|;
    assert |a + b + c| <= |a + b| + |c|;
  }

  lemma HeldIsTaken(world: World, t: Token)
    requires SlotsOk(world) && t in Held(world.srv)
    ensures t in world.srv.taken
  {
    if t in DispatcherTokens(world.srv.disp) {
      assert Holds(world.srv, InDispatcher, t);
    } else if t in BufferTokens(world.srv.buffer) {
      var i :| 0 <= i < |world.srv.buffer| && world.srv.buffer[i] == t;
      assert Holds(world.srv, InBuffer(i), t);
    } else {
      var w :| 0 <= w < |world.srv.workers| && world.srv.workers[w].Busy? && world.srv.workers[w].tok == t;
      assert Holds(world.srv, InWorker(w), t);
    }
  }

  /** Deliveries whose outcome is not recorded, in the server's hands or given up, are of
      different jobs. */
  ghost predicate DistinctJobs(srv: Server) {
    forall t, u | t in srv.taken && u in srv.taken && t !in srv.settled && u !in srv.settled
                  && srv.taken[t] == srv.taken[u] ::
      t == u
  }

  /** A job the server has not settled is active, so it is not the one a poll delivers. */
  lemma FreshJob(world: World, l: Ledger, a: Act, u: Token)
    requires WorldOk(world, l) && Possible(world, a) && a.Poll? && u in world.srv.taken && u !in world.srv.settled
    ensures a.e.id != world.srv.taken[u]
  {
    StepLawful(world.core, l, a.e);
    assert DeliveryOk(world.core, l, u, world.srv.taken[u], false);
  }

  lemma DistinctStep(world: World, l: Ledger, a: Act, t: Token, u: Token)
    requires WorldOk(world, l) && Possible(world, a) && DistinctJobs(world.srv)
    requires t in Local(world, a).taken && u in Local(world, a).taken
    requires Local(world, a).taken[t] == Local(world, a).taken[u]
    requires t !in Local(world, a).settled && u !in Local(world, a).settled
    ensures t == u
  {
    if t in world.srv.taken && u in world.srv.taken {
      OwnStep(world, a, t);
      OwnStep(world, a, u);
    } else if t in world.srv.taken {
      NewDelivery(world, a, u);
      OwnStep(world, a, t);
      FreshJob(world, l, a, t);
    } else {
      NewDelivery(world, a, t);
      if u in world.srv.taken {
        OwnStep(world, a, u);
        FreshJob(world, l, a, u);
      } else {
        NewDelivery(world, a, u);
      }
    }
  }

  lemma {:induction false} RunDistinct(start: Server, acts: seq<Act>)
    requires Fresh(start) && Run(start, acts)
    ensures DistinctJobs(After(start, acts).srv)
  {
    if acts != [] {
      var front, a := Front(acts), Last(acts);
      var world, srv := After(start, front), After(start, acts).srv;
      RunDistinct(start, front);
      RunOk(start, front);
      forall t, u | t in srv.taken && u in srv.taken && t !in srv.settled && u !in srv.settled
                    && srv.taken[t] == srv.taken[u]
        ensures t == u
      {
        DistinctStep(world, History(Steps(front)), a, t, u);
      }
    }
  }

  lemma UnsettledIsActive(world: World, l: Ledger, t: Token)
    requires WorldOk(world, l) && t in world.srv.taken && t !in world.srv.settled
    ensures world.srv.taken[t] in world.core.store.active
  {
    assert DeliveryOk(world.core, l, t, world.srv.taken[t], false);
    StoredAt(world.core.store, l, world.srv.taken[t], InActive);
  }

  /** Backpressure: a server never has more than Concurrency + BufferSize + 1 deliveries in its
      hands. All deliveries it ever took and has not settled, in its hands or given up, are of
      active and pairwise different jobs. */
  lemma Backpressure(start: Server, acts: seq<Act>, t: Token, u: Token)
    requires Fresh(start) && Run(start, acts)
    ensures var srv := After(start, acts).srv;
            |Held(srv)| <= |start.workers| + start.capacity + 1 && Held(srv) <= srv.taken.Keys
    ensures var world := After(start, acts);
            t in world.srv.taken && t !in world.srv.settled ==> world.srv.taken[t] in world.core.store.active
    ensures var srv := After(start, acts).srv;
            t in srv.taken && u in srv.taken && t !in srv.settled && u !in srv.settled && t != u ==>
              srv.taken[t] != srv.taken[u]
  {
    var world, l := After(start, acts), History(Steps(acts));
    RunOk(start, acts);
    HeldSize(world.srv);
    forall v | v in Held(world.srv) ensures v in world.srv.taken {
      HeldIsTaken(world, v);
    }
    if t in world.srv.taken && t !in world.srv.settled {
      UnsettledIsActive(world, l, t);
    }
    RunDistinct(start, acts);
  }

  /** With the default buffer, a server configured for n workers never holds more than 3n + 1. */
  lemma DefaultBackpressure(concurrency: nat, queues: seq<QueueConfig>, acts: seq<Act>)
    requires Run(NewServer(concurrency, 0, queues), acts)
    ensures |Held(After(NewServer(concurrency, 0, queues), acts).srv)| <= 3 * concurrency + 1
  {
    NewServerIsFresh(concurrency, 0, queues);
    Backpressure(NewServer(concurrency, 0, queues), acts, 0, 0);
  }

  /** Submit blocks exactly while the buffer is full, no worker is waiting on an empty one, and
      the context is not cancelled. */
  lemma SubmitBlocksIff(world: World)
    requires SlotsOk(world) && world.srv.disp.Submitting?
    ensures (exists a: Act :: (a.Submit? || a.HandOff? || a.SubmitCancelled?) && Possible(world, a)) <==>
            || |world.srv.buffer| < world.srv.capacity
            || (world.srv.buffer == [] && exists w: nat :: IsWorker(world.srv, w, Idle))
            || world.srv.cancelled
  {
    if |world.srv.buffer| < world.srv.capacity {
      assert Possible(world, Submit);
    } else if world.srv.cancelled {
      assert Possible(world, SubmitCancelled(Drop(world.srv.disp.tok)));
    } else if w: nat :| world.srv.buffer == [] && IsWorker(world.srv, w, Idle) {
      assert Possible(world, HandOff(w));
    }
  }

  /** An idle worker can take the job at the head of the buffer whenever there is one, cancelled or
      not: a buffered job may still be begun after cancellation. */
  lemma IdleWorkerTakes(world: World, w: nat)
    requires IsWorker(world.srv, w, Idle)
    ensures Possible(world, TakeJob(w)) <==> world.srv.buffer != []
    ensures world.srv.buffer != [] ==>
              var after := Do(world, TakeJob(w)).srv;
              IsWorker(after, w, Busy(world.srv.buffer[0])) && [world.srv.buffer[0]] + after.buffer == world.srv.buffer
  {
  }

  /** Every broker call of the dispatcher and the scheduler may fail. A failed Dequeue still uses up
      its turn; once the context is cancelled, a failure ends the dispatcher and the scheduler. */
  lemma FailuresPossible(world: World)
    requires SlotsOk(world) && PassOk(world)
    ensures world.srv.disp == Ready ==>
              && Possible(world, PollError) && Local(world, PollError).idx == world.srv.idx + 1
              && Local(world, PollError).disp == (if world.srv.cancelled then Stopped else AtTop)
    ensures world.srv.disp.Fetching? ==>
              var a := FetchError(Drop(world.srv.disp.tok));
              Possible(world, a) && Local(world, a).disp == (if world.srv.cancelled then Stopped else AtTop)
    ensures world.srv.sched.Passing? && !PassDone(world.core, world.srv.sched.tok) ==>
              var tok := world.srv.sched.tok;
              var a := PassStop(PassEnd(tok, world.core.calls[tok].count), world.srv.cancelled);
              Possible(world, a) && Local(world, a).sched == (if world.srv.cancelled then Halted else Waiting)
  {
  }

  /** Nothing stops by itself: before the context is cancelled no worker and no scheduler has
      stopped, and the dispatcher only if it has nothing to poll. */
  ghost predicate StillRunning(srv: Server) {
    !srv.cancelled ==>
      && !srv.closed && srv.sched != Halted && (srv.disp == Stopped ==> srv.schedule == [])
      && forall w | 0 <= w < |srv.workers| :: srv.workers[w] != Exited
  }

  lemma StillRunningStep(world: World, a: Act)
    requires Possible(world, a) && StillRunning(world.srv)
    ensures StillRunning(Local(world, a))
  {
  }

  lemma {:induction false} RunsUntilCancelled(start: Server, acts: seq<Act>)
    requires Fresh(start) && Run(start, acts)
    ensures StillRunning(After(start, acts).srv)
  {
    if acts != [] {
      RunsUntilCancelled(start, Front(acts));
      StillRunningStep(After(start, Front(acts)), Last(acts));
    }
  }

  // ---------- shutdown ----------

  /** Whatever happens, no job the server popped is lost: its outcome has reached the store, or
      the job is still in the active set. Once the server is closed, an unsettled delivery is
      in the buffer, or its call was given up (Submit cancelled or a broker call failed). */
  lemma NothingLost(start: Server, acts: seq<Act>, tok: Token)
    requires Fresh(start) && Run(start, acts) && tok in After(start, acts).srv.taken
    ensures var world := After(start, acts);
            && (tok !in world.srv.settled ==> world.srv.taken[tok] in world.core.store.active)
            && (tok !in world.srv.settled && world.srv.closed ==> tok in world.srv.buffer || tok !in world.core.calls)
  {
    RunOk(start, acts);
    var world := After(start, acts);
    if tok !in world.srv.settled {
      UnsettledIsActive(world, History(Steps(acts)), tok);
      if world.srv.closed && tok in world.core.calls {
        LeftInBuffer(world, tok);
      }
    }
  }

  /** When everything has stopped, a delivery whose call is open can only be in the buffer. */
  lemma LeftInBuffer(world: World, tok: Token)
    requires SlotsOk(world) && AllStopped(world.srv) && world.srv.closed
    requires tok in world.srv.taken && tok in world.core.calls
    ensures tok in world.srv.buffer
  {
    var slot :| Holds(world.srv, slot, tok);
    assert slot.InBuffer?;
  }

  /** "Settled" is what it says: a worker of this server recorded the outcome of that delivery. */
  lemma {:induction false} SettledByWorker(start: Server, acts: seq<Act>, tok: Token)
    requires Fresh(start) && Run(start, acts) && tok in After(start, acts).srv.settled
    ensures exists k :: 0 <= k < |acts| && acts[k].Work? && Settling(acts[k].e) && acts[k].e.tok == tok
  {
    if acts != [] {
      var front, a := Front(acts), Last(acts);
      if tok in After(start, front).srv.settled {
        SettledByWorker(start, front, tok);
        var k :| 0 <= k < |front| && front[k].Work? && Settling(front[k].e) && front[k].e.tok == tok;
        assert acts[k] == front[k];
      } else {
        assert Last(acts) == a;
      }
    }
  }

  /** After Close the server makes no further broker call of any kind: only steps of others
      (and repeated cancellations) remain possible. */
  lemma SilentAfterClose(start: Server, acts: seq<Act>, a: Act)
    requires Fresh(start) && Run(start, acts) && After(start, acts).srv.closed && Possible(After(start, acts), a)
    ensures a.Other? || a.Cancel?
    ensures Do(After(start, acts), a).srv.closed
  {
    assert AllStopped(After(start, acts).srv) by { RunOk(start, acts); }
    OnlyOthers(After(start, acts), a);
  }

  lemma OnlyOthers(world: World, a: Act)
    requires AllStopped(world.srv) && world.srv.closed && Possible(world, a)
    ensures (a.Other? || a.Cancel?) && Do(world, a).srv.closed
  {
  }
}
