/** From cancellation to Close: what a server still fetches, and that it can always finish. */
module Drain {
  import opened Jobs
  import opened RedisStore
  import opened Lifecycle
  import opened Server
  import opened Dispatcher
  import opened ServerSafety
  import opened Shutdown

  // ---------- no new jobs fetched, but for one ----------

  /** Past the cancellation check, the dispatcher has one poll to make before the next. */
  function PollsLeft(d: Disp): nat {
    if d == Ready then 1 else 0
  }

  lemma LastPollStep(world: World, a: Act)
    requires Possible(world, a) && world.srv.cancelled
    ensures Do(world, a).srv.cancelled
    ensures PollsLeft(Do(world, a).srv.disp) + (if IsPoll(a) then 1 else 0) == PollsLeft(world.srv.disp)
  {
  }

  /** After cancellation the dispatcher polls at most once more: exactly once if the cancellation
      found it past the check at the top of its loop, which it had not acted on yet, and never
      otherwise. */
  lemma {:induction false} OneLastPoll(start: Server, acts: seq<Act>, c: nat, j: nat)
    requires Run(start, acts) && c <= j <= |acts| && At(start, acts, c).srv.cancelled
    ensures At(start, acts, j).srv.cancelled
    ensures Polls(acts, c, j) + PollsLeft(At(start, acts, j).srv.disp) == PollsLeft(At(start, acts, c).srv.disp)
    decreases j
  {
    if c < j {
      OneLastPoll(start, acts, c, j - 1);
      ActAt(start, acts, j - 1);
      LastPollStep(At(start, acts, j - 1), acts[j - 1]);
    }
  }

  /** The polls that fetched a job. */
  function Fetches(acts: seq<Act>, i: nat, j: nat): nat
    requires i <= j <= |acts|
  {
    if i == j then 0 else Fetches(acts, i, j - 1) + (if acts[j - 1].Poll? then 1 else 0)
  }

  /** After cancellation at most one more job is fetched, and none unless the cancellation found
      the dispatcher past its check. */
  lemma {:induction false} OneLastFetch(start: Server, acts: seq<Act>, c: nat, j: nat)
    requires Run(start, acts) && c <= j <= |acts| && At(start, acts, c).srv.cancelled
    ensures Fetches(acts, c, j) <= Polls(acts, c, j) <= PollsLeft(At(start, acts, c).srv.disp)
    ensures Fetches(acts, c, j) == 0 ==> At(start, acts, j).srv.taken == At(start, acts, c).srv.taken
    decreases j
  {
    OneLastPoll(start, acts, c, j);
    if c < j {
      OneLastFetch(start, acts, c, j - 1);
      ActAt(start, acts, j - 1);
    }
  }

  /** A server can fetch a job next, cancelled or not, if and only if its dispatcher is past the
      check and the queue whose turn it is has one. */
  lemma CanFetchIff(world: World)
    ensures (exists e :: Possible(world, Poll(e))) <==>
            && world.srv.disp == Ready && world.srv.schedule != []
            && List(world.core.store.queues, PollAt(world.srv.schedule, world.srv.idx)) != []
  {
    if world.srv.disp == Ready && world.srv.schedule != [] {
      var q := PollAt(world.srv.schedule, world.srv.idx);
      var list := List(world.core.store.queues, q);
      if list != [] {
        assert Possible(world, Poll(Pop(world.core.next, q, list[|list| - 1], 0)));
      }
    }
  }

  const LATE: Job := Job("x", "q", "t", "", 0, 0, 0, 0, 0, 3, "", "", StatusPending)
  const SMALL: Server := NewServer(1, 0, [QueueConfig("q", 1)])

  lemma ReadyWithJob()
    ensures Run(SMALL, [Other(Enqueue(LATE, 0)), Check])
    ensures var world := After(SMALL, [Other(Enqueue(LATE, 0)), Check]);
            world.srv == SMALL.(disp := Ready) && List(world.core.store.queues, "q") == ["x"] && world.core.next == 0
            && world.core.store.active == map[]
  {
    var a, b := Other(Enqueue(LATE, 0)), Check;
    assert SMALL.schedule == ["q"] by { assert Repeat("q", 1) == Repeat("q", 0) + ["q"]; }
    OneMore(SMALL, [], a);
    assert [] + [a] == [a] && [a] + [b] == [a, b];
    OneMore(SMALL, [a], b);
  }

  /** A job is fetched after cancellation: the fourth action pops it, the third was the Cancel. */
  lemma FetchedAfterCancel() returns (acts: seq<Act>)
    ensures Run(SMALL, acts) && |acts| == 4 && acts[2] == Cancel && acts[3].Poll?
    ensures At(SMALL, acts, 3).srv.cancelled && "x" !in At(SMALL, acts, 3).core.store.active
    ensures "x" in After(SMALL, acts).core.store.active && After(SMALL, acts).srv.taken == map[0 := "x"]
  {
    var ready := [Other(Enqueue(LATE, 0)), Check];
    var poll := Poll(Pop(0, "q", "x", 30));
    ReadyWithJob();
    OneMore(SMALL, ready, Cancel);
    assert SMALL.schedule == ["q"] by { assert Repeat("q", 1) == Repeat("q", 0) + ["q"]; }
    OneMore(SMALL, ready + [Cancel], poll);
    acts := ready + [Cancel] + [poll];
    assert acts[..3] == ready + [Cancel];
  }

  // ---------- what is still begun ----------

  /** The jobs that workers begin. */
  function Begun(acts: seq<Act>, i: nat, j: nat): nat
    requires i <= j <= |acts|
  {
    if i == j then 0 else Begun(acts, i, j - 1) + (if acts[j - 1].TakeJob? || acts[j - 1].HandOff? then 1 else 0)
  }

  /** What a cancelled server has or may still get for its workers. */
  function Backlog(srv: Server): nat {
    |srv.buffer| + (if srv.disp.Ready? || srv.disp.Fetching? || srv.disp.Submitting? then 1 else 0)
  }

  lemma BacklogStep(world: World, a: Act)
    requires Possible(world, a) && world.srv.cancelled
    ensures Do(world, a).srv.cancelled
    ensures Backlog(Do(world, a).srv) + (if a.TakeJob? || a.HandOff? then 1 else 0) <= Backlog(world.srv)
  {
  }

  lemma {:induction false} BacklogShrinks(start: Server, acts: seq<Act>, c: nat, j: nat)
    requires Run(start, acts) && c <= j <= |acts| && At(start, acts, c).srv.cancelled
    ensures At(start, acts, j).srv.cancelled
    ensures Begun(acts, c, j) + Backlog(At(start, acts, j).srv) <= Backlog(At(start, acts, c).srv)
    decreases j
  {
    if c < j {
      BacklogShrinks(start, acts, c, j - 1);
      ActAt(start, acts, j - 1);
      BacklogStep(At(start, acts, j - 1), acts[j - 1]);
    }
  }

  /** After cancellation the workers begin at most what is in the buffer and one job more: never
      more than BufferSize + 1. */
  lemma BegunAfterCancel(start: Server, acts: seq<Act>, c: nat, j: nat)
    requires Fresh(start) && Run(start, acts) && c <= j <= |acts| && At(start, acts, c).srv.cancelled
    ensures Begun(acts, c, j) <= |At(start, acts, c).srv.buffer| + 1 <= start.capacity + 1
  {
    BacklogShrinks(start, acts, c, j);
    RunPrefix(start, acts, c);
    RunOk(start, acts[..c]);
  }

  // ---------- the next step ----------

  /** The dispatcher polls only with a schedule, and a worker's job has been read. */
  ghost predicate Routine(world: World) {
    && (world.srv.disp == Ready ==> world.srv.schedule != [])
    && forall w | 0 <= w < |world.srv.workers| :: Reading(world.core, world.srv.workers[w])
  }

  predicate Reading(s: State, worker: Worker) {
    worker.Busy? && worker.tok in s.calls ==> !s.calls[worker.tok].Popping?
  }

  lemma WorkerRoutine(world: World, a: Act, w: nat)
    requires SlotsOk(world) && PassOk(world) && Possible(world, a) && Routine(world) && w < |Local(world, a).workers|
    ensures Reading(Do(world, a).core, Local(world, a).workers[w])
  {
    var worker := Local(world, a).workers[w];
    if worker.Busy? {
      SlotOrigin(world, a, InWorker(w), worker.tok);
      var from := Came(world, a, InWorker(w));
      assert Holds(world.srv, from, worker.tok);
      if Advances(a, worker.tok) {
        AdvancesWhere(world, a, from, worker.tok);
      } else {
        CallKept(world, a, worker.tok);
        assert from == InWorker(w) ==> Reading(world.core, world.srv.workers[w]);
      }
    }
  }

  lemma {:induction false} RunRoutine(start: Server, acts: seq<Act>)
    requires Fresh(start) && Run(start, acts)
    ensures Routine(After(start, acts))
  {
    if acts != [] {
      var world, a := After(start, Front(acts)), Last(acts);
      RunRoutine(start, Front(acts));
      RunOk(start, Front(acts));
      forall w | 0 <= w < |Local(world, a).workers| ensures Reading(Do(world, a).core, Local(world, a).workers[w]) {
        WorkerRoutine(world, a, w);
      }
    }
  }

  /** The action is the server's own, and not a broker call that failed: a pass runs to its end,
      and a call is only dropped where Submit gives up its job to the cancellation. */
  ghost predicate Clean(world: World, a: Act) {
    && !a.Other? && !a.Cancel? && !a.PollError? && !a.FetchError? && (a.Work? ==> !a.e.Drop?)
    && (a.PassStop? ==> a.e.PassEnd? && PassDone(world.core, a.e.tok))
  }

  lemma {:induction false} Lowest(z: map<Id, Time>, among: set<Id>) returns (id: Id)
    requires among != {} && among <= z.Keys
    ensures id in among && forall i | i in among :: z[id] <= z[i]
    decreases |among|
  {
    id :| id in among;
    if among != {id} {
      var other := Lowest(z, among - {id});
      if z[other] < z[id] {
        id := other;
      }
    }
  }

  lemma {:induction false} Sorted(z: map<Id, Time>, among: set<Id>) returns (ids: seq<Id>)
    requires among <= z.Keys
    ensures forall id :: id in ids <==> id in among
    ensures forall i | 0 <= i < |ids| :: ids[i] in z
    ensures forall i, j | 0 <= i < j < |ids| :: ids[i] != ids[j] && z[ids[i]] <= z[ids[j]]
    decreases |among|
  {
    if among == {} {
      ids := [];
    } else {
      var id := Lowest(z, among);
      var rest := Sorted(z, among - {id});
      ids := [id] + rest;
      assert forall i | 0 < i < |ids| :: ids[i] == rest[i - 1] && ids[i] in rest;
    }
  }

  /** ZRANGEBYSCORE always has an answer. */
  lemma RangeExists(z: map<Id, Time>, max: Time) returns (ids: seq<Id>)
    ensures IsRangeByScore(z, max, ids)
  {
    ids := Sorted(z, set id | id in z && z[id] <= max);
    assert forall i | 0 <= i < |ids| :: ids[i] in ids;
  }

  // ---------- what is left to do ----------

  function DispRank(d: Disp): nat {
    match d
    case Ready => 4
    case Fetching(_) => 3
    case Submitting(_) => 2
    case AtTop => 1
    case Stopped => 0
  }

  function SchedRank(s: Sched): nat {
    match s
    case Passing(_) => 2
    case Waiting => 1
    case Halted => 0
  }

  function PassCall(world: World): Option<Call> {
    if world.srv.sched.Passing? && world.srv.sched.tok in world.core.calls
    then Some(world.core.calls[world.srv.sched.tok]) else None
  }

  function SourcesLeft(world: World): nat {
    var c := PassCall(world);
    if c.Some? && c.value.Promoting? then |c.value.rest| else 0
  }

  function ListedLeft(world: World): nat {
    var c := PassCall(world);
    if c.Some? && c.value.Promoting? then |c.value.due| else 0
  }

  function WorkerRank(calls: map<Token, Call>, worker: Worker): nat {
    match worker
    case Exited => 0
    case Idle => 1
    case Busy(tok) => if tok !in calls then 2 else if calls[tok].Acking? then 3 else 4
  }

  function WorkLeft(calls: map<Token, Call>, workers: seq<Worker>): nat {
    if workers == [] then 0 else WorkLeft(calls, Front(workers)) + WorkerRank(calls, Last(workers))
  }

  lemma {:induction false} WorkSame(calls: map<Token, Call>, calls': map<Token, Call>, a: seq<Worker>, b: seq<Worker>)
    requires |a| == |b| && forall i | 0 <= i < |a| :: WorkerRank(calls, a[i]) == WorkerRank(calls', b[i])
    ensures WorkLeft(calls, a) == WorkLeft(calls', b)
  {
    if a != [] {
      WorkSame(calls, calls', Front(a), Front(b));
    }
  }

  /** One worker gets on, the others are where they were. */
  lemma {:induction false} WorkDrops(calls: map<Token, Call>, calls': map<Token, Call>, a: seq<Worker>,
                                     b: seq<Worker>, w: nat)
    requires |a| == |b| && w < |a| && WorkerRank(calls', b[w]) < WorkerRank(calls, a[w])
    requires forall i | 0 <= i < |a| && i != w :: WorkerRank(calls, a[i]) == WorkerRank(calls', b[i])
    ensures WorkLeft(calls', b) < WorkLeft(calls, a)
  {
    if w == |a| - 1 {
      WorkSame(calls, calls', Front(a), Front(b));
    } else {
      WorkDrops(calls, calls', Front(a), Front(b), w);
    }
  }

  /** Less is left to do: the dispatcher first, then the pass, then the workers. */
  ghost predicate Less(after: World, before: World) {
    var x, y := after.srv, before.srv;
    || DispRank(x.disp) < DispRank(y.disp)
    || (DispRank(x.disp) == DispRank(y.disp) && SchedLess(after, before))
    || (DispRank(x.disp) == DispRank(y.disp) == 0 && SchedRank(x.sched) == SchedRank(y.sched) == 0
        && WorkLeft(after.core.calls, x.workers) < WorkLeft(before.core.calls, y.workers))
  }

  predicate SchedLess(after: World, before: World) {
    var x, y := after.srv, before.srv;
    || SchedRank(x.sched) < SchedRank(y.sched)
    || (SchedRank(x.sched) == SchedRank(y.sched) && SourcesLeft(after) < SourcesLeft(before))
    || (SchedRank(x.sched) == SchedRank(y.sched) && SourcesLeft(after) == SourcesLeft(before)
        && ListedLeft(after) < ListedLeft(before))
  }

  lemma FetchNext(world: World, l: Ledger, tok: Token) returns (a: Act)
    requires Coupled(world.core, l) && world.srv.disp == Fetching(tok)
    requires tok in world.core.calls && world.core.calls[tok].Popping?
    ensures Possible(world, a) && Clean(world, a) && Local(world, a).disp == Submitting(tok)
  {
    var id := world.core.calls[tok].id;
    assert CallOk(l, world.core.clock, world.core.calls[tok]) && KeptAt(world.core.store, id, l[id]);
    a := Fetch(Read(tok, id));
  }

  lemma PollNext(world: World) returns (a: Act)
    requires world.srv.disp == Ready && world.srv.schedule != []
    ensures Possible(world, a) && Clean(world, a) && (Local(world, a).disp.Fetching? || Local(world, a).disp == AtTop)
  {
    var q := PollAt(world.srv.schedule, world.srv.idx);
    var list := List(world.core.store.queues, q);
    a := if list == [] then PollEmpty else Poll(Pop(world.core.next, q, list[|list| - 1], 0));
  }

  lemma DispatcherNext(world: World, l: Ledger) returns (a: Act)
    requires WorldOk(world, l) && Routine(world) && world.srv.cancelled && world.srv.disp != Stopped
    ensures Possible(world, a) && Clean(world, a) && DispRank(Local(world, a).disp) < DispRank(world.srv.disp)
  {
    match world.srv.disp
    case AtTop => a := Check;
    case Ready => a := PollNext(world);
    case Fetching(tok) => a := FetchNext(world, l, tok);
    case Submitting(tok) => a := SubmitCancelled(Drop(tok));
  }

  /** The next step of a pass that is not over. */
  lemma PassNext(world: World) returns (a: Act)
    requires PassOk(world) && world.srv.sched.Passing? && !PassDone(world.core, world.srv.sched.tok)
    ensures Possible(world, a) && Clean(world, a) && Local(world, a) == world.srv && SchedLess(Do(world, a), world)
  {
    var tok := world.srv.sched.tok;
    var c := world.core.calls[tok];
    if c.due != [] {
      a := PassStep(Promote(tok, c.src, c.due[0], PromoteScript(world.core.store, c.src, c.due[0]).1));
    } else {
      var ids := RangeExists(Members(world.core.store, c.rest[0]), c.now);
      a := PassStep(Scan(tok, ids));
    }
  }

  lemma SchedulerNext(world: World) returns (a: Act)
    requires PassOk(world) && world.srv.cancelled && world.srv.sched != Halted
    ensures Possible(world, a) && Clean(world, a)
    ensures Local(world, a).disp == world.srv.disp && SchedLess(Do(world, a), world)
  {
    if world.srv.sched == Waiting {
      a := StopScheduler;
    } else if PassDone(world.core, world.srv.sched.tok) {
      a := PassStop(PassEnd(world.srv.sched.tok, world.core.calls[world.srv.sched.tok].count), false);
    } else {
      a := PassNext(world);
    }
  }

  predicate InHand(c: Call) {
    c.Holding? || c.Requeuing? || c.Burying? || c.Acking?
  }

  lemma WorkerInHand(world: World, l: Ledger, w: nat)
    requires WorldOk(world, l) && Routine(world) && w < |world.srv.workers| && world.srv.workers[w].Busy?
    requires world.srv.workers[w].tok in world.core.calls
    ensures InHand(world.core.calls[world.srv.workers[w].tok])
  {
    var tok := world.srv.workers[w].tok;
    assert Holds(world.srv, InWorker(w), tok);
    assert DeliveryOk(world.core, l, tok, world.srv.taken[tok], tok in world.srv.settled);
    assert Reading(world.core, world.srv.workers[w]);
  }

  /** The next step of a worker with a job in its hands. */
  lemma CallNext(s: State, tok: Token) returns (e: Event)
    requires tok in s.calls && InHand(s.calls[tok])
    ensures Enabled(s, e) && WorkStep(e) && !e.Drop? && e.tok == tok
    ensures var calls := Apply(s, e).calls;
            && WorkerRank(calls, Busy(tok)) < WorkerRank(s.calls, Busy(tok))
            && forall t | t != tok :: (t in calls <==> t in s.calls) && (t in calls ==> calls[t] == s.calls[t])
  {
    match s.calls[tok]
    case Holding(job) => e := Release(tok, job.id);
    case Requeuing(job, at) => e := Requeue(tok, job, at);
    case Burying(job) => e := Bury(tok, job);
    case Acking(id) => e := Forget(tok, id);
  }

  /** The server is as before but for the workers, of whose work less is left. */
  ghost predicate WorkGoesOn(world: World, a: Act)
    requires Possible(world, a)
  {
    && Local(world, a).disp == world.srv.disp && Local(world, a).sched == world.srv.sched
    && WorkLeft(Do(world, a).core.calls, Local(world, a).workers) < WorkLeft(world.core.calls, world.srv.workers)
  }

  lemma IdleNext(world: World, w: nat) returns (a: Act)
    requires world.srv.cancelled && w < |world.srv.workers|
    requires world.srv.workers[w] == Idle
             || (world.srv.workers[w].Busy? && world.srv.workers[w].tok !in world.core.calls)
    ensures Possible(world, a) && Clean(world, a) && WorkGoesOn(world, a)
  {
    a := if world.srv.workers[w] == Idle then StopWorker(w) else WorkDone(w);
    WorkDrops(world.core.calls, world.core.calls, world.srv.workers, Local(world, a).workers, w);
  }

  lemma BusyNext(world: World, w: nat) returns (a: Act)
    requires SlotsOk(world) && w < |world.srv.workers| && world.srv.workers[w].Busy?
    requires world.srv.workers[w].tok in world.core.calls && InHand(world.core.calls[world.srv.workers[w].tok])
    ensures Possible(world, a) && Clean(world, a) && WorkGoesOn(world, a)
  {
    var workers, tok := world.srv.workers, world.srv.workers[w].tok;
    var e := CallNext(world.core, tok);
    var calls, calls' := world.core.calls, Apply(world.core, e).calls;
    forall i | 0 <= i < |workers| && i != w ensures WorkerRank(calls, workers[i]) == WorkerRank(calls', workers[i]) {
      OtherTokens(world, i, w);
    }
    WorkDrops(calls, calls', workers, workers, w);
    a := Work(w, e);
  }

  lemma WorkerNext(world: World, l: Ledger, w: nat) returns (a: Act)
    requires WorldOk(world, l) && Routine(world) && world.srv.cancelled && w < |world.srv.workers|
    requires world.srv.workers[w] != Exited
    ensures Possible(world, a) && Clean(world, a) && WorkGoesOn(world, a)
  {
    if world.srv.workers[w].Busy? && world.srv.workers[w].tok in world.core.calls {
      WorkerInHand(world, l, w);
      a := BusyNext(world, w);
    } else {
      a := IdleNext(world, w);
    }
  }

  lemma OtherTokens(world: World, i: nat, w: nat)
    requires SlotsOk(world) && i < |world.srv.workers| && w < |world.srv.workers| && i != w
    ensures world.srv.workers[i].Busy? && world.srv.workers[w].Busy? ==>
              world.srv.workers[i].tok != world.srv.workers[w].tok
  {
    if world.srv.workers[i].Busy? && world.srv.workers[w].Busy? {
      assert Holds(world.srv, InWorker(i), world.srv.workers[i].tok)
             && Holds(world.srv, InWorker(w), world.srv.workers[w].tok);
    }
  }

  lemma ServerNext(world: World, l: Ledger) returns (a: Act)
    requires WorldOk(world, l) && Routine(world) && world.srv.cancelled && !world.srv.closed
    ensures Possible(world, a) && Clean(world, a) && (a.Close? || Less(Do(world, a), world))
  {
    if world.srv.disp != Stopped {
      a := DispatcherNext(world, l);
    } else if world.srv.sched != Halted {
      a := SchedulerNext(world);
    } else if w :| 0 <= w < |world.srv.workers| && world.srv.workers[w] != Exited {
      a := WorkerNext(world, l, w);
    } else {
      a := Close;
    }
  }

  /** Run has no deadlock between cancellation and Close: in every such state the server itself has
      a step to make, without any broker call failing, and with it less is left to do. */
  lemma ShutdownNeverStuck(start: Server, acts: seq<Act>) returns (a: Act)
    requires Fresh(start) && Run(start, acts)
    requires After(start, acts).srv.cancelled && !After(start, acts).srv.closed
    ensures Possible(After(start, acts), a) && Clean(After(start, acts), a)
    ensures a.Close? || Less(Do(After(start, acts), a), After(start, acts))
  {
    RunOk(start, acts);
    RunRoutine(start, acts);
    a := ServerNext(After(start, acts), History(Steps(acts)));
  }

  lemma OneMore(start: Server, acts: seq<Act>, a: Act)
    requires Run(start, acts) && Possible(After(start, acts), a)
    ensures Run(start, acts + [a]) && After(start, acts + [a]) == Do(After(start, acts), a)
  {
    assert Front(acts + [a]) == acts && Last(acts + [a]) == a;
  }

  /** Shutdown can always be completed: from every state after cancellation the server reaches
      Close by its own steps alone, whatever others have done before and with no call failing. */
  lemma {:induction false} ShutdownCanFinish(start: Server, acts: seq<Act>) returns (all: seq<Act>)
    requires Fresh(start) && Run(start, acts) && After(start, acts).srv.cancelled
    ensures acts <= all && Run(start, all) && After(start, all).srv.closed
    ensures forall k | |acts| <= k < |all| :: Clean(At(start, all, k), all[k])
    decreases DispRank(After(start, acts).srv.disp), SchedRank(After(start, acts).srv.sched),
              SourcesLeft(After(start, acts)),
              ListedLeft(After(start, acts)), WorkLeft(After(start, acts).core.calls, After(start, acts).srv.workers),
              if After(start, acts).srv.closed then 0 else 1
  {
    if After(start, acts).srv.closed {
      all := acts;
    } else {
      var a := ShutdownNeverStuck(start, acts);
      OneMore(start, acts, a);
      all := ShutdownCanFinish(start, acts + [a]);
      assert all[..|acts|] == acts && all[|acts|] == a;
    }
  }
}
