/** No starvation: a queued job is delivered within a bounded number of polls of any server that
    serves its queue, whatever is pushed meanwhile and whichever polls fail. */
module BoundedWait {
  import opened Jobs
  import opened RedisStore
  import opened Lifecycle
  import opened Flows
  import opened Dispatcher
  import opened Server
  import opened Shutdown

  /** The job has p others ahead of it on the list, counted from the pop end. */
  predicate AheadOf(l: seq<Id>, id: Id, p: nat) {
    p < |l| && l[|l| - 1 - p] == id
  }

  predicate Pops(a: Act, q: Queue) {
    CoreOf(a).Some? && CoreOf(a).value.Pop? && CoreOf(a).value.queue == q
  }

  predicate PopsJob(a: Act, id: Id) {
    CoreOf(a).Some? && CoreOf(a).value.Pop? && CoreOf(a).value.id == id
  }

  /** One change of a list: pushes never put anything ahead of a job, pops bring it nearer. */
  lemma NearerOnList(before: seq<Id>, after: seq<Id>, pushed: seq<Id>, e: Event, q: Queue, id: Id, p: nat)
    requires QueueChange(before, after, pushed, e, q) && AheadOf(before, id, p)
    requires !(e.Pop? && e.id == id)
    ensures e.Pop? && e.queue == q ==> p > 0 && AheadOf(after, id, p - 1)
    ensures !(e.Pop? && e.queue == q) ==> AheadOf(after, id, p)
  {
  }

  lemma Nearer(world: World, l: Ledger, a: Act, q: Queue, id: Id, p: nat)
    requires Coupled(world.core, l) && Possible(world, a) && AheadOf(List(world.core.store.queues, q), id, p)
    requires !PopsJob(a, id)
    ensures Pops(a, q) ==> p > 0 && AheadOf(List(Do(world, a).core.store.queues, q), id, p - 1)
    ensures !Pops(a, q) ==> AheadOf(List(Do(world, a).core.store.queues, q), id, p)
  {
    if CoreOf(a).Some? {
      var e := CoreOf(a).value;
      var before, after := List(world.core.store.queues, q), List(Do(world, a).core.store.queues, q);
      assert QueueChange(before, after, PushOn(l, e, q), e, q) by { QueueStep(world.core, l, e, q); }
      NearerOnList(before, after, PushOn(l, e, q), e, q, id, p);
    }
  }

  lemma AtOk(start: Server, acts: seq<Act>, k: nat)
    requires Fresh(start) && Run(start, acts) && k <= |acts|
    ensures Coupled(At(start, acts, k).core, History(Steps(acts[..k])))
    ensures At(start, acts, k).srv.schedule == start.schedule
  {
    RunPrefix(start, acts, k);
    RunOk(start, acts[..k]);
  }

  /** The queue's turn is lost: its poll failed, and the index went on. */
  predicate Missed(srv: Server, a: Act, q: Queue) {
    a.PollError? && srv.schedule != [] && PollAt(srv.schedule, srv.idx) == q
  }

  /** How many turns of the queue were lost to failed polls. */
  ghost function Misses(start: Server, acts: seq<Act>, i: nat, j: nat, q: Queue): nat
    requires Run(start, acts) && i <= j <= |acts|
  {
    if i == j then 0
    else Misses(start, acts, i, j - 1, q) + (if Missed(At(start, acts, j - 1).srv, acts[j - 1], q) then 1 else 0)
  }

  /** A poll that visits the queue and does not fail pops from it, since the job is on its list. */
  lemma VisitStep(world: World, a: Act, q: Queue, id: Id, d: nat)
    requires Possible(world, a) && world.srv.schedule != []
    requires AheadOf(List(world.core.store.queues, q), id, d)
    ensures Do(world, a).srv.idx == world.srv.idx + (if IsPoll(a) then 1 else 0)
    ensures Do(world, a).srv.schedule == world.srv.schedule
    ensures IsPoll(a) && PollAt(world.srv.schedule, world.srv.idx) == q ==> Pops(a, q) || Missed(world.srv, a, q)
  {
  }

  /** n polls after index `idx` the job is still queued, and every visit has brought it nearer
      but for those that were missed. */
  ghost predicate OnItsWay(world: World, schedule: seq<Queue>, idx: nat, n: nat, q: Queue, id: Id, p: nat)
    requires schedule != []
  {
    && world.srv.schedule == schedule && world.srv.idx == idx + n
    && exists d: nat :: d + Visits(schedule, idx, n, q) <= p && AheadOf(List(world.core.store.queues, q), id, d)
  }

  lemma SetsOut(world: World, schedule: seq<Queue>, q: Queue, id: Id, p: nat)
    requires schedule != [] && world.srv.schedule == schedule && AheadOf(List(world.core.store.queues, q), id, p)
    ensures OnItsWay(world, schedule, world.srv.idx, 0, q, id, p)
  {
    assert p + Visits(schedule, world.srv.idx, 0, q) <= p;
  }

  lemma OnItsWayStep(world: World, l: Ledger, a: Act, schedule: seq<Queue>, idx: nat, n: nat, q: Queue, id: Id, p: nat)
    requires Coupled(world.core, l) && Possible(world, a) && !PopsJob(a, id)
    requires schedule != [] && OnItsWay(world, schedule, idx, n, q, id, p)
    ensures OnItsWay(Do(world, a), schedule, idx, n + (if IsPoll(a) then 1 else 0), q, id,
                     p + (if Missed(world.srv, a, q) then 1 else 0))
  {
    var d: nat :| d + Visits(schedule, idx, n, q) <= p && AheadOf(List(world.core.store.queues, q), id, d);
    Nearer(world, l, a, q, id, d);
    VisitStep(world, a, q, id, d);
    var d' := if Pops(a, q) then d - 1 else d;
    assert AheadOf(List(Do(world, a).core.store.queues, q), id, d');
  }

  lemma ApproachStep(start: Server, acts: seq<Act>, k: nat, schedule: seq<Queue>, idx: nat, n: nat, q: Queue,
                     id: Id, p: nat)
    requires Fresh(start) && Run(start, acts) && k < |acts| && schedule != [] && !PopsJob(acts[k], id)
    requires OnItsWay(At(start, acts, k), schedule, idx, n, q, id, p)
    ensures OnItsWay(At(start, acts, k + 1), schedule, idx, n + (if IsPoll(acts[k]) then 1 else 0), q, id,
                     p + (if Missed(At(start, acts, k).srv, acts[k], q) then 1 else 0))
  {
    ActAt(start, acts, k);
    AtOk(start, acts, k);
    OnItsWayStep(At(start, acts, k), History(Steps(acts[..k])), acts[k], schedule, idx, n, q, id, p);
  }

  /** In a stretch of a run without a pop of the job, the server's poll index advances with its
      polls, and each visit of the queue that is not missed brings the job nearer. */
  lemma {:induction false} Approaches(start: Server, acts: seq<Act>, i: nat, j: nat, q: Queue, id: Id, p: nat)
    requires Fresh(start) && Run(start, acts) && i <= j <= |acts| && start.schedule != []
    requires AheadOf(List(At(start, acts, i).core.store.queues, q), id, p)
    requires forall k | i <= k < j :: !PopsJob(acts[k], id)
    ensures OnItsWay(At(start, acts, j), start.schedule, At(start, acts, i).srv.idx, Polls(acts, i, j), q, id,
                     p + Misses(start, acts, i, j, q))
    decreases j
  {
    if i == j {
      assert At(start, acts, i).srv.schedule == start.schedule by { AtOk(start, acts, i); }
      SetsOut(At(start, acts, i), start.schedule, q, id, p);
    } else {
      Approaches(start, acts, i, j - 1, q, id, p);
      ApproachStep(start, acts, j - 1, start.schedule, At(start, acts, i).srv.idx, Polls(acts, i, j - 1), q, id,
                   p + Misses(start, acts, i, j - 1, q));
    }
  }

  /** A job is popped once its queue has been visited, and not missed, more often than it has
      jobs ahead. */
  lemma VisitedOften(start: Server, acts: seq<Act>, i: nat, j: nat, q: Queue, id: Id, p: nat)
    requires Fresh(start) && Run(start, acts) && i <= j <= |acts| && start.schedule != []
    requires AheadOf(List(At(start, acts, i).core.store.queues, q), id, p)
    requires Visits(start.schedule, At(start, acts, i).srv.idx, Polls(acts, i, j), q) > p + Misses(start, acts, i, j, q)
    ensures exists k :: i <= k < j && PopsJob(acts[k], id)
  {
    if forall k | i <= k < j :: !PopsJob(acts[k], id) {
      Approaches(start, acts, i, j, q, id, p);
      assert false;
    }
  }

  /** Bounded wait: a job with p others ahead of it in a queue of weight w > 0, of whose turns f
      are lost to failed polls, is popped within ((p + f) / w + 1) * L polls of the server, L
      being the length of its schedule, whatever is pushed and whoever else polls meanwhile. */
  lemma PoppedInTime(start: Server, acts: seq<Act>, i: nat, j: nat, q: Queue, id: Id, p: nat)
    requires Fresh(start) && Run(start, acts) && i <= j <= |acts|
    requires Count(start.schedule, q) > 0 && start.schedule != []
    requires AheadOf(List(At(start, acts, i).core.store.queues, q), id, p)
    requires Polls(acts, i, j) >= ((p + Misses(start, acts, i, j, q)) / Count(start.schedule, q) + 1) * |start.schedule|
    ensures exists k :: i <= k < j && PopsJob(acts[k], id)
  {
    EnoughVisits(start.schedule, At(start, acts, i).srv.idx, p + Misses(start, acts, i, j, q), Polls(acts, i, j), q);
    VisitedOften(start, acts, i, j, q, id, p);
  }

  function Errors(acts: seq<Act>, i: nat, j: nat): nat
    requires i <= j <= |acts|
  {
    if i == j then 0 else Errors(acts, i, j - 1) + (if acts[j - 1].PollError? then 1 else 0)
  }

  lemma {:induction false} MissesAreErrors(start: Server, acts: seq<Act>, i: nat, j: nat, q: Queue)
    requires Run(start, acts) && i <= j <= |acts|
    ensures Misses(start, acts, i, j, q) <= Errors(acts, i, j)
    decreases j
  {
    if i < j {
      MissesAreErrors(start, acts, i, j - 1, q);
    }
  }

  /** The same bound with every failed poll counted, whosever turn it was; without failures it
      is (p / w + 1) * L. */
  lemma PoppedDespiteErrors(start: Server, acts: seq<Act>, i: nat, j: nat, q: Queue, id: Id, p: nat)
    requires Fresh(start) && Run(start, acts) && i <= j <= |acts|
    requires Count(start.schedule, q) > 0 && start.schedule != []
    requires AheadOf(List(At(start, acts, i).core.store.queues, q), id, p)
    requires Polls(acts, i, j) >= ((p + Errors(acts, i, j)) / Count(start.schedule, q) + 1) * |start.schedule|
    ensures exists k :: i <= k < j && PopsJob(acts[k], id)
  {
    EnoughVisits(start.schedule, At(start, acts, i).srv.idx, p + Errors(acts, i, j), Polls(acts, i, j), q);
    MissesAreErrors(start, acts, i, j, q);
    VisitedOften(start, acts, i, j, q, id, p);
  }
}
