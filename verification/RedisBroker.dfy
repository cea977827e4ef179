/** The methods of redisBroker, each run without interruption: a sequence of commands and
    scripts on the keys, proved against the script functions the protocol is built from. */
module RedisBroker {
  import opened Jobs
  import opened RedisStore
  import opened Lifecycle
  import opened Invariant
  import opened Conservation
  import opened Promotion
  import D = Deletion

  datatype Reply = NoJob | Delivered(job: Job) | RecordMissing(id: Id)

  /** Dequeue: the first listed queue with a job is popped, then the record is read. An empty
      ID would read as "no job" although it was popped. */
  function DequeueSpec(s: Store, queues: seq<Queue>, deadline: Time): (Store, Reply) {
    if queues == [] then (s, NoJob)
    else if List(s.queues, queues[0]) == [] then DequeueSpec(s, queues[1..], deadline)
    else
      var (t, id) := PopScript(s, queues[0], deadline);
      (t, ReplyFor(t, id.value))
  }

  /** What Dequeue answers once it has popped an ID. */
  function ReplyFor(s: Store, id: Id): Reply {
    if id == "" then NoJob else if id in s.jobs then Delivered(s.jobs[id]) else RecordMissing(id)
  }

  /** The first of the listed queues with a job in it is the k-th. */
  predicate FirstWithJob(m: map<Queue, seq<Id>>, queues: seq<Queue>, k: nat) {
    k < |queues| && List(m, queues[k]) != [] && forall i | 0 <= i < k :: List(m, queues[i]) == []
  }

  /** The ID was taken off the end of the queue's list and made active, and nothing else happened
      to queues and active set. */
  ghost predicate TakenFrom(queues: map<Queue, seq<Id>>, active: map<Id, Time>, q: Queue, id: Id, deadline: Time,
                            queues': map<Queue, seq<Id>>, active': map<Id, Time>) {
    && active' == active[id := deadline]
    && List(queues, q) == List(queues', q) + [id]
    && forall k | k != q :: List(queues', k) == List(queues, k)
  }

  /** Dequeue takes the last ID of the first queue that has one, answers with its record, and
      is idle only when all are empty. */
  lemma {:induction false} DequeueTakesFirst(s: Store, queues: seq<Queue>, deadline: Time)
    ensures (forall i | 0 <= i < |queues| :: List(s.queues, queues[i]) == []) ==>
              DequeueSpec(s, queues, deadline) == (s, NoJob)
    ensures forall k: nat | FirstWithJob(s.queues, queues, k) ::
              var id := Last(List(s.queues, queues[k]));
              var (t, r) := DequeueSpec(s, queues, deadline);
              && TakenFrom(s.queues, s.active, queues[k], id, deadline, t.queues, t.active)
              && t == s.(queues := t.queues, active := t.active)
              && (id != "" && id in s.jobs ==> r == Delivered(s.jobs[id]))
              && (id != "" && id !in s.jobs ==> r == RecordMissing(id))
  {
    forall k: nat | FirstWithJob(s.queues, queues, k)
      ensures var id := Last(List(s.queues, queues[k]));
              var (t, r) := DequeueSpec(s, queues, deadline);
              && TakenFrom(s.queues, s.active, queues[k], id, deadline, t.queues, t.active)
              && t == s.(queues := t.queues, active := t.active)
              && (id != "" && id in s.jobs ==> r == Delivered(s.jobs[id]))
              && (id != "" && id !in s.jobs ==> r == RecordMissing(id))
    {
      FirstIsPopped(s, queues, deadline, k);
      PopTakes(s, queues[k], deadline);
    }
    if forall i | 0 <= i < |queues| :: List(s.queues, queues[i]) == [] {
      NothingPopped(s, queues, deadline);
    }
  }

  lemma PopTakes(s: Store, q: Queue, deadline: Time)
    requires List(s.queues, q) != []
    ensures var t := PopScript(s, q, deadline).0;
            && TakenFrom(s.queues, s.active, q, Last(List(s.queues, q)), deadline, t.queues, t.active)
            && t == s.(queues := t.queues, active := t.active)
  {
  }

  lemma {:induction false} FirstIsPopped(s: Store, queues: seq<Queue>, deadline: Time, k: nat)
    requires FirstWithJob(s.queues, queues, k)
    ensures DequeueSpec(s, queues, deadline)
         == (PopScript(s, queues[k], deadline).0, ReplyFor(s, Last(List(s.queues, queues[k]))))
  {
    if k > 0 {
      assert forall i | 0 <= i < k :: queues[1..][i] == queues[i + 1];
      FirstIsPopped(s, queues[1..], deadline, k - 1);
    }
  }

  lemma {:induction false} NothingPopped(s: Store, queues: seq<Queue>, deadline: Time)
    requires forall i | 0 <= i < |queues| :: List(s.queues, queues[i]) == []
    ensures DequeueSpec(s, queues, deadline) == (s, NoJob)
  {
    if queues != [] {
      NothingPopped(s, queues[1..], deadline);
    }
  }

  /** IDs handed to Enqueue are not empty, so neither are stored ones. */
  lemma IdNotEmpty(evs: seq<Event>, id: Id)
    requires Legal(evs) && id in History(evs)
    ensures id != ""
  {
    HistoryMeans(evs, id);
    var k :| 0 <= k < |evs| && evs[k].Enqueue? && evs[k].job.id == id;
    StepAt(evs, k);
  }

  /** In every reachable store Dequeue answers with a job exactly when some listed queue has one: the
      record of the ID longest on the first such queue, which names that ID and that queue. The
      job is active afterwards, and a Pop and a Read of the protocol put the same job in somebody's
      hands and leave the same store. */
  lemma DequeueDelivers(evs: seq<Event>, queues: seq<Queue>, deadline: Time, k: nat)
    requires Legal(evs) && FirstWithJob(Exec(evs).store.queues, queues, k)
    ensures var s, tok, id := Exec(evs).store, Exec(evs).next, Last(List(Exec(evs).store.queues, queues[k]));
            var (t, r) := DequeueSpec(s, queues, deadline);
            && id in s.jobs && s.jobs[id].id == id && s.jobs[id].queue == queues[k]
            && r == Delivered(s.jobs[id]) && id !in s.active && id in t.active && t.active[id] == deadline
            && var run := evs + [Pop(tok, queues[k], id, deadline)] + [Read(tok, id)];
            Legal(run) && Exec(run).store == t && Exec(run).calls == Exec(evs).calls[tok := Holding(s.jobs[id])]
  {
    var s, q := Exec(evs), queues[k];
    var id := Last(List(s.store.queues, q));
    QueuedIsWhole(evs, q, id);
    DequeueTakesFirst(s.store, queues, deadline);
    FirstIsPopped(s.store, queues, deadline, k);
    PopAndRead(evs, q, deadline);
  }

  /** A queued ID has a record that names it and the queue, and is not active. */
  lemma QueuedIsWhole(evs: seq<Event>, q: Queue, id: Id)
    requires Legal(evs) && id in List(Exec(evs).store.queues, q)
    ensures var s := Exec(evs).store;
            id != "" && id in s.jobs && s.jobs[id].id == id && s.jobs[id].queue == q && id !in s.active
  {
    var s, l := Exec(evs), History(evs);
    RunCoupled(evs);
    StoredAt(s.store, l, id, InQueue(q));
    StoredAt(s.store, l, id, InActive);
    assert KeptAt(s.store, id, l[id]) && EntryOk(id, l[id]);
    IdNotEmpty(evs, id);
  }

  lemma PopAndRead(evs: seq<Event>, q: Queue, deadline: Time)
    requires Legal(evs) && List(Exec(evs).store.queues, q) != []
    requires Last(List(Exec(evs).store.queues, q)) in Exec(evs).store.jobs
    ensures var s, tok, id := Exec(evs).store, Exec(evs).next, Last(List(Exec(evs).store.queues, q));
            var run := evs + [Pop(tok, q, id, deadline)] + [Read(tok, id)];
            && Legal(run) && Exec(run).store == PopScript(s, q, deadline).0
            && Exec(run).calls == Exec(evs).calls[tok := Holding(s.jobs[id])]
  {
    var s, id := Exec(evs), Last(List(Exec(evs).store.queues, q));
    var e, e' := Pop(s.next, q, id, deadline), Read(s.next, id);
    Extend(evs, e);
    Extend(evs + [e], e');
  }

  /** So in a reachable store "no job" means that every listed queue is empty. */
  lemma DequeueIdleIff(evs: seq<Event>, queues: seq<Queue>, deadline: Time)
    requires Legal(evs)
    ensures DequeueSpec(Exec(evs).store, queues, deadline).1 == NoJob
       <==> forall i | 0 <= i < |queues| :: List(Exec(evs).store.queues, queues[i]) == []
  {
    var m := Exec(evs).store.queues;
    if forall i | 0 <= i < |queues| :: List(m, queues[i]) == [] {
      NothingPopped(Exec(evs).store, queues, deadline);
    } else {
      var k := FirstOf(m, queues);
      DequeueDelivers(evs, queues, deadline, k);
    }
  }

  lemma {:induction false} FirstOf(m: map<Queue, seq<Id>>, queues: seq<Queue>) returns (k: nat)
    requires exists i :: 0 <= i < |queues| && List(m, queues[i]) != []
    ensures FirstWithJob(m, queues, k)
  {
    if List(m, queues[0]) != [] {
      k := 0;
    } else {
      var i :| 0 <= i < |queues| && List(m, queues[i]) != [];
      assert queues[1..][i - 1] == queues[i];
      var k' := FirstOf(m, queues[1..]);
      k := k' + 1;
      assert forall j | 0 <= j < k' :: queues[1..][j] == queues[j + 1];
    }
  }

  /** Deleting a record takes no ID from any place. */
  lemma ForgetMovesNothing(s: Store, t: Store, id: Id)
    requires Shifted(s, t, id, Some(InActive), None)
    ensures Shifted(s, ForgetCommand(t, id), id, Some(InActive), None)
  {
    forall i, loc
      ensures Occ(ForgetCommand(t, id), i, loc) + Hit(i, id, Some(InActive), loc) == Occ(s, i, loc)
                                                                                     + Hit(i, id, None, loc)
    {
      assert Occ(ForgetCommand(t, id), i, loc) == Occ(t, i, loc);
    }
  }

  datatype RetryReply = Retried | NotFound | NotDead

  class Broker {
    var jobs: map<Id, Job>
    var queues: map<Queue, seq<Id>>
    var scheduled: map<Id, Time>
    var retry: map<Queue, map<Id, Time>>
    var dead: map<Queue, seq<Id>>
    var active: map<Id, Time>

    function Contents(): Store
      reads this
    {
      Store(jobs, queues, scheduled, retry, dead, active)
    }

    constructor ()
      ensures Contents() == EMPTY
    {
      jobs, queues, scheduled, retry, dead, active := map[], map[], map[], map[], map[], map[];
    }

    method Enqueue(job: Job, now: Time)
      modifies this
      ensures Contents() == EnqueueScript(old(Contents()), job, now)
      ensures jobs == old(jobs)[job.id := job]
      ensures job.processAt <= now ==> AtHead(old(queues), queues, job.queue, job.id) && scheduled == old(scheduled)
      ensures job.processAt > now ==> queues == old(queues) && scheduled == old(scheduled)[job.id := job.processAt]
      ensures retry == old(retry) && dead == old(dead) && active == old(active)
      ensures job.processAt <= now || job.id !in old(scheduled) ==>
                Shifted(old(Contents()), Contents(), job.id, None,
                        Some(if job.processAt <= now then InQueue(job.queue) else InScheduled))
    {
      if job.processAt <= now || job.id !in scheduled {
        EnqueueShifts(Contents(), job, now);
      }
      jobs := jobs[job.id := job];
      if job.processAt <= now {
        queues := LPush(queues, job.queue, job.id);
      } else {
        scheduled := scheduled[job.id := job.processAt];
      }
    }

    /** rpopZaddScript on one queue. */
    method PopOne(q: Queue, deadline: Time) returns (id: Option<Id>)
      modifies this`queues, this`active
      ensures (Contents(), id) == PopScript(old(Contents()), q, deadline)
      ensures id.None? <==> List(old(queues), q) == []
      ensures id.None? ==> queues == old(queues) && active == old(active)
      ensures id.Some? ==> TakenFrom(old(queues), old(active), q, id.value, deadline, queues, active)
      ensures id.Some? && id.value !in old(active) ==>
                Shifted(old(Contents()), Contents(), id.value, Some(InQueue(q)), Some(InActive))
    {
      var l := List(queues, q);
      if l == [] {
        return None;
      }
      id := Some(l[|l| - 1]);
      if id.value !in active {
        PopShifts(Contents(), q, deadline);
      }
      queues := Put(queues, q, l[..|l| - 1], []);
      active := active[id.value := deadline];
    }

    method Dequeue(qs: seq<Queue>, deadline: Time) returns (r: Reply)
      modifies this`queues, this`active
      ensures (Contents(), r) == DequeueSpec(old(Contents()), qs, deadline)
      ensures (forall i | 0 <= i < |qs| :: List(old(queues), qs[i]) == []) ==>
                r == NoJob && queues == old(queues) && active == old(active)
      ensures forall k: nat | FirstWithJob(old(queues), qs, k) ::
                var id := Last(List(old(queues), qs[k]));
                && TakenFrom(old(queues), old(active), qs[k], id, deadline, queues, active)
                && (id != "" && id in jobs ==> r == Delivered(jobs[id]))
                && (id != "" && id !in jobs ==> r == RecordMissing(id))
    {
      DequeueTakesFirst(Contents(), qs, deadline);
      var i := 0;
      while i < |qs|
        invariant 0 <= i <= |qs|
        invariant Contents() == old(Contents())
        invariant DequeueSpec(Contents(), qs, deadline) == DequeueSpec(Contents(), qs[i..], deadline)
      {
        assert qs[i..][1..] == qs[i + 1..];
        var id := PopOne(qs[i], deadline);
        if id.Some? {
          if id.value == "" {
            return NoJob;
          } else if id.value in jobs {
            return Delivered(jobs[id.value]);
          } else {
            return RecordMissing(id.value);
          }
        }
        i := i + 1;
      }
      r := NoJob;
    }

    method Acknowledge(id: Id)
      modifies this`active, this`jobs
      ensures Contents() == ForgetCommand(ReleaseCommand(old(Contents()), id), id)
      ensures active == old(active) - {id}
      ensures id !in jobs && forall i | i != id :: (i in jobs <==> i in old(jobs))
                                                   && (i in jobs ==> jobs[i] == old(jobs)[i])
      ensures id in old(active) ==> Shifted(old(Contents()), Contents(), id, Some(InActive), None)
    {
      if id in active {
        ReleaseShifts(Contents(), id);
        ForgetMovesNothing(Contents(), ReleaseCommand(Contents(), id), id);
      }
      active := active - {id};
      jobs := jobs - {id};
    }

    method Requeue(job: Job, at: Time)
      modifies this`jobs, this`retry, this`active
      ensures Contents() == RequeueScript(old(Contents()), job, at)
      ensures jobs == old(jobs)[job.id := job] && active == old(active) - {job.id}
      ensures ZSet(retry, job.queue) == ZSet(old(retry), job.queue)[job.id := at]
      ensures forall q | q != job.queue :: ZSet(retry, q) == ZSet(old(retry), q)
      ensures job.id in old(active) && job.id !in ZSet(old(retry), job.queue) ==>
                Shifted(old(Contents()), Contents(), job.id, Some(InActive), Some(InRetry(job.queue)))
    {
      if job.id in active && job.id !in ZSet(retry, job.queue) {
        RequeueShifts(Contents(), job, at);
      }
      jobs := jobs[job.id := job];
      retry := Put(retry, job.queue, ZSet(retry, job.queue)[job.id := at], map[]);
      active := active - {job.id};
    }

    method MoveToDeadLetter(job: Job)
      modifies this`jobs, this`dead, this`active
      ensures Contents() == BuryScript(old(Contents()), job.(status := StatusDead))
      ensures jobs == old(jobs)[job.id := job.(status := StatusDead)] && active == old(active) - {job.id}
      ensures AtHead(old(dead), dead, job.queue, job.id)
      ensures job.id in old(active) ==>
                Shifted(old(Contents()), Contents(), job.id, Some(InActive), Some(InDead(job.queue)))
    {
      if job.id in active {
        BuryShifts(Contents(), job.(status := StatusDead));
      }
      jobs := jobs[job.id := job.(status := StatusDead)];
      dead := LPush(dead, job.queue, job.id);
      active := active - {job.id};
    }

    method RetryDeadJob(id: Id, now: Time) returns (r: RetryReply)
      modifies this`jobs, this`dead, this`queues
      ensures (Contents(), r == Retried) == AtomicRetry(old(Contents()), id, now)
      ensures r == NotFound <==> id !in old(jobs)
      ensures r == Retried <==> id in old(jobs) && id in List(old(dead), old(jobs)[id].queue)
      ensures r != Retried ==> Contents() == old(Contents())
      ensures r == Retried ==>
                var job := old(jobs)[id];
                && jobs == old(jobs)[id := job.(status := StatusPending, attempts := 0, lastError := "",
                           processAt := now)]
                && AtHead(old(queues), queues, job.queue, id)
                && forall a, b | List(old(dead), job.queue) == a + [id] + b && id !in a ::
                     List(dead, job.queue) == a + b
      ensures r == Retried ==>
                Shifted(old(Contents()), Contents(), id, Some(InDead(old(jobs)[id].queue)),
                        Some(InQueue(old(jobs)[id].queue)))
    {
      if id !in jobs {
        return NotFound;
      }
      var rewritten := Reset(jobs[id], now);
      var q := jobs[id].queue;
      if id !in List(dead, q) {
        return NotDead;
      }
      ReviveShifts(Contents(), q, id, rewritten);
      forall a, b | List(dead, q) == a + [id] + b && id !in a ensures RemoveFirst(List(dead, q), id) == a + b {
        RemoveFirstAt(a, id, b);
      }
      dead := Put(dead, q, RemoveFirst(List(dead, q), id), []);
      jobs := jobs[id := rewritten];
      queues := LPush(queues, q, id);
      r := Retried;
    }

    /** promoteJobScript for one ID. */
    method PromoteOne(src: Source, id: Id) returns (moved: bool)
      modifies this`scheduled, this`retry, this`queues
      ensures (Contents(), moved) == PromoteScript(old(Contents()), src, id)
      ensures moved <==> id in Members(old(Contents()), src) && id in jobs
      ensures moved ==> id in jobs && Shifted(old(Contents()), Contents(), id, Some(LocOf(src)),
                                              Some(InQueue(jobs[id].queue)))
    {
      if id !in Members(Contents(), src) {
        return false;
      }
      if id in jobs {
        PromoteShifts(Contents(), src, id);
      }
      match src {
        case ScheduledSet => scheduled := scheduled - {id};
        case RetrySet(q) => retry := Put(retry, q, ZSet(retry, q) - {id}, map[]);
      }
      if id !in jobs {
        return false;
      }
      queues := LPush(queues, jobs[id].queue, id);
      moved := true;
    }

    /** The inner loop of a pass: the listed IDs of one source. */
    method PromoteBatch(src: Source, ids: seq<Id>) returns (count: nat)
      modifies this`scheduled, this`retry, this`queues
      ensures (Contents(), count) == PromoteEach(old(Contents()), src, ids)
    {
      count := 0;
      var i := 0;
      while i < |ids|
        invariant 0 <= i <= |ids|
        invariant var (t, n) := PromoteEach(Contents(), src, ids[i..]);
                  (t, count + n) == PromoteEach(old(Contents()), src, ids)
        invariant jobs == old(jobs) && dead == old(dead) && active == old(active)
      {
        assert ids[i..][1..] == ids[i + 1..];
        var moved := PromoteOne(src, ids[i]);
        if moved {
          count := count + 1;
        }
        i := i + 1;
      }
    }

    /** PromoteDueJobs. `batches` records what ZRANGEBYSCORE answered for each source. */
    method PromoteDueJobs(qs: seq<Queue>, now: Time) returns (promoted: nat, ghost batches: seq<seq<Id>>)
      modifies this`scheduled, this`retry, this`queues
      ensures Listed(old(Contents()), now, Sources(qs), batches)
      ensures (Contents(), promoted) == PassResult(old(Contents()), Sources(qs), batches)
    {
      promoted, batches := 0, [];
      var srcs := Sources(qs);
      var i := 0;
      ghost var start := Contents();
      while i < |srcs|
        invariant 0 <= i <= |srcs| && |batches| == i
        invariant Listed(start, now, srcs[..i], batches)
        invariant Contents() == PassResult(start, srcs[..i], batches).0
        invariant promoted == PassResult(start, srcs[..i], batches).1
      {
        var ids := RangeByScore(Members(Contents(), srcs[i]), now);
        assert srcs[..i + 1] == srcs[..i] + [srcs[i]];
        PassExtend(start, now, srcs[..i], batches, srcs[i], ids);
        var n := PromoteBatch(srcs[i], ids);
        promoted := promoted + n;
        batches := batches + [ids];
        i := i + 1;
      }
      assert srcs[..i] == srcs;
    }

    method DeleteJob(id: Id)
      modifies this
      ensures Contents() == D.DeleteJob(old(Contents()), id)
    {
      if id !in jobs {
        return;
      }
      var q := jobs[id].queue;
      D.RemovedIs(Contents(), q, id, D.REMOVALS);
      queues := Put(queues, q, RemoveAll(List(queues, q), id), []);
      retry := Put(retry, q, ZSet(retry, q) - {id}, map[]);
      dead := Put(dead, q, RemoveAll(List(dead, q), id), []);
      active := active - {id};
      scheduled := scheduled - {id};
      jobs := jobs - {id};
    }
  }

  lemma PassUnfold(s: Store, srcs: seq<Source>, batches: seq<seq<Id>>)
    requires |srcs| == |batches| && srcs != []
    ensures var (s1, n1) := PromoteEach(s, srcs[0], batches[0]);
            var (t, n) := PassResult(s1, srcs[1..], batches[1..]);
            PassResult(s, srcs, batches) == (t, n1 + n)
  {
  }

  /** A pass over one more source. */
  lemma {:induction false} PassExtend(s: Store, now: Time, srcs: seq<Source>, batches: seq<seq<Id>>, src: Source,
                                      ids: seq<Id>)
    requires Listed(s, now, srcs, batches)
    requires IsRangeByScore(Members(PassResult(s, srcs, batches).0, src), now, ids)
    ensures Listed(s, now, srcs + [src], batches + [ids])
    ensures PassResult(s, srcs + [src], batches + [ids]).0 == PromoteEach(PassResult(s, srcs, batches).0, src, ids).0
    ensures PassResult(s, srcs + [src], batches + [ids]).1
         == PassResult(s, srcs, batches).1 + PromoteEach(PassResult(s, srcs, batches).0, src, ids).1
    decreases |srcs|
  {
    var srcs', batches' := srcs + [src], batches + [ids];
    PassUnfold(s, srcs', batches');
    if srcs == [] {
      assert srcs'[1..] == [] && batches'[1..] == [];
    } else {
      PassUnfold(s, srcs, batches);
      assert srcs'[1..] == srcs[1..] + [src] && batches'[1..] == batches[1..] + [ids];
      PassExtend(PromoteEach(s, srcs[0], batches[0]).0, now, srcs[1..], batches[1..], src, ids);
    }
  }

  /** The due member with the lowest score. */
  method Lowest(z: map<Id, Time>, among: set<Id>) returns (id: Id)
    requires among != {} && among <= z.Keys
    ensures id in among && forall i | i in among :: z[id] <= z[i]
  {
    id :| id in among;
    var rest := among - {id};
    while rest != {}
      invariant rest <= among && id in among
      invariant forall i | i in among && i !in rest :: z[id] <= z[i]
      decreases |rest|
    {
      var x :| x in rest;
      if z[x] < z[id] {
        id := x;
      }
      rest := rest - {x};
    }
  }

  /** ZRANGEBYSCORE z -inf max. */
  method RangeByScore(z: map<Id, Time>, max: Time) returns (ids: seq<Id>)
    ensures IsRangeByScore(z, max, ids)
  {
    var left := set id | id in z && z[id] <= max;
    ids := [];
    while left != {}
      invariant left <= z.Keys
      invariant forall id :: id in z && z[id] <= max <==> id in ids || id in left
      invariant forall i | 0 <= i < |ids| :: ids[i] !in left && ids[i] in z
      invariant forall i, id | 0 <= i < |ids| && id in left :: z[ids[i]] <= z[id]
      invariant forall i, j | 0 <= i < j < |ids| :: ids[i] != ids[j] && z[ids[i]] <= z[ids[j]]
      decreases |left|
    {
      var id := Lowest(z, left);
      ids, left := ids + [id], left - {id};
    }
    assert forall i | 0 <= i < |ids| :: ids[i] in ids;
  }
}
