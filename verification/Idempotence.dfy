/** Repeating an Enqueue whose outcome is unknown, at any later point of any run. The README calls
    this safe on the ground that IDs are made by the client; the Postgres broker makes it so, the
    Redis script only while the job is still in the scheduled set. */
module Idempotence {
  import opened Jobs
  import opened RedisStore
  import opened Lifecycle
  import opened Invariant
  import opened Punctual
  import PostgresTable
  import P = PostgresLifecycle

  /** What the store still shows of a job that has not left the scheduled set. */
  lemma StillScheduled(evs: seq<Event>, k: nat)
    requires Legal(evs) && k < |evs| && evs[k].Enqueue?
    ensures var s, job := Exec(evs).store, evs[k].job;
            if job.id in s.scheduled
            then s.scheduled[job.id] == job.processAt && job.id in s.jobs && s.jobs[job.id] == job
            else job.processAt <= Exec(evs).clock
  {
    var s, l, job := Exec(evs).store, History(evs), evs[k].job;
    FirstWaitKept(evs, k);
    RunCoupled(evs);
    StoredAt(s, l, job.id, InScheduled);
    assert KeptAt(s, job.id, l[job.id]);
  }

  lemma SameAgain(s: Store, job: Job, now: Time)
    ensures EnqueueScript(s, job, now) == s <==>
            && job.processAt > now && job.id in s.scheduled && s.scheduled[job.id] == job.processAt
            && job.id in s.jobs && s.jobs[job.id] == job
  {
    if job.processAt <= now {
      PushCount(s.queues, job.queue, job.id, job.queue, job.id);
    } else {
      var t := EnqueueScript(s, job, now);
      assert job.id in t.jobs && t.jobs[job.id] == job && job.id in t.scheduled && t.scheduled[job.id] == job.processAt;
      if job.id in s.scheduled && s.scheduled[job.id] == job.processAt && job.id in s.jobs && s.jobs[job.id] == job {
        assert s.jobs[job.id := job] == s.jobs && s.scheduled[job.id := job.processAt] == s.scheduled;
      }
    }
  }

  /** Whatever happened since a job was enqueued, with any number of schedulers, and whatever time
      the client reads, running the script again changes nothing if and only if the client takes
      the job to be not yet due and it is still in the scheduled set. Otherwise the store gains
      exactly one more copy of the ID. */
  lemma RepeatHarmlessIff(evs: seq<Event>, k: nat, now: Time)
    requires Legal(evs) && k < |evs| && evs[k].Enqueue?
    ensures var s, job := Exec(evs).store, evs[k].job;
            var t := EnqueueScript(s, job, now);
            && (t == s <==> job.processAt > now && job.id in s.scheduled)
            && (t != s ==> Shifted(s, t, job.id, None,
                                   Some(if job.processAt <= now then InQueue(job.queue) else InScheduled)))
  {
    var s, job := Exec(evs).store, evs[k].job;
    StillScheduled(evs, k);
    SameAgain(s, job, now);
    if EnqueueScript(s, job, now) != s {
      EnqueueShifts(s, job, now);
    }
  }

  /** A client that reads the system clock can tell beforehand: the repetition is harmless if and
      only if the job is not due yet. */
  lemma RepeatedEnqueue(evs: seq<Event>, k: nat)
    requires Legal(evs) && k < |evs| && evs[k].Enqueue?
    ensures var s, job := Exec(evs), evs[k].job;
            EnqueueScript(s.store, job, s.clock) == s.store <==> job.processAt > s.clock
  {
    StillScheduled(evs, k);
    RepeatHarmlessIff(evs, k, Exec(evs).clock);
  }

  /** What popping a queue until it is empty delivers. */
  function PopAll(s: Store, q: Queue, deadline: Time): seq<Id>
    decreases |List(s.queues, q)|
  {
    var (t, id) := PopScript(s, q, deadline);
    if id.None? then [] else [id.value] + PopAll(t, q, deadline)
  }

  lemma {:induction false} PopAllCount(s: Store, q: Queue, deadline: Time, id: Id)
    ensures Count(PopAll(s, q, deadline), id) == Occ(s, id, InQueue(q))
    decreases |List(s.queues, q)|
  {
    var (t, r) := PopScript(s, q, deadline);
    if r.Some? {
      PopAllCount(t, q, deadline, id);
      CountLast(List(s.queues, q), id);
      CountPush(PopAll(t, q, deadline), r.value, id);
    }
  }

  /** Repeating the Enqueue of a job that is due makes its queue deliver it once more than it would
      have: twice if it is still queued, once again if it has run already. */
  lemma DueTwiceRunsTwice(evs: seq<Event>, k: nat, now: Time, deadline: Time)
    requires Legal(evs) && k < |evs| && evs[k].Enqueue? && evs[k].job.processAt <= now
    ensures var s, job := Exec(evs).store, evs[k].job;
            Count(PopAll(EnqueueScript(s, job, now), job.queue, deadline), job.id)
            == if job.id in List(s.queues, job.queue) then 2 else 1
  {
    var s, job := Exec(evs).store, evs[k].job;
    RepeatHarmlessIff(evs, k, now);
    PopAllCount(EnqueueScript(s, job, now), job.queue, deadline, job.id);
    RunCoupled(evs);
    StoredAt(s, History(evs), job.id, InQueue(job.queue));
    assert Hit(job.id, job.id, Some(InQueue(job.queue)), InQueue(job.queue)) == 1;
  }

  /** In Postgres the second INSERT changes nothing when it follows at once. */
  lemma InsertTwice(rows: PostgresTable.Rows, job: Job)
    ensures var once := PostgresTable.Insert(rows, job).0;
            PostgresTable.Insert(once, job) == (once, false)
  {
  }

  /** A Postgres row is never deleted. */
  lemma {:induction false} RowStays(evs: seq<P.Event>, k: nat)
    requires P.Legal(evs) && k < |evs| && evs[k].Enqueue? && evs[k].inserted
    ensures evs[k].job.id in P.Exec(evs).rows
    decreases |evs|
  {
    if k < |evs| - 1 {
      assert Front(evs)[k] == evs[k];
      RowStays(Front(evs), k);
    }
  }

  /** Nor does it at any later point of any run, once the first has inserted its row, whatever
      became of the job since. */
  lemma RepeatedInsert(evs: seq<P.Event>, k: nat)
    requires P.Legal(evs) && k < |evs| && evs[k].Enqueue? && evs[k].inserted
    ensures PostgresTable.Insert(P.Exec(evs).rows, evs[k].job) == (P.Exec(evs).rows, false)
  {
    RowStays(evs, k);
  }
}
