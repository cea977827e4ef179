/** What holds in every state of every run, stated on the store and the events of the run. */
module Conservation {
  import opened Jobs
  import opened RedisStore
  import opened Lifecycle
  import opened Invariant

  /** A run can be continued by any enabled event. */
  lemma Extend(evs: seq<Event>, e: Event)
    requires Legal(evs) && Enabled(Exec(evs), e)
    ensures Legal(evs + [e]) && Exec(evs + [e]) == Apply(Exec(evs), e)
    ensures History(evs + [e]) == Note(History(evs), e)
  {
    assert Front(evs + [e]) == evs && Last(evs + [e]) == e;
  }

  lemma {:induction false} PrefixLegal(evs: seq<Event>, k: nat)
    requires Legal(evs) && k <= |evs|
    ensures Legal(evs[..k])
    decreases |evs|
  {
    if k < |evs| {
      assert Front(evs)[..k] == evs[..k];
      PrefixLegal(Front(evs), k);
    } else {
      assert evs[..k] == evs;
    }
  }

  /** The state and the event at one position of a run. */
  lemma StepAt(evs: seq<Event>, k: nat)
    requires Legal(evs) && k < |evs|
    ensures Legal(evs[..k]) && Enabled(Exec(evs[..k]), evs[k])
    ensures History(evs[..k + 1]) == Note(History(evs[..k]), evs[k])
  {
    PrefixLegal(evs, k);
    PrefixLegal(evs, k + 1);
    assert Front(evs[..k + 1]) == evs[..k];
  }

  /** One step inside a run. */
  lemma ExecAt(evs: seq<Event>, k: nat)
    requires Legal(evs) && k < |evs|
    ensures Legal(evs[..k]) && Enabled(Exec(evs[..k]), evs[k])
    ensures Legal(evs[..k + 1]) && Exec(evs[..k + 1]) == Apply(Exec(evs[..k]), evs[k])
  {
    StepAt(evs, k);
    PrefixLegal(evs, k + 1);
    assert Front(evs[..k + 1]) == evs[..k] && Last(evs[..k + 1]) == evs[k];
  }

  ghost predicate Enqueued(evs: seq<Event>, id: Id) {
    exists k :: 0 <= k < |evs| && evs[k].Enqueue? && evs[k].job.id == id
  }

  ghost predicate Acknowledged(evs: seq<Event>, id: Id) {
    exists k :: 0 <= k < |evs| && evs[k].Release? && evs[k].id == id
  }

  /** Once a job is gone no event brings it back, and only its acknowledgement makes it go. */
  lemma GoneStep(l: Ledger, e: Event, id: Id)
    requires Lawful(l, e) && id in l
    ensures id in Note(l, e)
    ensures Note(l, e)[id].place == Gone <==> l[id].place == Gone || (e.Release? && e.id == id)
  {
  }

  /** The history knows exactly the enqueued jobs, and those gone are exactly the acknowledged ones. */
  lemma {:induction false} HistoryMeans(evs: seq<Event>, id: Id)
    requires Legal(evs)
    ensures id in History(evs) <==> Enqueued(evs, id)
    ensures id in History(evs) ==> (History(evs)[id].place == Gone <==> Acknowledged(evs, id))
    ensures Acknowledged(evs, id) ==> Enqueued(evs, id)
  {
    if evs != [] {
      var f, e := Front(evs), Last(evs);
      HistoryMeans(f, id);
      LastLawful(evs);
      assert evs == f + [e];
      assert Enqueued(evs, id) <==> Enqueued(f, id) || (e.Enqueue? && e.job.id == id) by {
        if Enqueued(f, id) {
          var k :| 0 <= k < |f| && f[k].Enqueue? && f[k].job.id == id;
          assert evs[k] == f[k];
        }
        if e.Enqueue? && e.job.id == id { assert evs[|evs| - 1] == e; }
      }
      assert Acknowledged(evs, id) <==> Acknowledged(f, id) || (e.Release? && e.id == id) by {
        if Acknowledged(f, id) {
          var k :| 0 <= k < |f| && f[k].Release? && f[k].id == id;
          assert evs[k] == f[k];
        }
        if e.Release? && e.id == id { assert evs[|evs| - 1] == e; }
      }
      if id in History(f) {
        GoneStep(History(f), e, id);
      }
    }
  }

  /** Conservation: in every state of every interleaved run, a job that was enqueued and not
      yet acknowledged is stored exactly once across all queue lists, the scheduled set, the
      retry sets, the dead lists and the active set, and has a record. Any other ID is stored
      nowhere. */
  lemma ExactlyOnce(evs: seq<Event>, id: Id)
    requires Legal(evs)
    ensures Enqueued(evs, id) && !Acknowledged(evs, id) ==>
              && id in Exec(evs).store.jobs
              && exists loc :: Occ(Exec(evs).store, id, loc) == 1
                               && forall other :: other != loc ==> Occ(Exec(evs).store, id, other) == 0
    ensures !(Enqueued(evs, id) && !Acknowledged(evs, id)) ==>
              forall loc :: Occ(Exec(evs).store, id, loc) == 0
  {
    HistoryMeans(evs, id);
    RunCoupled(evs);
    var s, l := Exec(evs).store, History(evs);
    if Enqueued(evs, id) && !Acknowledged(evs, id) {
      var loc := l[id].place.loc;
      assert KeptAt(s, id, l[id]);
      assert Occ(s, id, loc) == Expected(l, id, loc) == 1;
    }
  }

  ghost predicate Forgotten(evs: seq<Event>, id: Id) {
    exists k :: 0 <= k < |evs| && evs[k].Forget? && evs[k].id == id
  }

  /** The events that run a script or a command that writes. */
  predicate Writes(e: Event) {
    e.Enqueue? || e.Pop? || e.Requeue? || e.Bury? || e.Release? || e.Forget? || e.Revive? || e.Promote?
  }

  lemma StoreUntouched(s: State, e: Event)
    requires Enabled(s, e) && !Writes(e)
    ensures Apply(s, e).store == s.store
  {
  }

  /** Promotion touches no record and not the active set. */
  lemma PromoteLeaves(s: Store, src: Source, id: Id)
    ensures PromoteScript(s, src, id).0.jobs == s.jobs && PromoteScript(s, src, id).0.active == s.active
  {
  }

  /** Delivering, releasing and promoting a job leave its record alone. */
  lemma JobsUntouched(s: State, e: Event, id: Id)
    requires Enabled(s, e) && (e.Pop? || e.Release? || e.Promote?)
    ensures id in Apply(s, e).store.jobs <==> id in s.store.jobs
  {
    if e.Promote? {
      PromoteLeaves(s.store, e.src, e.id);
    }
  }

  lemma MadeOrDeleted(s: State, e: Event, id: Id)
    requires Enabled(s, e) && (e.Enqueue? || e.Forget?)
    ensures id in Apply(s, e).store.jobs <==>
            (id in s.store.jobs || (e.Enqueue? && e.job.id == id)) && !(e.Forget? && e.id == id)
  {
  }

  lemma Rewritten(s: State, l: Ledger, e: Event, id: Id)
    requires Coupled(s, l) && Enabled(s, e) && (e.Requeue? || e.Bury?)
    ensures id in Apply(s, e).store.jobs <==> id in s.store.jobs
  {
    assert CallOk(l, s.clock, s.calls[e.tok]) && KeptAt(s.store, e.job.id, l[e.job.id]);
  }

  lemma RewrittenDead(s: State, l: Ledger, e: Event, id: Id)
    requires Coupled(s, l) && Enabled(s, e) && e.Revive?
    ensures id in Apply(s, e).store.jobs <==> id in s.store.jobs
  {
    if e.ok {
      assert CallOk(l, s.clock, s.calls[e.tok]);
      StoredAt(s.store, l, e.id, InDead(s.calls[e.tok].read.queue));
      assert KeptAt(s.store, e.id, l[e.id]);
    }
  }

  /** A record comes with the Enqueue of its job and goes with the DEL of its acknowledgement. */
  lemma RecordStep(s: State, l: Ledger, e: Event, id: Id)
    requires Coupled(s, l) && Enabled(s, e)
    ensures id in Apply(s, e).store.jobs <==>
            (id in s.store.jobs || (e.Enqueue? && e.job.id == id)) && !(e.Forget? && e.id == id)
  {
    match e
    case Enqueue(_, _) => MadeOrDeleted(s, e, id);
    case Forget(_, _) => MadeOrDeleted(s, e, id);
    case Requeue(_, _, _) => Rewritten(s, l, e, id);
    case Bury(_, _) => Rewritten(s, l, e, id);
    case Revive(_, _, _, _) => RewrittenDead(s, l, e, id);
    case Pop(_, _, _, _) => JobsUntouched(s, e, id);
    case Release(_, _) => JobsUntouched(s, e, id);
    case Promote(_, _, _, _) => JobsUntouched(s, e, id);
    case _ => StoreUntouched(s, e);
  }

  lemma LastOf(evs: seq<Event>, id: Id)
    requires evs != []
    ensures Enqueued(evs, id) <==> Enqueued(Front(evs), id) || (Last(evs).Enqueue? && Last(evs).job.id == id)
    ensures Forgotten(evs, id) <==> Forgotten(Front(evs), id) || (Last(evs).Forget? && Last(evs).id == id)
  {
    var f := Front(evs);
    if k :| 0 <= k < |evs| && evs[k].Enqueue? && evs[k].job.id == id {
      assert k < |f| ==> f[k] == evs[k];
    }
    if k :| 0 <= k < |evs| && evs[k].Forget? && evs[k].id == id {
      assert k < |f| ==> f[k] == evs[k];
    }
    if k :| 0 <= k < |f| && f[k].Enqueue? && f[k].job.id == id {
      assert evs[k] == f[k];
    }
    if k :| 0 <= k < |f| && f[k].Forget? && f[k].id == id {
      assert evs[k] == f[k];
    }
  }

  /** In every state of every run the records are those of exactly the enqueued jobs whose
      acknowledgement has not got to its DEL: none is left behind and none is lost. */
  lemma {:induction false} RecordsExactly(evs: seq<Event>, id: Id)
    requires Legal(evs)
    ensures id in Exec(evs).store.jobs <==> Enqueued(evs, id) && !Forgotten(evs, id)
    ensures Forgotten(evs, id) ==> Enqueued(evs, id)
  {
    if evs != [] {
      var f, e := Front(evs), Last(evs);
      RecordsExactly(f, id);
      RunCoupled(f);
      StepLawful(Exec(f), History(f), e);
      RecordStep(Exec(f), History(f), e, id);
      HistoryMeans(f, id);
      LastOf(evs, id);
    }
  }

  /** The last delivery of the job, if it has been delivered. */
  ghost predicate LastDelivery(evs: seq<Event>, k: nat, id: Id) {
    && k < |evs| && evs[k].Pop? && evs[k].id == id
    && forall m | k < m < |evs| :: !(evs[m].Pop? && evs[m].id == id)
  }

  lemma ActiveScoreStep(s: State, e: Event, id: Id)
    requires Enabled(s, e) && id in Apply(s, e).store.active && !(e.Pop? && e.id == id)
    ensures id in s.store.active && s.store.active[id] == Apply(s, e).store.active[id]
  {
    if !Writes(e) {
      StoreUntouched(s, e);
    } else if e.Promote? {
      PromoteLeaves(s.store, e.src, e.id);
    }
  }

  /** The score of an active job is the deadline its last delivery set. */
  lemma {:induction false} ActiveDeadline(evs: seq<Event>, id: Id)
    requires Legal(evs) && id in Exec(evs).store.active
    ensures exists k: nat :: LastDelivery(evs, k, id) && Exec(evs).store.active[id] == evs[k].deadline
  {
    if evs != [] {
      var f, e := Front(evs), Last(evs);
      if e.Pop? && e.id == id {
        assert LastDelivery(evs, |evs| - 1, id);
      } else {
        ActiveScoreStep(Exec(f), e, id);
        ActiveDeadline(f, id);
        var k: nat :| LastDelivery(f, k, id) && Exec(f).store.active[id] == f[k].deadline;
        assert LastDelivery(evs, k, id);
      }
    }
  }


  /** The event hands the job out, settles it or moves it. */
  predicate Handles(e: Event, id: Id) {
    match e
    case Pop(_, _, i, _) => i == id
    case Read(_, i) => i == id
    case Fail(_, job, _, _, _, _) => job.id == id
    case Reject(_, job, _) => job.id == id
    case Requeue(_, job, _) => job.id == id
    case Bury(_, job) => job.id == id
    case Release(_, i) => i == id
    case Revive(_, i, _, ok) => ok && i == id
    case Promote(_, _, i, moved) => moved && i == id
    case Enqueue(job, _) => job.id == id
    case _ => false
  }

  /** Once an acknowledgement has taken a job out of the active set, no continuation of the
      run delivers, moves or settles it again. */
  lemma NeverAgain(evs: seq<Event>, k: nat, j: nat, id: Id)
    requires Legal(evs) && k < j < |evs| && evs[k].Release? && evs[k].id == id
    ensures !Handles(evs[j], id)
  {
    var f := evs[..j];
    StepAt(evs, j);
    RunCoupled(f);
    HistoryMeans(f, id);
    assert f[k] == evs[k];
    StepLawful(Exec(f), History(f), evs[j]);
  }

  /** Status, place and queue agree in every reachable state. */
  lemma PlacesAgree(evs: seq<Event>, id: Id, q: Queue)
    requires Legal(evs)
    ensures var s := Exec(evs).store;
            && (id in List(s.dead, q) <==> id in s.jobs && s.jobs[id].status == StatusDead && s.jobs[id].queue == q)
            && (id in ZSet(s.retry, q) ==> id in s.jobs && s.jobs[id].status == StatusRetry && s.jobs[id].queue == q)
            && (id in s.scheduled ==> id in s.jobs && s.jobs[id].status == StatusPending)
            && (id in List(s.queues, q) ==> id in s.jobs && s.jobs[id].queue == q)
    ensures var s := Exec(evs).store;
            && (id in s.jobs ==> s.jobs[id].id == id)
            && (id in s.jobs && s.jobs[id].status != StatusDead ==> s.jobs[id].attempts < s.jobs[id].maxAttempts)
  {
    RunCoupled(evs);
    var s, l := Exec(evs).store, History(evs);
    StoredAt(s, l, id, InDead(q));
    StoredAt(s, l, id, InRetry(q));
    StoredAt(s, l, id, InScheduled);
    StoredAt(s, l, id, InQueue(q));
    if id in l {
      assert KeptAt(s, id, l[id]) && EntryOk(id, l[id]);
    }
  }

  /** The jobs in the hands of calls have distinct IDs, all of them active, whatever the
      number of servers: no job has two holders. */
  lemma SingleHolder(evs: seq<Event>, t: Token, u: Token, id: Id)
    requires Legal(evs) && t in Exec(evs).calls && Owns(Exec(evs).calls[t], id)
    ensures id in Exec(evs).store.active && id in Exec(evs).store.jobs
    ensures u in Exec(evs).calls && Owns(Exec(evs).calls[u], id) ==> t == u
  {
    RunCoupled(evs);
    var s, l := Exec(evs), History(evs);
    assert CallOk(l, s.clock, s.calls[t]);
    StoredAt(s.store, l, id, InActive);
    assert KeptAt(s.store, id, l[id]);
  }

  /** A worker always holds the record as it is stored, so what it later writes back is based
      on the current record. */
  lemma HeldCopyIsCurrent(evs: seq<Event>, t: Token)
    requires Legal(evs) && t in Exec(evs).calls && Exec(evs).calls[t].Holding?
    ensures var job := Exec(evs).calls[t].job; job.id in Exec(evs).store.jobs && Exec(evs).store.jobs[job.id] == job
  {
    RunCoupled(evs);
    var s, l := Exec(evs), History(evs);
    var job := s.calls[t].job;
    assert CallOk(l, s.clock, s.calls[t]) && KeptAt(s.store, job.id, l[job.id]);
  }

  // ---------- RetryDeadJob ----------

  /** Reading and rewriting in one step, as if RetryDeadJob were atomic. */
  function AtomicRetry(s: Store, id: Id, now: Time): (Store, bool) {
    if id in s.jobs then ReviveScript(s, s.jobs[id].queue, id, Reset(s.jobs[id], now)) else (s, false)
  }

  /** RetryDeadJob, which reads in one step and writes in another, has the effect of one atomic
      retry at the moment of its script, however stale the read; it succeeds exactly when the
      job is dead then, and otherwise changes nothing. */
  lemma RetryIsAtomic(evs: seq<Event>)
    requires Legal(evs) && evs != [] && Last(evs).Revive?
    ensures var s, t, e := Exec(Front(evs)).store, Exec(evs).store, Last(evs);
            && (t, e.ok) == AtomicRetry(s, e.id, e.now)
            && (e.ok <==> e.id in s.jobs && s.jobs[e.id].status == StatusDead)
            && (!e.ok ==> t == s)
  {
    var f, e := Front(evs), Last(evs);
    RunCoupled(f);
    var s, l := Exec(f), History(f);
    var read := s.calls[e.tok].read;
    assert CallOk(l, s.clock, s.calls[e.tok]) && KeptAt(s.store, e.id, l[e.id]) && EntryOk(e.id, l[e.id]);
    ResetOfStaleRead(read, l[e.id].job, e.now);
    PlacesAgree(f, e.id, read.queue);
  }
}
