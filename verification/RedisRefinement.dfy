/** Every run of the Redis protocol with a single scheduler is a run of the abstract table, with
    promotion as a step that changes nothing; more schedulers can only make a retry early. */
module RedisRefinement {
  import opened Jobs
  import opened RedisStore
  import opened Lifecycle
  import opened Invariant
  import opened Conservation
  import opened SoloScheduler
  import opened Punctual
  import JobTable

  function PhaseOf(e: Entry): JobTable.Phase {
    match e.place
    case Gone => JobTable.Done
    case Stored(InActive) => JobTable.Running
    case Stored(InDead(_)) => JobTable.Buried
    case Stored(_) => JobTable.Waiting(e.due)
  }

  function RowOf(e: Entry): JobTable.Row {
    JobTable.Row(Fixed(e.job), e.job.attempts, e.job.lastError, PhaseOf(e))
  }

  function TableOf(l: Ledger): JobTable.Table {
    map id | id in l :: RowOf(l[id])
  }

  /** What an event means for the table. */
  function OpOf(e: Event): JobTable.Op {
    match e
    case Enqueue(job, _) => JobTable.Submit(job)
    case Pop(_, q, id, _) => JobTable.Take(id, q)
    case Release(_, id) => JobTable.Complete(id)
    case Requeue(_, job, at) => JobTable.Postpone(job.id, job.attempts, job.lastError, at)
    case Bury(_, job) => JobTable.Kill(job.id, job.attempts, job.lastError)
    case Revive(_, id, now, ok) => if ok then JobTable.Restore(id, now) else JobTable.Nothing
    case _ => JobTable.Nothing
  }

  /** The table after an event, by the entry that changes. */
  lemma Changed(l: Ledger, id: Id, entry: Entry)
    ensures TableOf(l[id := entry]) == TableOf(l)[id := RowOf(entry)]
  {
  }

  lemma Unchanged(l: Ledger, id: Id, entry: Entry)
    requires id in l && RowOf(entry) == RowOf(l[id])
    ensures TableOf(l[id := entry]) == TableOf(l)
  {
    Changed(l, id, entry);
  }

  lemma SettleTable(l: Ledger, e: Event)
    requires Lawful(l, e) && (e.Requeue? || e.Bury? || e.Revive?)
    ensures TableOf(Note(l, e)) == JobTable.Do(TableOf(l), OpOf(e))
  {
    match e
    case Requeue(_, job, _) => Changed(l, job.id, Note(l, e)[job.id]);
    case Bury(_, job) => Changed(l, job.id, Note(l, e)[job.id]);
    case Revive(_, id, _, ok) => if ok { Changed(l, id, Note(l, e)[id]); }
  }

  lemma StepTable(l: Ledger, e: Event)
    requires Lawful(l, e)
    ensures TableOf(Note(l, e)) == JobTable.Do(TableOf(l), OpOf(e))
  {
    match e
    case Enqueue(job, _) => Changed(l, job.id, Note(l, e)[job.id]);
    case Pop(_, _, id, _) => Changed(l, id, Note(l, e)[id]);
    case Release(_, id) => Changed(l, id, Note(l, e)[id]);
    case Requeue(_, job, _) => SettleTable(l, e);
    case Bury(_, job) => SettleTable(l, e);
    case Revive(_, id, _, ok) => SettleTable(l, e);
    case Promote(_, _, id, moved) => if moved { Unchanged(l, id, Note(l, e)[id]); }
    case Fail(_, job, _, _, _, now) => Unchanged(l, job.id, l[job.id].(firstFailure := now));
    case _ =>
  }

  lemma StepAllowed(l: Ledger, clock: Time, e: Event)
    requires Lawful(l, e) && Sound(l) && Timely(l, clock) && (e.Revive? ==> e.now <= clock)
    ensures JobTable.Allowed(TableOf(l), OpOf(e), clock)
  {
    if e.Pop? {
      assert EntryOk(e.id, l[e.id]);
    }
  }

  /** The table computed by the operations of a run, from nothing. */
  ghost function TableAfter(evs: seq<Event>): JobTable.Table {
    if evs == [] then map[] else JobTable.Do(TableAfter(Front(evs)), OpOf(Last(evs)))
  }

  /** Every operation of the run was allowed when it happened. */
  ghost predicate Conforms(evs: seq<Event>)
    requires Legal(evs)
  {
    evs == [] || (Conforms(Front(evs))
                  && JobTable.Allowed(TableAfter(Front(evs)), OpOf(Last(evs)), Exec(Front(evs)).clock))
  }

  /** Refinement: the operations of a Redis run with a single scheduler are, in order, allowed
      operations of the abstract table, and the table they lead to is the one the run stands for. */
  lemma {:induction false} RedisRefines(evs: seq<Event>)
    requires Legal(evs) && Solo(evs)
    ensures Conforms(evs) && TableAfter(evs) == TableOf(History(evs))
  {
    if evs != [] {
      var f, e := Front(evs), Last(evs);
      RedisRefines(f);
      LastLawful(evs);
      NeverEarly(f);
      StepTable(History(f), e);
      StepAllowed(History(f), Exec(f).clock, e);
    }
  }

  /** The take of a retry is allowed at `c`, now or later; any other operation is allowed now. */
  predicate AllowedFrom(t: JobTable.Table, op: JobTable.Op, now: Time, c: Time) {
    && now <= c && JobTable.Allowed(t, op, c)
    && (c == now || (op.Take? && op.id in t && t[op.id].attempts >= 1))
  }

  lemma StepAllowedLater(l: Ledger, clock: Time, e: Event)
    requires Lawful(l, e) && Sound(l) && (e.Revive? ==> e.now <= clock)
    requires e.Pop? && l[e.id].due > clock ==> l[e.id].job.attempts >= 1
    ensures exists c :: AllowedFrom(TableOf(l), OpOf(e), clock, c)
  {
    var c := if e.Pop? && l[e.id].due > clock then l[e.id].due else clock;
    if e.Pop? {
      assert EntryOk(e.id, l[e.id]);
    }
    assert AllowedFrom(TableOf(l), OpOf(e), clock, c);
  }

  /** Every operation of the run was allowed when it happened, or is a take of a retry that would
      have been free to take later. */
  ghost predicate ConformsButForTime(evs: seq<Event>)
    requires Legal(evs)
  {
    evs == [] || (ConformsButForTime(Front(evs))
                  && exists c :: AllowedFrom(TableAfter(Front(evs)), OpOf(Last(evs)), Exec(Front(evs)).clock, c))
  }

  /** With any number of schedulers the only rule of the table that can be broken is the due
      time of the take of a retry. */
  lemma {:induction false} RedisRefinesButForTime(evs: seq<Event>)
    requires Legal(evs)
    ensures ConformsButForTime(evs) && TableAfter(evs) == TableOf(History(evs))
  {
    if evs != [] {
      var f, e := Front(evs), Last(evs);
      RedisRefinesButForTime(f);
      LastLawful(evs);
      StepTable(History(f), e);
      if e.Pop? && History(f)[e.id].due > Exec(f).clock {
        assert EntryOk(e.id, History(f)[e.id]);
        OnlyRetriesEarly(f, e.id);
      }
      StepAllowedLater(History(f), Exec(f).clock, e);
    }
  }

  /** The store shows the place the history knows. */
  lemma PlaceShows(s: Store, l: Ledger, id: Id)
    requires Located(s, l) && id in l
    ensures l[id].place == Stored(InActive) <==> id in s.active
    ensures l[id].place == Stored(InScheduled) <==> id in s.scheduled
    ensures (l[id].place.Stored? && l[id].place.loc.InDead?) <==> exists q :: id in List(s.dead, q)
    ensures (l[id].place.Stored? && l[id].place.loc.InRetry?) <==> exists q :: id in ZSet(s.retry, q)
    ensures (l[id].place.Stored? && l[id].place.loc.InQueue?) <==> exists q :: id in List(s.queues, q)
  {
    StoredAt(s, l, id, InActive);
    StoredAt(s, l, id, InScheduled);
    forall q
      ensures id in List(s.dead, q) <==> l[id].place == Stored(InDead(q))
      ensures id in ZSet(s.retry, q) <==> l[id].place == Stored(InRetry(q))
      ensures id in List(s.queues, q) <==> l[id].place == Stored(InQueue(q))
    {
      StoredAt(s, l, id, InDead(q));
      StoredAt(s, l, id, InRetry(q));
      StoredAt(s, l, id, InQueue(q));
    }
    if l[id].place.Stored? {
      var loc := l[id].place.loc;
      assert loc.InDead? ==> id in List(s.dead, loc.queue);
      assert loc.InRetry? ==> id in ZSet(s.retry, loc.queue);
      assert loc.InQueue? ==> id in List(s.queues, loc.queue);
    }
  }

  /** A row can be read off the store: it is running when the ID is in the active set, buried
      when it is on a dead list, waiting when it is in a queue list or a waiting set, and done
      when it is stored nowhere; until then the record carries its spec, its attempts and its last
      error, and the score in a waiting set is its due time. */
  ghost predicate Shows(s: Store, id: Id, row: JobTable.Row) {
    && (row.phase.Running? <==> id in s.active)
    && (row.phase.Buried? <==> exists q :: id in List(s.dead, q))
    && (row.phase.Waiting? <==>
        id in s.scheduled || (exists q :: id in ZSet(s.retry, q)) || (exists q :: id in List(s.queues, q)))
    && (id in s.scheduled ==> row.phase == JobTable.Waiting(s.scheduled[id]))
    && (forall q | id in ZSet(s.retry, q) :: row.phase == JobTable.Waiting(ZSet(s.retry, q)[id]))
    && (!row.phase.Done? ==>
          id in s.jobs && row == JobTable.Row(Fixed(s.jobs[id]), s.jobs[id].attempts, s.jobs[id].lastError, row.phase))
  }

  lemma EntryShows(s: Store, l: Ledger, id: Id)
    requires Located(s, l) && Kept(s, l) && id in l
    ensures Shows(s, id, RowOf(l[id]))
  {
    PlaceShows(s, l, id);
    assert KeptAt(s, id, l[id]);
    forall q | id in ZSet(s.retry, q) ensures l[id].place == Stored(InRetry(q)) {
      StoredAt(s, l, id, InRetry(q));
    }
  }

  /** In every state of every run, whatever the number of schedulers, the table has a row for
      exactly the enqueued jobs and the store shows each of them. */
  lemma TableShowsStore(evs: seq<Event>, id: Id)
    requires Legal(evs)
    ensures id in TableAfter(evs) <==> Enqueued(evs, id)
    ensures id in TableAfter(evs) ==> Shows(Exec(evs).store, id, TableAfter(evs)[id])
  {
    assert TableAfter(evs) == TableOf(History(evs)) by { RedisRefinesButForTime(evs); }
    assert id in History(evs) <==> Enqueued(evs, id) by { HistoryMeans(evs, id); }
    if id in History(evs) {
      assert Shows(Exec(evs).store, id, RowOf(History(evs)[id])) by {
        RunCoupled(evs);
        EntryShows(Exec(evs).store, History(evs), id);
      }
    }
  }
}
