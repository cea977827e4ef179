/** What holds of time with any number of schedulers. An ID enters the scheduled set only once,
    so a stale listing of that set still names due jobs only: a job is never promoted out of it
    early, and only retries can run before their time. */
module Punctual {
  import opened Jobs
  import opened RedisStore
  import opened Lifecycle
  import opened Invariant

  /** A job that has not failed yet waits for the time in its record, and whatever has left the
      scheduled set has reached that time. */
  predicate OnTime(e: Entry, clock: Time) {
    && (e.job.attempts == 0 ==> e.due == e.job.processAt)
    && (e.place != Stored(InScheduled) ==> e.job.processAt <= clock)
  }

  /** What a pass has listed from the scheduled set is due, however old the listing. */
  ghost predicate ListingDue(l: Ledger, clock: Time, c: Call) {
    c.Promoting? && c.src == ScheduledSet ==>
      forall id | id in c.due :: id in l && l[id].job.processAt <= clock
  }

  ghost predicate Punctual(s: State, l: Ledger) {
    && (forall id | id in l :: OnTime(l[id], s.clock))
    && (forall t | t in s.calls :: ListingDue(l, s.clock, s.calls[t]))
  }

  lemma OnTimeStep(s: State, l: Ledger, e: Event, id: Id)
    requires Lawful(l, e) && Enabled(s, e) && Punctual(s, l) && id in Note(l, e)
    ensures OnTime(Note(l, e)[id], Apply(s, e).clock)
  {
    if id in l {
      assert OnTime(l[id], s.clock);
      if e.Promote? {
        assert ListingDue(l, s.clock, s.calls[e.tok]);
      }
    }
  }

  /** The due time in a record changes only to the time of a retry from the dead letters. */
  lemma ProcessAtStep(s: State, l: Ledger, e: Event, id: Id)
    requires Lawful(l, e) && Enabled(s, e) && id in l && l[id].job.processAt <= s.clock
    ensures id in Note(l, e) && Note(l, e)[id].job.processAt <= s.clock
  {
  }

  /** Whatever ZRANGEBYSCORE lists of the scheduled set is due. */
  lemma ScanDue(s: State, l: Ledger, e: Event, id: Id)
    requires Coupled(s, l) && Enabled(s, e) && Punctual(s, l) && e.Scan?
    requires s.calls[e.tok].rest[0] == ScheduledSet && id in e.ids
    ensures id in l && l[id].job.processAt <= s.clock
  {
    assert CallOk(l, s.clock, s.calls[e.tok]);
    StoredAt(s.store, l, id, InScheduled);
    assert KeptAt(s.store, id, l[id]) && EntryOk(id, l[id]) && OnTime(l[id], s.clock);
  }

  lemma ListingStep(s: State, l: Ledger, e: Event, u: Token)
    requires Coupled(s, l) && Enabled(s, e) && Lawful(l, e) && Punctual(s, l) && u in Apply(s, e).calls
    ensures ListingDue(Note(l, e), Apply(s, e).clock, Apply(s, e).calls[u])
  {
    var c := Apply(s, e).calls[u];
    if c.Promoting? && c.src == ScheduledSet {
      forall id | id in c.due ensures id in Note(l, e) && Note(l, e)[id].job.processAt <= Apply(s, e).clock {
        if e.Scan? && e.tok == u {
          ScanDue(s, l, e, id);
        } else {
          assert ListingDue(l, s.clock, s.calls[u]);
          assert id in s.calls[u].due;
        }
        ProcessAtStep(s, l, e, id);
      }
    }
  }

  /** In every state of every run, with any number of schedulers. */
  lemma {:induction false} RunPunctual(evs: seq<Event>)
    requires Legal(evs)
    ensures Punctual(Exec(evs), History(evs))
  {
    if evs != [] {
      var f, e := Front(evs), Last(evs);
      RunPunctual(f);
      RunCoupled(f);
      StepLawful(Exec(f), History(f), e);
      forall id | id in History(evs) ensures OnTime(History(evs)[id], Exec(evs).clock) {
        OnTimeStep(Exec(f), History(f), e, id);
      }
      forall u | u in Exec(evs).calls ensures ListingDue(History(evs), Exec(evs).clock, Exec(evs).calls[u]) {
        ListingStep(Exec(f), History(f), e, u);
      }
    }
  }

  /** A promotion out of the scheduled set never comes early, whoever else is promoting. */
  lemma ScheduledNeverEarly(evs: seq<Event>)
    requires Legal(evs) && evs != [] && Last(evs).Promote? && Last(evs).moved && Last(evs).src == ScheduledSet
    ensures var s, id := Exec(Front(evs)), Last(evs).id;
            id in s.store.scheduled && s.store.scheduled[id] <= s.clock
  {
    var s, l, e := Exec(Front(evs)), History(Front(evs)), Last(evs);
    RunCoupled(Front(evs));
    RunPunctual(Front(evs));
    PromoteMoves(s, l, ScheduledSet, e.id);
    assert KeptAt(s.store, e.id, l[e.id]) && EntryOk(e.id, l[e.id]) && OnTime(l[e.id], s.clock);
    assert ListingDue(l, s.clock, s.calls[e.tok]);
  }

  /** Only retries can run early: a queued or active job that has not reached the time it was
      told to wait for has failed before. */
  lemma OnlyRetriesEarly(evs: seq<Event>, id: Id)
    requires Legal(evs) && id in History(evs) && History(evs)[id].due > Exec(evs).clock
    requires History(evs)[id].place == Stored(InActive)
             || History(evs)[id].place == Stored(InQueue(History(evs)[id].job.queue))
    ensures History(evs)[id].job.attempts >= 1
  {
    RunPunctual(evs);
    assert OnTime(History(evs)[id], Exec(evs).clock);
  }

  // ---------- the first wait ----------

  /** While a job is in the scheduled set it is as it was enqueued; once it is not, it is due. */
  predicate FirstWait(l: Ledger, clock: Time, job: Job) {
    && job.id in l
    && if l[job.id].place == Stored(InScheduled) then l[job.id].job == job && l[job.id].due == job.processAt
       else job.processAt <= clock
  }

  lemma FirstWaitStep(s: State, l: Ledger, e: Event, job: Job)
    requires Enabled(s, e) && Lawful(l, e) && Punctual(s, l) && FirstWait(l, s.clock, job)
    ensures FirstWait(Note(l, e), Apply(s, e).clock, job)
  {
    if e.Promote? && e.id == job.id {
      assert ListingDue(l, s.clock, s.calls[e.tok]);
    }
  }

  lemma {:induction false} FirstWaitKept(evs: seq<Event>, k: nat)
    requires Legal(evs) && k < |evs| && evs[k].Enqueue?
    ensures FirstWait(History(evs), Exec(evs).clock, evs[k].job)
    decreases |evs|
  {
    if k < |evs| - 1 {
      var f := Front(evs);
      assert f[k] == evs[k];
      FirstWaitKept(f, k);
      LastLawful(evs);
      RunPunctual(f);
      FirstWaitStep(Exec(f), History(f), Last(evs), evs[k].job);
    }
  }
}
