/** With one promotion pass at a time no job runs before its time. promoteJobScript claims by
    ID only and does not look at the score again, so the single scheduler is needed. */
module SoloScheduler {
  import opened Jobs
  import opened RedisStore
  import opened Lifecycle
  import opened Invariant

  ghost predicate PassRunning(s: State) {
    exists t :: t in s.calls && s.calls[t].Promoting?
  }

  /** The run never starts a promotion pass while another one is in progress. */
  ghost predicate Solo(evs: seq<Event>)
    requires Legal(evs)
  {
    evs == [] || (Solo(Front(evs)) && (Last(evs).PassBegin? ==> !PassRunning(Exec(Front(evs)))))
  }

  /** The IDs a pass has listed and not yet handled are still in the set they were listed
      from, with scores that were due when the pass began. */
  ghost predicate Current(s: Store, c: Call) {
    c.Promoting? ==>
      && (forall i | 0 <= i < |c.due| :: c.due[i] in Members(s, c.src) && Members(s, c.src)[c.due[i]] <= c.now)
      && (forall i, j | 0 <= i < j < |c.due| :: c.due[i] != c.due[j])
  }

  ghost predicate SinglePass(s: State) {
    && (forall t, u | t in s.calls && u in s.calls && s.calls[t].Promoting? && s.calls[u].Promoting? :: t == u)
    && (forall t | t in s.calls :: Current(s.store, s.calls[t]))
  }

  /** A job in a queue or in somebody's hands is due. */
  ghost predicate Timely(l: Ledger, clock: Time) {
    forall id | id in l && (l[id].place == Stored(InActive) || l[id].place == Stored(InQueue(l[id].job.queue))) ::
      l[id].due <= clock
  }

  ghost predicate SoloOk(s: State, l: Ledger) {
    SinglePass(s) && Timely(l, s.clock)
  }

  lemma WaitingUntouched(s: State, e: Event)
    requires Enabled(s, e) && !e.Enqueue? && !e.Requeue? && !e.Promote?
    ensures Apply(s, e).store.scheduled == s.store.scheduled && Apply(s, e).store.retry == s.store.retry
  {
  }

  lemma MembersFrame(s: State, e: Event, src: Source, id: Id)
    requires Enabled(s, e) && id in Members(s.store, src)
    requires (e.Enqueue? || e.Requeue?) ==> e.job.id != id
    requires e.Promote? ==> e.id != id
    ensures id in Members(Apply(s, e).store, src)
    ensures Members(Apply(s, e).store, src)[id] == Members(s.store, src)[id]
  {
    if !e.Enqueue? && !e.Requeue? && !e.Promote? {
      WaitingUntouched(s, e);
    }
  }

  /** Except for the ID a promotion claims, nothing leaves a waiting set or changes its score. */
  lemma MembersStay(s: State, l: Ledger, e: Event, src: Source, id: Id)
    requires Coupled(s, l) && Enabled(s, e) && id in Members(s.store, src)
    requires e.Promote? ==> e.id != id
    ensures id in Members(Apply(s, e).store, src)
    ensures Members(Apply(s, e).store, src)[id] == Members(s.store, src)[id]
  {
    StoredAt(s.store, l, id, LocOf(src));
    StepLawful(s, l, e);
    MembersFrame(s, e, src, id);
  }

  lemma CurrentStays(s: State, l: Ledger, e: Event, c: Call)
    requires Coupled(s, l) && Enabled(s, e) && Current(s.store, c) && !e.Promote?
    ensures Current(Apply(s, e).store, c)
  {
    if c.Promoting? {
      forall i | 0 <= i < |c.due|
        ensures c.due[i] in Members(Apply(s, e).store, c.src) && Members(Apply(s, e).store, c.src)[c.due[i]] <= c.now
      {
        MembersStay(s, l, e, c.src, c.due[i]);
      }
    }
  }

  /** At most one pass stays at most one pass. */
  lemma OnePassStep(s: State, e: Event, t: Token, u: Token)
    requires Enabled(s, e) && SinglePass(s) && (e.PassBegin? ==> !PassRunning(s))
    requires t in Apply(s, e).calls && u in Apply(s, e).calls
    requires Apply(s, e).calls[t].Promoting? && Apply(s, e).calls[u].Promoting?
    ensures t == u
  {
  }

  lemma PassCurrent(s: State, l: Ledger, e: Event, u: Token)
    requires Coupled(s, l) && Enabled(s, e) && SinglePass(s) && u in Apply(s, e).calls
    ensures Current(Apply(s, e).store, Apply(s, e).calls[u])
  {
    if e.Promote? {
      if u == e.tok {
        PromoteCurrent(s, l, e);
      }
    } else if u in s.calls && Apply(s, e).calls[u] == s.calls[u] {
      CurrentStays(s, l, e, s.calls[u]);
    }
  }

  lemma SinglePassStep(s: State, l: Ledger, e: Event)
    requires Coupled(s, l) && Enabled(s, e) && SinglePass(s)
    requires e.PassBegin? ==> !PassRunning(s)
    ensures SinglePass(Apply(s, e))
  {
    var t := Apply(s, e);
    forall u, v | u in t.calls && v in t.calls && t.calls[u].Promoting? && t.calls[v].Promoting? ensures u == v {
      OnePassStep(s, e, u, v);
    }
    forall u | u in t.calls ensures Current(t.store, t.calls[u]) {
      PassCurrent(s, l, e, u);
    }
  }

  lemma PromoteCurrent(s: State, l: Ledger, e: Event)
    requires Coupled(s, l) && Enabled(s, e) && e.Promote? && Current(s.store, s.calls[e.tok])
    ensures Current(Apply(s, e).store, Apply(s, e).calls[e.tok])
  {
    var t, c := Apply(s, e), s.calls[e.tok];
    var d := t.calls[e.tok];
    forall i | 0 <= i < |d.due|
      ensures d.due[i] in Members(t.store, d.src) && Members(t.store, d.src)[d.due[i]] <= d.now
    {
      assert d.due[i] == c.due[i + 1] != c.due[0];
      MembersStay(s, l, e, c.src, c.due[i + 1]);
    }
  }

  /** A promotion leaves every queued job due if and only if the score it claims has come:
      the check the script does not make. */
  lemma PromoteTimelyIff(s: State, l: Ledger, e: Event)
    requires Coupled(s, l) && Enabled(s, e) && Timely(l, s.clock) && e.Promote? && e.moved
    ensures e.id in Members(s.store, e.src)
    ensures Timely(Note(l, e), s.clock) <==> Members(s.store, e.src)[e.id] <= s.clock
  {
    PromoteMoves(s, l, e.src, e.id);
    assert KeptAt(s.store, e.id, l[e.id]) && EntryOk(e.id, l[e.id]);
    var l' := Note(l, e);
    if Timely(l', s.clock) {
      assert l'[e.id].place == Stored(InQueue(l'[e.id].job.queue));
    }
  }

  /** Every event but a promotion puts only due jobs where they can run. */
  lemma OtherTimely(l: Ledger, clock: Time, e: Event)
    requires Timely(l, clock) && Lawful(l, e) && Sound(l) && !e.Promote?
    requires (e.Enqueue? || e.Revive?) ==> e.now <= clock
    ensures Timely(Note(l, e), clock)
  {
    if e.Pop? {
      assert EntryOk(e.id, l[e.id]);
    }
  }

  lemma TimelyStep(s: State, l: Ledger, e: Event)
    requires Coupled(s, l) && Enabled(s, e) && SoloOk(s, l)
    ensures Timely(Note(l, e), Apply(s, e).clock)
  {
    StepLawful(s, l, e);
    if !e.Promote? {
      OtherTimely(l, s.clock, e);
    } else if e.moved {
      assert Current(s.store, s.calls[e.tok]) && CallOk(l, s.clock, s.calls[e.tok]);
      PromoteTimelyIff(s, l, e);
    }
  }

  /** In every state of every run with a single scheduler, each job in a queue list or in the
      active set has reached the time it was told to wait for. */
  lemma {:induction false} NeverEarly(evs: seq<Event>)
    requires Legal(evs) && Solo(evs)
    ensures SoloOk(Exec(evs), History(evs))
  {
    if evs != [] {
      var f, e := Front(evs), Last(evs);
      NeverEarly(f);
      RunCoupled(f);
      SinglePassStep(Exec(f), History(f), e);
      TimelyStep(Exec(f), History(f), e);
    }
  }
}
