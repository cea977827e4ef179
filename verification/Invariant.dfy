/** Every event of every run keeps the store in agreement with the history. */
module Invariant {
  import opened Jobs
  import opened RedisStore
  import opened Lifecycle

  /** A script that moves one ID keeps every ID where the history says, once the history
      records the move. */
  lemma ShiftLocated(s: Store, t: Store, l: Ledger, id: Id, entry: Entry, src: Option<Loc>, dst: Option<Loc>)
    requires Located(s, l) && Shifted(s, t, id, src, dst)
    requires src.Some? ==> id in l && l[id].place == Stored(src.value)
    requires src.None? ==> id !in l || l[id].place == Gone
    requires entry.place == if dst.Some? then Stored(dst.value) else Gone
    ensures Located(t, l[id := entry])
  {
    forall i, loc ensures Occ(t, i, loc) == Expected(l[id := entry], i, loc) {
      assert Occ(t, i, loc) + Hit(i, id, src, loc) == Occ(s, i, loc) + Hit(i, id, dst, loc);
      assert Occ(s, i, loc) == Expected(l, i, loc);
    }
  }

  /** Reading a place off the store and off the history is the same. */
  lemma StoredAt(s: Store, l: Ledger, id: Id, loc: Loc)
    requires Located(s, l)
    ensures Occ(s, id, loc) == Expected(l, id, loc)
  {
  }

  /** The parts of the store that concern one ID. */
  ghost predicate SameFor(s: Store, t: Store, i: Id) {
    && (i in s.jobs <==> i in t.jobs) && (i in s.jobs ==> s.jobs[i] == t.jobs[i])
    && (i in s.scheduled ==> i in t.scheduled && s.scheduled[i] == t.scheduled[i])
    && (forall q :: i in ZSet(s.retry, q) ==> i in ZSet(t.retry, q) && ZSet(s.retry, q)[i] == ZSet(t.retry, q)[i])
  }

  /** Everything the store knows about other IDs stays as it is. */
  ghost predicate OnlyAbout(s: Store, t: Store, id: Id) {
    forall i | i != id :: SameFor(s, t, i)
  }

  lemma PromoteOnlyAbout(s: Store, src: Source, id: Id)
    ensures OnlyAbout(s, PromoteScript(s, src, id).0, id)
  {
  }

  lemma RequeueOnlyAbout(s: Store, job: Job, at: Time)
    ensures OnlyAbout(s, RequeueScript(s, job, at), job.id)
  {
  }

  lemma ReviveOnlyAbout(s: Store, q: Queue, id: Id, rewritten: Job)
    ensures OnlyAbout(s, ReviveScript(s, q, id, rewritten).0, id)
  {
  }

  lemma KeptFrame(s: Store, t: Store, l: Ledger, id: Id, entry: Entry)
    requires Kept(s, l) && KeptAt(t, id, entry) && OnlyAbout(s, t, id)
    ensures Kept(t, l[id := entry])
  {
    forall i | i in l && i != id ensures KeptAt(t, i, l[i]) {
      assert KeptAt(s, i, l[i]) && SameFor(s, t, i);
    }
    forall i | i in t.jobs && i != id ensures i in l {
      assert SameFor(s, t, i);
    }
  }

  /** Calls that are not about a job do not notice that its entry changes. */
  lemma BystanderOk(l: Ledger, clock: Time, c: Call, id: Id, entry: Entry)
    requires CallOk(l, clock, c) && !Owns(c, id)
    requires id in l ==> l[id].place != Gone && Fixed(entry.job) == Fixed(l[id].job)
    ensures CallOk(l[id := entry], clock, c)
  {
  }

  /** The common shape of every step that moves a job: one ID changes place, its entry is in
      order, and every call is either new and in order or a bystander. */
  lemma MoveKeeps(s: State, l: Ledger, t: State, id: Id, entry: Entry, src: Option<Loc>, dst: Option<Loc>)
    requires Coupled(s, l)
    requires Shifted(s.store, t.store, id, src, dst)
    requires src.Some? ==> id in l && l[id].place == Stored(src.value)
    requires src.None? ==> id !in l
    requires entry.place == if dst.Some? then Stored(dst.value) else Gone
    requires KeptAt(t.store, id, entry) && OnlyAbout(s.store, t.store, id)
    requires EntryOk(id, entry) && (id in l ==> Fixed(entry.job) == Fixed(l[id].job))
    requires t.clock == s.clock && t.issued == s.issued + {id}
    requires forall u | u in t.calls :: u < t.next
    requires forall u | u in t.calls :: (u in s.calls && t.calls[u] == s.calls[u] && !Owns(s.calls[u], id))
                                        || CallOk(l[id := entry], t.clock, t.calls[u])
    requires SoleOwners(t)
    ensures Coupled(t, l[id := entry])
  {
    ShiftLocated(s.store, t.store, l, id, entry, src, dst);
    KeptFrame(s.store, t.store, l, id, entry);
    forall u | u in t.calls ensures CallOk(l[id := entry], t.clock, t.calls[u]) {
      if u in s.calls && t.calls[u] == s.calls[u] && !Owns(s.calls[u], id) {
        BystanderOk(l, s.clock, s.calls[u], id, entry);
      }
    }
  }

  /** Steps that touch neither the history nor the store, but advance one call. */
  lemma LocalKeeps(s: State, l: Ledger, t: State)
    requires Coupled(s, l)
    requires t.store == s.store && t.issued == s.issued && s.clock <= t.clock
    requires forall u | u in t.calls ::
               u < t.next && ((u in s.calls && t.calls[u] == s.calls[u]) || CallOk(l, t.clock, t.calls[u]))
    requires SoleOwners(t)
    ensures Coupled(t, l)
  {
  }

  lemma EnqueueKeeps(s: State, l: Ledger, e: Event)
    requires Coupled(s, l) && Enabled(s, e) && e.Enqueue?
    ensures Coupled(Apply(s, e), Note(l, e))
  {
    var job := e.job;
    StoredAt(s.store, l, job.id, InScheduled);
    EnqueueShifts(s.store, job, e.now);
    forall u | u in s.calls ensures !Owns(s.calls[u], job.id) {
      assert CallOk(l, s.clock, s.calls[u]);
    }
    MoveKeeps(s, l, Apply(s, e), job.id, Note(l, e)[job.id], None,
              Some(if job.processAt <= e.now then InQueue(job.queue) else InScheduled));
  }

  /** A job that is not active is in nobody's hands. */
  lemma NobodyOwns(s: State, l: Ledger, id: Id)
    requires Coupled(s, l) && !IsActive(l, id)
    ensures forall u | u in s.calls :: !Owns(s.calls[u], id)
  {
    forall u | u in s.calls ensures !Owns(s.calls[u], id) {
      assert CallOk(l, s.clock, s.calls[u]);
    }
  }

  lemma PopOnlyAbout(s: Store, q: Queue, deadline: Time, id: Id)
    requires PopScript(s, q, deadline).1 == Some(id)
    ensures OnlyAbout(s, PopScript(s, q, deadline).0, id)
  {
  }

  /** A call about a job that nobody else has in hand may take it there, or leave it. */
  lemma NewSoleOwner(s: State, t: State, tok: Token, c: Call, id: Id)
    requires SoleOwners(s) && t.calls == s.calls[tok := c]
    requires forall i :: Owns(c, i) ==> i == id
    requires forall u | u in s.calls && u != tok :: !Owns(s.calls[u], id)
    ensures SoleOwners(t)
  {
  }

  lemma PopKeeps(s: State, l: Ledger, e: Event)
    requires Coupled(s, l) && Enabled(s, e) && e.Pop?
    ensures Coupled(Apply(s, e), Note(l, e))
  {
    StoredAt(s.store, l, e.id, InQueue(e.queue));
    StoredAt(s.store, l, e.id, InActive);
    NobodyOwns(s, l, e.id);
    NewSoleOwner(s, Apply(s, e), e.tok, Popping(e.id), e.id);
    PopShifts(s.store, e.queue, e.deadline);
    PopOnlyAbout(s.store, e.queue, e.deadline, e.id);
    assert EntryOk(e.id, l[e.id]) && KeptAt(s.store, e.id, l[e.id]);
    MoveKeeps(s, l, Apply(s, e), e.id, Note(l, e)[e.id], Some(InQueue(e.queue)), Some(InActive));
  }

  lemma ReadKeeps(s: State, l: Ledger, e: Event)
    requires Coupled(s, l) && Enabled(s, e) && e.Read?
    ensures Coupled(Apply(s, e), Note(l, e))
  {
    assert CallOk(l, s.clock, s.calls[e.tok]) && KeptAt(s.store, e.id, l[e.id]) && EntryOk(e.id, l[e.id]);
    LocalKeeps(s, l, Apply(s, e));
  }

  /** Writing down the time of a failure changes no place, no record and no due time. */
  lemma StampKeeps(s: State, l: Ledger, id: Id, now: Time)
    requires Coupled(s, l) && id in l
    ensures Coupled(s, l[id := l[id].(firstFailure := now)])
  {
    var l' := l[id := l[id].(firstFailure := now)];
    forall i, loc ensures Occ(s.store, i, loc) == Expected(l', i, loc) {
      StoredAt(s.store, l, i, loc);
    }
    forall u | u in s.calls ensures CallOk(l', s.clock, s.calls[u]) {
      assert CallOk(l, s.clock, s.calls[u]);
    }
    forall i | i in l' ensures KeptAt(s.store, i, l'[i]) && EntryOk(i, l'[i]) {
      assert KeptAt(s.store, i, l[i]) && EntryOk(i, l[i]);
    }
  }

  lemma FailKeeps(s: State, l: Ledger, e: Event)
    requires Coupled(s, l) && Enabled(s, e) && e.Fail?
    ensures Coupled(Apply(s, e), Note(l, e))
  {
    assert CallOk(l, s.clock, s.calls[e.tok]) && EntryOk(e.job.id, l[e.job.id]);
    LocalKeeps(s, l, Apply(s, e));
    if e.job.attempts == 0 {
      StampKeeps(Apply(s, e), l, e.job.id, e.now);
    }
  }

  lemma RejectKeeps(s: State, l: Ledger, e: Event)
    requires Coupled(s, l) && Enabled(s, e) && e.Reject?
    ensures Coupled(Apply(s, e), Note(l, e))
  {
    assert CallOk(l, s.clock, s.calls[e.tok]) && EntryOk(e.job.id, l[e.job.id]);
    LocalKeeps(s, l, Apply(s, e));
  }

  /** Only the call that has a job in its hands has it there. */
  lemma OnlyOwner(s: State, tok: Token, id: Id)
    requires SoleOwners(s) && tok in s.calls && Owns(s.calls[tok], id)
    ensures forall u | u in s.calls && u != tok :: !Owns(s.calls[u], id)
  {
  }

  lemma RequeueKeeps(s: State, l: Ledger, e: Event)
    requires Coupled(s, l) && Enabled(s, e) && e.Requeue?
    ensures Coupled(Apply(s, e), Note(l, e))
  {
    var job := e.job;
    assert CallOk(l, s.clock, s.calls[e.tok]) && EntryOk(job.id, l[job.id]);
    StoredAt(s.store, l, job.id, InActive);
    StoredAt(s.store, l, job.id, InRetry(job.queue));
    RequeueShifts(s.store, job, e.at);
    RequeueOnlyAbout(s.store, job, e.at);
    OnlyOwner(s, e.tok, job.id);
    MoveKeeps(s, l, Apply(s, e), job.id, Note(l, e)[job.id], Some(InActive), Some(InRetry(job.queue)));
  }

  lemma BuryKeeps(s: State, l: Ledger, e: Event)
    requires Coupled(s, l) && Enabled(s, e) && e.Bury?
    ensures Coupled(Apply(s, e), Note(l, e))
  {
    var job := e.job;
    assert CallOk(l, s.clock, s.calls[e.tok]) && EntryOk(job.id, l[job.id]);
    StoredAt(s.store, l, job.id, InActive);
    BuryShifts(s.store, job);
    OnlyOwner(s, e.tok, job.id);
    MoveKeeps(s, l, Apply(s, e), job.id, Note(l, e)[job.id], Some(InActive), Some(InDead(job.queue)));
  }

  lemma ReleaseKeeps(s: State, l: Ledger, e: Event)
    requires Coupled(s, l) && Enabled(s, e) && e.Release?
    ensures Coupled(Apply(s, e), Note(l, e))
  {
    assert CallOk(l, s.clock, s.calls[e.tok]) && EntryOk(e.id, l[e.id]) && KeptAt(s.store, e.id, l[e.id]);
    StoredAt(s.store, l, e.id, InActive);
    ReleaseShifts(s.store, e.id);
    OnlyOwner(s, e.tok, e.id);
    NewSoleOwner(s, Apply(s, e), e.tok, Acking(e.id), e.id);
    MoveKeeps(s, l, Apply(s, e), e.id, Note(l, e)[e.id], Some(InActive), None);
  }

  lemma ForgetKeeps(s: State, l: Ledger, e: Event)
    requires Coupled(s, l) && Enabled(s, e) && e.Forget?
    ensures Coupled(Apply(s, e), Note(l, e))
  {
    assert CallOk(l, s.clock, s.calls[e.tok]);
    var t := Apply(s, e);
    forall id, loc ensures Occ(t.store, id, loc) == Expected(l, id, loc) {
      StoredAt(s.store, l, id, loc);
    }
    KeptFrame(s.store, t.store, l, e.id, l[e.id]);
    assert l[e.id := l[e.id]] == l;
  }

  /** The record a retry was read from differs from the current one only in what the retry
      resets, so the script writes what an atomic read-and-write would have written. */
  lemma ResetOfStaleRead(read: Job, current: Job, now: Time)
    requires Fixed(read) == Fixed(current)
    ensures Reset(read, now) == Reset(current, now) && read.queue == current.queue
  {
    assert Reset(read, now) == Fixed(read).(processAt := now);
    assert Reset(current, now) == Fixed(current).(processAt := now);
    assert read.queue == Fixed(read).queue;
  }

  lemma ReviveKeeps(s: State, l: Ledger, e: Event)
    requires Coupled(s, l) && Enabled(s, e) && e.Revive?
    ensures Coupled(Apply(s, e), Note(l, e))
  {
    var read := s.calls[e.tok].read;
    assert CallOk(l, s.clock, s.calls[e.tok]) && EntryOk(e.id, l[e.id]);
    ResetOfStaleRead(read, l[e.id].job, e.now);
    StoredAt(s.store, l, e.id, InDead(read.queue));
    if e.ok {
      ReviveShifts(s.store, read.queue, e.id, Reset(read, e.now));
      ReviveOnlyAbout(s.store, read.queue, e.id, Reset(read, e.now));
      NobodyOwns(s, l, e.id);
      MoveKeeps(s, l, Apply(s, e), e.id, Note(l, e)[e.id], Some(InDead(read.queue)), Some(InQueue(read.queue)));
    } else {
      LocalKeeps(s, l, Apply(s, e));
    }
  }

  /** A member of a waiting set always has a record, so a promotion that claims it also queues it. */
  lemma PromoteMoves(s: State, l: Ledger, src: Source, id: Id)
    requires Coupled(s, l)
    ensures PromoteScript(s.store, src, id).1 <==> id in Members(s.store, src)
    ensures id in Members(s.store, src) ==> id in l && l[id].place == Stored(LocOf(src))
                                            && s.store.jobs[id] == l[id].job
  {
    StoredAt(s.store, l, id, LocOf(src));
    if id in Members(s.store, src) {
      assert KeptAt(s.store, id, l[id]);
    }
  }

  /** What a promotion that claims its ID makes of the calls and the entry. */
  ghost predicate Claims(s: State, l: Ledger, t: State, tok: Token, id: Id, entry: Entry) {
    && tok in s.calls && tok in t.calls && t.calls == s.calls[tok := t.calls[tok]]
    && t.calls[tok].Promoting? && t.calls[tok].now <= t.clock
    && id in l && entry == l[id].(place := Stored(InQueue(l[id].job.queue)))
    && t.issued == s.issued && t.clock == s.clock && t.next == s.next
  }

  lemma ClaimDoes(s: State, l: Ledger, e: Event)
    requires Enabled(s, e) && e.Promote? && e.moved && e.id in l && CallOk(l, s.clock, s.calls[e.tok])
    ensures Note(l, e) == l[e.id := Note(l, e)[e.id]]
    ensures Claims(s, l, Apply(s, e), e.tok, e.id, Note(l, e)[e.id])
    ensures Apply(s, e).store == PromoteScript(s.store, e.src, e.id).0
  {
  }

  lemma ClaimMoves(s: State, l: Ledger, t: State, tok: Token, src: Loc, id: Id, entry: Entry)
    requires Coupled(s, l) && Claims(s, l, t, tok, id, entry) && l[id].place == Stored(src) && !src.InActive?
    requires Shifted(s.store, t.store, id, Some(src), Some(InQueue(l[id].job.queue))) && OnlyAbout(s.store, t.store, id)
    requires KeptAt(t.store, id, entry) && EntryOk(id, entry)
    ensures Coupled(t, l[id := entry])
  {
    NobodyOwns(s, l, id);
    NewSoleOwner(s, t, tok, t.calls[tok], id);
    assert id in s.issued;
    MoveKeeps(s, l, t, id, entry, Some(src), Some(InQueue(l[id].job.queue)));
  }

  lemma ClaimKeeps(s: State, l: Ledger, e: Event)
    requires Coupled(s, l) && Enabled(s, e) && e.Promote? && e.moved
    requires e.id in Members(s.store, e.src) && e.id in l && l[e.id].place == Stored(LocOf(e.src))
    requires e.id in s.store.jobs && s.store.jobs[e.id] == l[e.id].job
    ensures Coupled(Apply(s, e), Note(l, e))
  {
    assert CallOk(l, s.clock, s.calls[e.tok]) && EntryOk(e.id, l[e.id]);
    ClaimDoes(s, l, e);
    PromoteShifts(s.store, e.src, e.id);
    PromoteOnlyAbout(s.store, e.src, e.id);
    ClaimMoves(s, l, Apply(s, e), e.tok, LocOf(e.src), e.id, Note(l, e)[e.id]);
  }

  lemma PromoteKeeps(s: State, l: Ledger, e: Event)
    requires Coupled(s, l) && Enabled(s, e) && e.Promote?
    ensures Coupled(Apply(s, e), Note(l, e))
  {
    PromoteMoves(s, l, e.src, e.id);
    if e.moved {
      ClaimKeeps(s, l, e);
    } else {
      assert CallOk(l, s.clock, s.calls[e.tok]);
      LocalKeeps(s, l, Apply(s, e));
    }
  }

  lemma LookUpKeeps(s: State, l: Ledger, e: Event)
    requires Coupled(s, l) && Enabled(s, e) && e.LookUp?
    ensures Coupled(Apply(s, e), Note(l, e))
  {
    assert KeptAt(s.store, e.id, l[e.id]) && EntryOk(e.id, l[e.id]);
    LocalKeeps(s, l, Apply(s, e));
  }

  lemma PassKeeps(s: State, l: Ledger, e: Event)
    requires Coupled(s, l) && Enabled(s, e) && (e.PassBegin? || e.Scan? || e.PassEnd?)
    ensures Coupled(Apply(s, e), Note(l, e))
  {
    if e.Scan? {
      assert CallOk(l, s.clock, s.calls[e.tok]);
    }
    LocalKeeps(s, l, Apply(s, e));
  }

  lemma IdleKeeps(s: State, l: Ledger, e: Event)
    requires Coupled(s, l) && Enabled(s, e) && (e.Tick? || e.Drop?)
    ensures Coupled(Apply(s, e), Note(l, e))
  {
    LocalKeeps(s, l, Apply(s, e));
  }

  lemma StepKeeps(s: State, l: Ledger, e: Event)
    requires Coupled(s, l) && Enabled(s, e)
    ensures Coupled(Apply(s, e), Note(l, e))
  {
    match e
    case Enqueue(_, _) => EnqueueKeeps(s, l, e);
    case Pop(_, _, _, _) => PopKeeps(s, l, e);
    case Read(_, _) => ReadKeeps(s, l, e);
    case Fail(_, _, _, _, _, _) => FailKeeps(s, l, e);
    case Reject(_, _, _) => RejectKeeps(s, l, e);
    case Requeue(_, _, _) => RequeueKeeps(s, l, e);
    case Bury(_, _) => BuryKeeps(s, l, e);
    case Release(_, _) => ReleaseKeeps(s, l, e);
    case Forget(_, _) => ForgetKeeps(s, l, e);
    case Revive(_, _, _, _) => ReviveKeeps(s, l, e);
    case Promote(_, _, _, _) => PromoteKeeps(s, l, e);
    case LookUp(_, _) => LookUpKeeps(s, l, e);
    case Tick(_) => IdleKeeps(s, l, e);
    case Drop(_) => IdleKeeps(s, l, e);
    case _ => PassKeeps(s, l, e);
  }

  /** In every state of every run the store agrees with the history of the run. */
  lemma {:induction false} RunCoupled(evs: seq<Event>)
    requires Legal(evs)
    ensures Coupled(Exec(evs), History(evs))
  {
    if evs != [] {
      RunCoupled(Front(evs));
      StepKeeps(Exec(Front(evs)), History(Front(evs)), Last(evs));
    }
  }

  /** What the history must say about a job for an event to happen to it. */
  predicate Lawful(l: Ledger, e: Event) {
    match e
    case Enqueue(job, _) => job.id !in l && Newborn(job)
    case Pop(_, q, id, _) => id in l && l[id].place == Stored(InQueue(q))
    case Read(_, id) => IsActive(l, id)
    case Fail(_, job, _, _, _, _) => IsActive(l, job.id) && l[job.id].job == job
    case Reject(_, job, _) => IsActive(l, job.id) && l[job.id].job == job
    case Requeue(tok, job, at) => CallOk(l, 0, Requeuing(job, at))
    case Bury(tok, job) => CallOk(l, 0, Burying(job))
    case Release(_, id) => IsActive(l, id)
    case Forget(_, id) => id in l && l[id].place == Gone
    case Revive(_, id, _, ok) => id in l && (ok <==> l[id].place == Stored(InDead(l[id].job.queue)))
    case Promote(_, src, id, moved) => moved <==> id in l && l[id].place == Stored(LocOf(src))
    case _ => true
  }

  /** What a call knows about its job allows its next step. */
  lemma CallLawful(s: State, l: Ledger, e: Event)
    requires Enabled(s, e) && (e.Read? || e.Fail? || e.Reject? || e.Requeue? || e.Bury? || e.Release? || e.Forget?)
    requires CallOk(l, s.clock, s.calls[e.tok])
    ensures Lawful(l, e)
  {
  }

  lemma ReviveLawful(s: State, l: Ledger, e: Event)
    requires Coupled(s, l) && Enabled(s, e) && e.Revive?
    ensures Lawful(l, e)
  {
    assert CallOk(l, s.clock, s.calls[e.tok]);
    ResetOfStaleRead(s.calls[e.tok].read, l[e.id].job, e.now);
    StoredAt(s.store, l, e.id, InDead(l[e.id].job.queue));
  }

  /** Events only happen to jobs whose history allows them. */
  lemma StepLawful(s: State, l: Ledger, e: Event)
    requires Coupled(s, l) && Enabled(s, e)
    ensures Lawful(l, e)
  {
    match e
    case Pop(_, q, i, _) => StoredAt(s.store, l, i, InQueue(q));
    case Read(_, _) => CallLawful(s, l, e);
    case Fail(_, _, _, _, _, _) => CallLawful(s, l, e);
    case Reject(_, _, _) => CallLawful(s, l, e);
    case Requeue(_, _, _) => CallLawful(s, l, e);
    case Bury(_, _) => CallLawful(s, l, e);
    case Release(_, _) => CallLawful(s, l, e);
    case Forget(_, _) => CallLawful(s, l, e);
    case Revive(_, _, _, _) => ReviveLawful(s, l, e);
    case Promote(_, src, i, _) =>
      PromoteMoves(s, l, src, i);
      StoredAt(s.store, l, i, LocOf(src));
    case _ =>
  }

  /** The step at the end of a run. */
  lemma LastLawful(evs: seq<Event>)
    requires Legal(evs) && evs != []
    ensures Lawful(History(Front(evs)), Last(evs)) && Sound(History(Front(evs)))
  {
    RunCoupled(Front(evs));
    StepLawful(Exec(Front(evs)), History(Front(evs)), Last(evs));
  }

  // ---------- one call among others ----------

  /** The event is a step of the call. */
  predicate About(e: Event, tok: Token) {
    !e.Tick? && !e.Enqueue? && e.tok == tok
  }

  /** A call changes only by its own steps. */
  lemma CallUntouched(s: State, e: Event, tok: Token)
    requires Enabled(s, e) && tok < s.next && !About(e, tok)
    ensures s.next <= Apply(s, e).next
    ensures tok in Apply(s, e).calls <==> tok in s.calls
    ensures tok in s.calls ==> Apply(s, e).calls[tok] == s.calls[tok]
  {
  }
}
