/** Counting and ordering over whole runs: what goes into each structure comes out of it. */
module Flows {
  import opened Jobs
  import opened RedisStore
  import opened Lifecycle
  import opened Invariant

  // ---------- tallies ----------

  datatype Kind = Inserted | Promoted | Buried | Revived

  /** Inserted: put into the scheduled set or a retry set. Promoted: moved from there to a
      queue. Buried: put on a dead list. Revived: moved from there to a queue. */
  predicate Is(e: Event, kind: Kind, id: Id) {
    match kind
    case Inserted => (e.Enqueue? && e.job.id == id && e.job.processAt > e.now) || (e.Requeue? && e.job.id == id)
    case Promoted => e.Promote? && e.moved && e.id == id
    case Buried => e.Bury? && e.job.id == id
    case Revived => e.Revive? && e.ok && e.id == id
  }

  function Tally(evs: seq<Event>, kind: Kind, id: Id): nat {
    if evs == [] then 0 else Tally(Front(evs), kind, id) + (if Is(Last(evs), kind, id) then 1 else 0)
  }

  predicate Waits(l: Ledger, id: Id) {
    id in l && l[id].place.Stored? && (l[id].place.loc.InScheduled? || l[id].place.loc.InRetry?)
  }

  predicate IsDead(l: Ledger, id: Id) {
    id in l && l[id].place.Stored? && l[id].place.loc.InDead?
  }

  /** One event changes whether a job waits, or is dead, exactly as it is counted. */
  lemma FlowStep(l: Ledger, e: Event, id: Id)
    requires Lawful(l, e)
    ensures (if Waits(l, id) then 1 else 0) + (if Is(e, Inserted, id) then 1 else 0)
         == (if Waits(Note(l, e), id) then 1 else 0) + (if Is(e, Promoted, id) then 1 else 0)
    ensures (if IsDead(l, id) then 1 else 0) + (if Is(e, Buried, id) then 1 else 0)
         == (if IsDead(Note(l, e), id) then 1 else 0) + (if Is(e, Revived, id) then 1 else 0)
  {
  }

  lemma {:induction false} FlowBalance(evs: seq<Event>, id: Id)
    requires Legal(evs)
    ensures Tally(evs, Inserted, id) == Tally(evs, Promoted, id) + (if Waits(History(evs), id) then 1 else 0)
    ensures Tally(evs, Buried, id) == Tally(evs, Revived, id) + (if IsDead(History(evs), id) then 1 else 0)
  {
    if evs != [] {
      FlowBalance(Front(evs), id);
      LastLawful(evs);
      FlowStep(History(Front(evs)), Last(evs), id);
    }
  }

  /** Every insertion into the scheduled set or a retry set is claimed at most once, however
      many schedulers race for it: the insertions of a job are its promotions plus one while
      it waits. */
  lemma ClaimedOnce(evs: seq<Event>, id: Id)
    requires Legal(evs)
    ensures var s := Exec(evs).store;
            var waiting := id in s.scheduled || exists q :: id in ZSet(s.retry, q);
            Tally(evs, Inserted, id) == Tally(evs, Promoted, id) + (if waiting then 1 else 0)
  {
    FlowBalance(evs, id);
    RunCoupled(evs);
    var s, l := Exec(evs).store, History(evs);
    StoredAt(s, l, id, InScheduled);
    forall q ensures id in ZSet(s.retry, q) <==> Expected(l, id, InRetry(q)) == 1 {
      StoredAt(s, l, id, InRetry(q));
    }
    if Waits(l, id) && l[id].place.loc.InRetry? {
      assert id in ZSet(s.retry, l[id].place.loc.queue);
    }
  }

  /** Every burial is undone by at most one retry, however many callers ask for it. */
  lemma RevivedOnce(evs: seq<Event>, id: Id)
    requires Legal(evs)
    ensures var s := Exec(evs).store;
            var dead := id in s.jobs && s.jobs[id].status == StatusDead;
            Tally(evs, Buried, id) == Tally(evs, Revived, id) + (if dead then 1 else 0)
  {
    FlowBalance(evs, id);
    RunCoupled(evs);
    var s, l := Exec(evs).store, History(evs);
    if id in l {
      assert KeptAt(s, id, l[id]) && EntryOk(id, l[id]);
    }
  }

  // ---------- the counts returned by promotion passes ----------

  function CountOf(calls: map<Token, Call>, t: Token): nat {
    if t in calls && calls[t].Promoting? then calls[t].count else 0
  }

  /** What the passes in progress have counted so far. */
  function Pending(calls: map<Token, Call>, n: Token): nat {
    if n == 0 then 0 else Pending(calls, n - 1) + CountOf(calls, n - 1)
  }

  lemma {:induction false} PendingSame(a: map<Token, Call>, b: map<Token, Call>, n: Token)
    requires forall t: Token | t < n :: CountOf(a, t) == CountOf(b, t)
    ensures Pending(a, n) == Pending(b, n)
  {
    if n > 0 {
      PendingSame(a, b, n - 1);
    }
  }

  lemma {:induction false} PendingChange(a: map<Token, Call>, b: map<Token, Call>, tok: Token, n: Token)
    requires tok < n && forall t: Token | t < n && t != tok :: CountOf(a, t) == CountOf(b, t)
    ensures Pending(b, n) + CountOf(a, tok) == Pending(a, n) + CountOf(b, tok)
  {
    if tok == n - 1 {
      PendingSame(a, b, n - 1);
    } else {
      PendingChange(a, b, tok, n - 1);
    }
  }

  /** The counts that finished passes have returned, together. */
  function Reported(evs: seq<Event>): nat {
    if evs == [] then 0 else Reported(Front(evs)) + (if Last(evs).PassEnd? then Last(evs).count else 0)
  }

  /** All jobs moved from a waiting set to a queue. */
  function AllPromotions(evs: seq<Event>): nat {
    if evs == [] then 0 else AllPromotions(Front(evs)) + (if Last(evs).Promote? && Last(evs).moved then 1 else 0)
  }

  lemma PendingStep(s: State, e: Event)
    requires Enabled(s, e) && forall u | u in s.calls :: u < s.next
    ensures Pending(Apply(s, e).calls, Apply(s, e).next) + (if e.PassEnd? then e.count else 0)
         == Pending(s.calls, s.next) + (if e.Promote? && e.moved then 1 else 0)
  {
    var t := Apply(s, e);
    if t.next == s.next + 1 {
      PendingSame(s.calls, t.calls, s.next);
    } else if e.Tick? || e.Enqueue? {
    } else {
      PendingChange(s.calls, t.calls, e.tok, s.next);
    }
  }

  /** For any number of interleaved schedulers, the counts returned by finished passes and the
      counts of those still running sum to exactly the number of jobs moved to queues. */
  lemma {:induction false} PassCounts(evs: seq<Event>)
    requires Legal(evs)
    ensures AllPromotions(evs) == Reported(evs) + Pending(Exec(evs).calls, Exec(evs).next)
  {
    if evs != [] {
      PassCounts(Front(evs));
      RunCoupled(Front(evs));
      PendingStep(Exec(Front(evs)), Last(evs));
    }
  }

  // ---------- first in, first out ----------

  /** The ID an event pushes onto a queue, by the event and the history of the job. */
  function PushOn(l: Ledger, e: Event, q: Queue): seq<Id> {
    match e
    case Enqueue(job, now) => if job.processAt <= now && job.queue == q then [job.id] else []
    case Promote(_, _, id, moved) => if moved && id in l && l[id].job.queue == q then [id] else []
    case Revive(_, id, _, ok) => if ok && id in l && l[id].job.queue == q then [id] else []
    case _ => []
  }

  function Pushed(evs: seq<Event>, q: Queue): seq<Id> {
    if evs == [] then [] else Pushed(Front(evs), q) + PushOn(History(Front(evs)), Last(evs), q)
  }

  function Popped(evs: seq<Event>, q: Queue): seq<Id> {
    if evs == [] then []
    else Popped(Front(evs), q) + (if Last(evs).Pop? && Last(evs).queue == q then [Last(evs).id] else [])
  }

  /** The list after an event: popped at its end, or pushed at its head, or as it was. */
  ghost predicate QueueChange(before: seq<Id>, after: seq<Id>, pushed: seq<Id>, e: Event, q: Queue) {
    if e.Pop? && e.queue == q
    then before != [] && after == before[..|before| - 1] && e.id == before[|before| - 1]
    else if pushed == [] then after == before else after == pushed + before
  }

  lemma QueuesUntouched(s: State, e: Event)
    requires Enabled(s, e) && !e.Enqueue? && !e.Pop? && !e.Promote? && !e.Revive?
    ensures Apply(s, e).store.queues == s.store.queues
  {
  }

  lemma PlainQueueStep(s: State, l: Ledger, e: Event, q: Queue)
    requires Enabled(s, e) && !e.Promote? && !e.Revive?
    ensures QueueChange(List(s.store.queues, q), List(Apply(s, e).store.queues, q), PushOn(l, e, q), e, q)
  {
    if !e.Enqueue? && !e.Pop? {
      QueuesUntouched(s, e);
    }
  }

  lemma PromoteQueueStep(s: State, l: Ledger, e: Event, q: Queue)
    requires Coupled(s, l) && Enabled(s, e) && e.Promote?
    ensures QueueChange(List(s.store.queues, q), List(Apply(s, e).store.queues, q), PushOn(l, e, q), e, q)
  {
    PromoteMoves(s, l, e.src, e.id);
  }

  lemma ReviveQueueStep(s: State, l: Ledger, e: Event, q: Queue)
    requires Coupled(s, l) && Enabled(s, e) && e.Revive?
    ensures QueueChange(List(s.store.queues, q), List(Apply(s, e).store.queues, q), PushOn(l, e, q), e, q)
  {
    assert CallOk(l, s.clock, s.calls[e.tok]);
    ResetOfStaleRead(s.calls[e.tok].read, l[e.id].job, e.now);
  }

  /** What one event does to one queue list. */
  lemma QueueStep(s: State, l: Ledger, e: Event, q: Queue)
    requires Coupled(s, l) && Enabled(s, e)
    ensures QueueChange(List(s.store.queues, q), List(Apply(s, e).store.queues, q), PushOn(l, e, q), e, q)
  {
    if e.Promote? {
      PromoteQueueStep(s, l, e, q);
    } else if e.Revive? {
      ReviveQueueStep(s, l, e, q);
    } else {
      PlainQueueStep(s, l, e, q);
    }
  }

  lemma FifoStep(pushed: seq<Id>, popped: seq<Id>, before: seq<Id>, after: seq<Id>, x: seq<Id>, e: Event, q: Queue)
    requires pushed == popped + Reverse(before) && QueueChange(before, after, x, e, q)
    requires |x| <= 1 && (e.Pop? ==> x == [])
    ensures pushed + x == popped + (if e.Pop? && e.queue == q then [e.id] else []) + Reverse(after)
  {
    if e.Pop? && e.queue == q {
      assert before == after + [e.id];
      ReverseSnoc(after, e.id);
    } else if |x| == 1 {
      assert after[1..] == before;
    } else {
      assert after == before;
    }
  }

  /** Queues are first in, first out over whole runs: everything ever pushed on a queue, by
      Enqueue, by promotion or by a dead-letter retry, is everything ever popped from it
      followed by the current list read from its pop end. */
  lemma {:induction false} Fifo(evs: seq<Event>, q: Queue)
    requires Legal(evs)
    ensures Pushed(evs, q) == Popped(evs, q) + Reverse(List(Exec(evs).store.queues, q))
  {
    if evs != [] {
      var f, e := Front(evs), Last(evs);
      Fifo(f, q);
      RunCoupled(f);
      QueueStep(Exec(f), History(f), e, q);
      FifoStep(Pushed(f, q), Popped(f, q), List(Exec(f).store.queues, q), List(Exec(evs).store.queues, q),
               PushOn(History(f), e, q), e, q);
    }
  }
}
