/** The order of delivery over whole runs: jobs that wait in one set for the same queue are dequeued
    in score order, whatever is interleaved and however many schedulers promote them. */
module Order {
  import opened Jobs
  import opened RedisStore
  import opened Lifecycle
  import opened Invariant
  import opened Conservation
  import opened Flows
  import opened Effort
  import opened SoloScheduler
  import P = Promotion
  import Agreement

  // ---------- on a queue list ----------

  lemma {:induction false} TwoCopies(l: seq<Id>, id: Id, a: nat, b: nat)
    requires a < b < |l| && l[a] == l[b] == id
    ensures Count(l, id) >= 2
  {
    assert l[1..][b - 1] == id;
    if a > 0 {
      assert l[1..][a - 1] == id;
      TwoCopies(l[1..], id, a - 1, b - 1);
    }
  }

  /** No change of a list but its own pop takes a job out of its place before another. */
  lemma PopsFirstStep(before: seq<Id>, after: seq<Id>, pushed: seq<Id>, e: Event, q: Queue, x: Id, y: Id)
    requires QueueChange(before, after, pushed, e, q) && P.PopsFirst(before, x, y) && !(e.Pop? && e.id == x)
    ensures P.PopsFirst(after, x, y)
  {
    var a, b :| 0 <= a < b < |before| && before[a] == y && before[b] == x;
    if e.Pop? && e.queue == q {
      assert after[a] == y && after[b] == x;
    } else {
      var n := |after| - |before|;
      assert after[n + a] == y && after[n + b] == x;
    }
  }

  lemma StaysQueued(before: seq<Id>, after: seq<Id>, pushed: seq<Id>, e: Event, q: Queue, x: Id)
    requires QueueChange(before, after, pushed, e, q) && x in before && !(e.Pop? && e.id == x)
    ensures x in after
  {
  }

  // ---------- from the waiting set to the queue ----------

  /** A pass that has listed the second job has listed the first before it. */
  ghost predicate Orderly(c: Call, src: Source, x: Id, y: Id) {
    c.Promoting? && c.src == src ==>
      forall b | 0 <= b < |c.due| && c.due[b] == y :: exists a :: 0 <= a < b && c.due[a] == x
  }

  /** Both jobs wait in one set, the first with the lower score, and no pass has them the other
      way round. */
  ghost predicate BothWait(s: State, src: Source, x: Id, y: Id) {
    && x in Members(s.store, src) && y in Members(s.store, src)
    && Members(s.store, src)[x] < Members(s.store, src)[y]
    && forall t | t in s.calls :: Orderly(s.calls[t], src, x, y)
  }

  ghost predicate OneQueued(s: State, src: Source, q: Queue, x: Id, y: Id) {
    x in List(s.store.queues, q) && y in Members(s.store, src)
  }

  /** The second job is behind the first: in the waiting set, left there while the first is
      queued, or behind it on the list. */
  ghost predicate Behind(s: State, src: Source, q: Queue, x: Id, y: Id) {
    BothWait(s, src, x, y) || OneQueued(s, src, q, x, y) || P.PopsFirst(List(s.store.queues, q), x, y)
  }

  predicate Bound(l: Ledger, q: Queue, id: Id) {
    id in l && l[id].job.queue == q
  }

  lemma BoundStep(l: Ledger, e: Event, q: Queue, id: Id)
    requires Lawful(l, e) && Bound(l, q, id)
    ensures Bound(Note(l, e), q, id)
  {
    IdentityStep(l, e, id);
    assert Fixed(l[id].job).queue == q;
  }

  /** A promotion of a member moves it if and only if it reads the set the member is in. */
  lemma ClaimWhere(s: State, l: Ledger, e: Event, src: Source)
    requires Coupled(s, l) && Enabled(s, e) && e.Promote? && e.id in Members(s.store, src)
    ensures e.moved <==> e.src == src
    ensures !e.moved ==> Apply(s, e).store == s.store
  {
    PromoteMoves(s, l, e.src, e.id);
    PromoteMoves(s, l, src, e.id);
  }

  /** The first of two listed members is promoted first, so an orderly pass stays orderly. */
  lemma PromoteOrderly(c: Call, d: Call, src: Source, x: Id, y: Id)
    requires c.Promoting? && c.due != [] && d.Promoting? && d.src == c.src && d.due == c.due[1..]
    requires Orderly(c, src, x, y) && (c.src == src ==> c.due[0] != x)
    ensures Orderly(d, src, x, y)
  {
    if c.src == src {
      forall b | 0 <= b < |d.due| && d.due[b] == y ensures exists a :: 0 <= a < b && d.due[a] == x {
        assert c.due[b + 1] == y;
        var a :| 0 <= a < b + 1 && c.due[a] == x;
        assert d.due[a - 1] == x;
      }
    }
  }

  /** A listing in score order is orderly. */
  lemma ScanOrderly(z: map<Id, Time>, now: Time, ids: seq<Id>, x: Id, y: Id, b: nat)
    requires IsRangeByScore(z, now, ids) && x in z && y in z && z[x] < z[y] && b < |ids| && ids[b] == y
    ensures exists a :: 0 <= a < b && ids[a] == x
  {
    assert x in ids;
    var a :| 0 <= a < |ids| && ids[a] == x;
    assert a < b;
  }

  lemma CallOrderly(s: State, e: Event, src: Source, x: Id, y: Id, u: Token)
    requires Enabled(s, e) && BothWait(s, src, x, y) && u in Apply(s, e).calls
    requires e.Promote? && e.id == x ==> e.src != src
    ensures Orderly(Apply(s, e).calls[u], src, x, y)
  {
    if e.Scan? && e.tok == u {
      var c := s.calls[u];
      if c.rest[0] == src {
        forall b | 0 <= b < |e.ids| && e.ids[b] == y ensures exists a :: 0 <= a < b && e.ids[a] == x {
          ScanOrderly(Members(s.store, src), c.now, e.ids, x, y, b);
        }
      }
    } else if e.Promote? && e.tok == u {
      PromoteOrderly(s.calls[u], Apply(s, e).calls[u], src, x, y);
    } else if u in s.calls {
      assert Orderly(s.calls[u], src, x, y);
    }
  }

  /** The waiting job is left where it is, unless this very job is promoted from there. */
  lemma MemberStays(s: State, l: Ledger, e: Event, src: Source, id: Id)
    requires Coupled(s, l) && Enabled(s, e) && id in Members(s.store, src) && !(e.Promote? && e.id == id && e.moved)
    ensures id in Members(Apply(s, e).store, src) && Members(Apply(s, e).store, src)[id] == Members(s.store, src)[id]
  {
    if e.Promote? && e.id == id {
      ClaimWhere(s, l, e, src);
    } else {
      MembersStay(s, l, e, src, id);
    }
  }

  /** While both wait, the second is never the one promoted. */
  lemma NotYet(s: State, l: Ledger, e: Event, src: Source, x: Id, y: Id)
    requires Coupled(s, l) && Enabled(s, e) && BothWait(s, src, x, y)
    ensures !(e.Promote? && e.id == y && e.moved)
  {
    if e.Promote? && e.id == y {
      assert Orderly(s.calls[e.tok], src, x, y);
      ClaimWhere(s, l, e, src);
    }
  }

  /** A promoted job is at the head of its queue's list. */
  lemma PromotedToHead(s: State, l: Ledger, e: Event, q: Queue)
    requires Coupled(s, l) && Enabled(s, e) && e.Promote? && e.moved && Bound(l, q, e.id)
    ensures List(Apply(s, e).store.queues, q) == [e.id] + List(s.store.queues, q)
  {
    QueueStep(s, l, e, q);
  }

  lemma BothWaitStep(s: State, l: Ledger, e: Event, src: Source, q: Queue, x: Id, y: Id)
    requires Coupled(s, l) && Enabled(s, e) && Bound(l, q, x) && BothWait(s, src, x, y)
    ensures BothWait(Apply(s, e), src, x, y) || OneQueued(Apply(s, e), src, q, x, y)
  {
    NotYet(s, l, e, src, x, y);
    MemberStays(s, l, e, src, y);
    if e.Promote? && e.id == x && e.moved {
      PromotedToHead(s, l, e, q);
    } else {
      MemberStays(s, l, e, src, x);
      if e.Promote? && e.id == x {
        ClaimWhere(s, l, e, src);
      }
      forall u | u in Apply(s, e).calls ensures Orderly(Apply(s, e).calls[u], src, x, y) {
        CallOrderly(s, e, src, x, y, u);
      }
    }
  }

  lemma OneQueuedStep(s: State, l: Ledger, e: Event, src: Source, q: Queue, x: Id, y: Id)
    requires Coupled(s, l) && Enabled(s, e) && Bound(l, q, y) && OneQueued(s, src, q, x, y) && !(e.Pop? && e.id == x)
    ensures OneQueued(Apply(s, e), src, q, x, y) || P.PopsFirst(List(Apply(s, e).store.queues, q), x, y)
  {
    var before, after := List(s.store.queues, q), List(Apply(s, e).store.queues, q);
    if e.Promote? && e.id == y && e.moved {
      PromotedToHead(s, l, e, q);
      var b :| 0 <= b < |before| && before[b] == x;
      assert after[0] == y && after[b + 1] == x;
    } else {
      MemberStays(s, l, e, src, y);
      QueueStep(s, l, e, q);
      StaysQueued(before, after, PushOn(l, e, q), e, q, x);
    }
  }

  lemma BehindStep(s: State, l: Ledger, e: Event, src: Source, q: Queue, x: Id, y: Id)
    requires Coupled(s, l) && Enabled(s, e) && Bound(l, q, x) && Bound(l, q, y)
    requires Behind(s, src, q, x, y) && !(e.Pop? && e.id == x)
    ensures Behind(Apply(s, e), src, q, x, y)
  {
    if BothWait(s, src, x, y) {
      BothWaitStep(s, l, e, src, q, x, y);
    } else if OneQueued(s, src, q, x, y) {
      OneQueuedStep(s, l, e, src, q, x, y);
    } else {
      QueueStep(s, l, e, q);
      PopsFirstStep(List(s.store.queues, q), List(Apply(s, e).store.queues, q), PushOn(l, e, q), e, q, x, y);
    }
  }

  /** A job that is behind another cannot be the next to be popped. */
  lemma BehindIsNotNext(s: State, l: Ledger, e: Event, src: Source, q: Queue, x: Id, y: Id)
    requires Coupled(s, l) && Enabled(s, e) && Behind(s, src, q, x, y)
    ensures !(e.Pop? && e.id == y)
  {
    if e.Pop? && e.id == y {
      StoredAt(s.store, l, y, InQueue(e.queue));
      StoredAt(s.store, l, y, InQueue(q));
      StoredAt(s.store, l, y, LocOf(src));
      var list := List(s.store.queues, q);
      var a, b :| 0 <= a < b < |list| && list[a] == y && list[b] == x;
      TwoCopies(list, y, a, |list| - 1);
    }
  }

  ghost predicate BehindAt(evs: seq<Event>, i: nat, src: Source, q: Queue, x: Id, y: Id)
    requires i <= |evs|
  {
    && Legal(evs[..i]) && Bound(History(evs[..i]), q, x) && Bound(History(evs[..i]), q, y)
    && Behind(Exec(evs[..i]), src, q, x, y)
  }

  lemma BehindAtStep(evs: seq<Event>, k: nat, src: Source, q: Queue, x: Id, y: Id)
    requires Legal(evs) && k < |evs| && BehindAt(evs, k, src, q, x, y) && !(evs[k].Pop? && evs[k].id == x)
    ensures BehindAt(evs, k + 1, src, q, x, y) && !(evs[k].Pop? && evs[k].id == y)
  {
    var s, l, e := Exec(evs[..k]), History(evs[..k]), evs[k];
    StepAt(evs, k);
    RunCoupled(evs[..k]);
    assert Lawful(l, e) by { StepLawful(s, l, e); }
    BoundStep(l, e, q, x);
    BoundStep(l, e, q, y);
    BehindStep(s, l, e, src, q, x, y);
    BehindIsNotNext(s, l, e, src, q, x, y);
    PrefixLegal(evs, k + 1);
    assert Front(evs[..k + 1]) == evs[..k] && Last(evs[..k + 1]) == e;
  }

  /** Whoever is behind another job stays there until that job is popped. */
  lemma {:induction false} NoOvertaking(evs: seq<Event>, i: nat, j: nat, src: Source, q: Queue, x: Id, y: Id)
    requires Legal(evs) && i <= j < |evs| && BehindAt(evs, i, src, q, x, y) && evs[j].Pop? && evs[j].id == y
    ensures exists k :: i <= k < j && evs[k].Pop? && evs[k].id == x
    decreases j - i
  {
    if !(evs[i].Pop? && evs[i].id == x) {
      BehindAtStep(evs, i, src, q, x, y);
      NoOvertaking(evs, i + 1, j, src, q, x, y);
    } else if i == j {
      RunCoupled(evs[..i]);
      StepAt(evs, i);
      BehindIsNotNext(Exec(evs[..i]), History(evs[..i]), evs[i], src, q, x, y);
    }
  }

  // ---------- what it means ----------

  /** First in, first out, job by job: whoever is nearer to the pop end of a queue is popped first,
      whatever else happens in between. */
  lemma QueueOrder(evs: seq<Event>, i: nat, j: nat, q: Queue, x: Id, y: Id)
    requires Legal(evs) && i <= j < |evs| && Legal(evs[..i]) && P.PopsFirst(List(Exec(evs[..i]).store.queues, q), x, y)
    requires evs[j].Pop? && evs[j].id == y
    ensures exists k :: i <= k < j && evs[k].Pop? && evs[k].id == x
  {
    var s, l := Exec(evs[..i]).store, History(evs[..i]);
    assert Bound(l, q, x) && Bound(l, q, y) by {
      RunCoupled(evs[..i]);
      StoredAt(s, l, x, InQueue(q));
      StoredAt(s, l, y, InQueue(q));
      assert EntryOk(x, l[x]) && EntryOk(y, l[y]);
    }
    NoOvertaking(evs, i, j, ScheduledSet, q, x, y);
  }

  /** Two jobs wait in the same set for the same queue, and no pass has listed the later one
      without the earlier one: with any number of schedulers and anything interleaved, passes cut
      short included, the later one is not dequeued before the earlier one has been. */
  lemma ScoreOrder(evs: seq<Event>, i: nat, j: nat, src: Source, q: Queue, x: Id, y: Id)
    requires Legal(evs) && i <= j < |evs| && Legal(evs[..i]) && BothWait(Exec(evs[..i]), src, x, y)
    requires P.Names(Exec(evs[..i]).store.jobs, x, q) && P.Names(Exec(evs[..i]).store.jobs, y, q)
    requires evs[j].Pop? && evs[j].id == y
    ensures exists k :: i <= k < j && evs[k].Pop? && evs[k].id == x
  {
    var s, l := Exec(evs[..i]), History(evs[..i]);
    assert Bound(l, q, x) && Bound(l, q, y) by {
      RunCoupled(evs[..i]);
      PromoteMoves(s, l, src, x);
      PromoteMoves(s, l, src, y);
    }
    NoOvertaking(evs, i, j, src, q, x, y);
  }

  // ---------- the condition is exact ----------

  /** In every continuation of the run the second job is dequeued only after the first. */
  ghost predicate InTurn(evs: seq<Event>, x: Id, y: Id) {
    forall run: seq<Event>, j | evs <= run && Legal(run) && |evs| <= j < |run| && run[j].Pop? && run[j].id == y ::
      exists k :: |evs| <= k < j && run[k].Pop? && run[k].id == x
  }

  /** The first job still waits, and since `from` it has not been popped. */
  ghost predicate StillWaits(evs: seq<Event>, from: nat, src: Source, x: Id) {
    && Legal(evs) && x in Members(Exec(evs).store, src)
    && forall k | from <= k < |evs| :: !(evs[k].Pop? && evs[k].id == x)
  }

  lemma WaitsOn(evs: seq<Event>, from: nat, e: Event, src: Source, x: Id)
    requires StillWaits(evs, from, src, x) && Enabled(Exec(evs), e) && !(e.Promote? && e.id == x)
    ensures StillWaits(evs + [e], from, src, x)
  {
    var s, l := Exec(evs), History(evs);
    Extend(evs, e);
    RunCoupled(evs);
    MemberStays(s, l, e, src, x);
    if e.Pop? {
      StoredAt(s.store, l, x, LocOf(src));
      StoredAt(s.store, l, e.id, InQueue(e.queue));
    }
  }

  /** A pass that has listed the second job without the first before it can queue it first. */
  lemma {:induction false} PromoteUpTo(evs: seq<Event>, from: nat, tok: Token, src: Source, q: Queue, x: Id, y: Id,
                                       b: nat)
    returns (es: seq<Event>)
    requires StillWaits(evs, from, src, x) && y in Members(Exec(evs).store, src) && Bound(History(evs), q, y)
    requires tok in Exec(evs).calls && Exec(evs).calls[tok].Promoting? && Exec(evs).calls[tok].src == src
    requires var due := Exec(evs).calls[tok].due; b < |due| && due[b] == y && x !in due[..b + 1]
    ensures evs <= es && StillWaits(es, from, src, x) && y in List(Exec(es).store.queues, q)
    decreases b
  {
    var s, l, c := Exec(evs), History(evs), Exec(evs).calls[tok];
    var e := Promote(tok, src, c.due[0], PromoteScript(s.store, src, c.due[0]).1);
    assert c.due[0] in c.due[..b + 1];
    WaitsOn(evs, from, e, src, x);
    Extend(evs, e);
    RunCoupled(evs);
    es := evs + [e];
    if c.due[0] == y {
      ClaimWhere(s, l, e, src);
      PromotedToHead(s, l, e, q);
    } else {
      MemberStays(s, l, e, src, y);
      StepLawful(s, l, e);
      BoundStep(l, e, q, y);
      assert forall i | 0 <= i < b :: c.due[1..][..b][i] == c.due[..b + 1][i + 1];
      es := PromoteUpTo(es, from, tok, src, q, x, y, b - 1);
    }
  }

  /** Whatever is on a queue's list can be popped by popping the list. */
  lemma {:induction false} PopUpTo(evs: seq<Event>, from: nat, src: Source, q: Queue, x: Id, y: Id)
    returns (es: seq<Event>)
    requires StillWaits(evs, from, src, x) && y in List(Exec(evs).store.queues, q)
    ensures evs < es && StillWaits(es, from, src, x) && Last(es).Pop? && Last(es).id == y
    decreases |List(Exec(evs).store.queues, q)|
  {
    var s, list := Exec(evs), List(Exec(evs).store.queues, q);
    var e := Pop(s.next, q, list[|list| - 1], 0);
    WaitsOn(evs, from, e, src, x);
    Extend(evs, e);
    es := evs + [e];
    if e.id != y {
      assert List(Exec(es).store.queues, q) == list[..|list| - 1];
      es := PopUpTo(es, from, src, q, x, y);
    }
  }

  /** If a pass in progress has the two jobs out of order, some continuation dequeues them so. */
  lemma OutOfTurn(evs: seq<Event>, tok: Token, src: Source, q: Queue, x: Id, y: Id)
    requires Legal(evs) && x in Members(Exec(evs).store, src) && y in Members(Exec(evs).store, src) && x != y
    requires P.Names(Exec(evs).store.jobs, y, q) && tok in Exec(evs).calls
    requires !Orderly(Exec(evs).calls[tok], src, x, y)
    ensures !InTurn(evs, x, y)
  {
    var due := Exec(evs).calls[tok].due;
    var b :| 0 <= b < |due| && due[b] == y && !exists a :: 0 <= a < b && due[a] == x;
    assert Bound(History(evs), q, y) by {
      RunCoupled(evs);
      PromoteMoves(Exec(evs), History(evs), src, y);
    }
    var es := PromoteUpTo(evs, |evs|, tok, src, q, x, y, b);
    var run := PopUpTo(es, |evs|, src, q, x, y);
    var j := |run| - 1;
    assert run[j].Pop? && run[j].id == y;
  }

  /** Two jobs wait in the same set for the same queue, the first with the lower score. Whatever is
      interleaved and however many schedulers there are, the second is dequeued only after the first
      if and only if no pass in progress has listed the second without the first before it. */
  lemma ScoreOrderIff(evs: seq<Event>, src: Source, q: Queue, x: Id, y: Id)
    requires Legal(evs) && x in Members(Exec(evs).store, src) && y in Members(Exec(evs).store, src)
    requires Members(Exec(evs).store, src)[x] < Members(Exec(evs).store, src)[y]
    requires P.Names(Exec(evs).store.jobs, x, q) && P.Names(Exec(evs).store.jobs, y, q)
    ensures InTurn(evs, x, y) <==> forall t | t in Exec(evs).calls :: Orderly(Exec(evs).calls[t], src, x, y)
  {
    if forall t | t in Exec(evs).calls :: Orderly(Exec(evs).calls[t], src, x, y) {
      forall run: seq<Event>, j | evs <= run && Legal(run) && |evs| <= j < |run| && run[j].Pop? && run[j].id == y
        ensures exists k :: |evs| <= k < j && run[k].Pop? && run[k].id == x
      {
        assert run[..|evs|] == evs;
        ScoreOrder(run, |evs|, j, src, q, x, y);
      }
    } else {
      var t :| t in Exec(evs).calls && !Orderly(Exec(evs).calls[t], src, x, y);
      OutOfTurn(evs, t, src, q, x, y);
    }
  }

  /** In particular, two jobs that wait while no pass is in progress are dequeued in score order. */
  lemma ScoreOrderBetweenPasses(evs: seq<Event>, src: Source, q: Queue, x: Id, y: Id)
    requires Legal(evs) && !PassRunning(Exec(evs))
    requires x in Members(Exec(evs).store, src) && y in Members(Exec(evs).store, src)
    requires Members(Exec(evs).store, src)[x] < Members(Exec(evs).store, src)[y]
    requires P.Names(Exec(evs).store.jobs, x, q) && P.Names(Exec(evs).store.jobs, y, q)
    ensures InTurn(evs, x, y)
  {
    ScoreOrderIff(evs, src, q, x, y);
  }

  // ---------- after a pass ----------

  /** After an uninterrupted pass, in every continuation of the run, the jobs it took from one
      source for one queue are dequeued in the order of their scores. */
  lemma PassOrder(evs: seq<Event>, queues: seq<Queue>, batches: seq<seq<Id>>, m: nat, a: nat, b: nat, q: Queue)
    returns (es: seq<Event>)
    requires Legal(evs) && P.Listed(Exec(evs).store, Exec(evs).clock, Sources(queues), batches)
    requires m < |batches| && a < b < |batches[m]|
    requires P.Names(Exec(evs).store.jobs, batches[m][a], q) && P.Names(Exec(evs).store.jobs, batches[m][b], q)
    ensures evs <= es && Legal(es) && es != [] && Last(es).PassEnd?
    ensures Exec(es).store == P.PassResult(Exec(evs).store, Sources(queues), batches).0
    ensures var z, x, y := Members(Exec(evs).store, Sources(queues)[m]), batches[m][a], batches[m][b];
            x in z && y in z && z[x] <= z[y]
    ensures InTurn(es, batches[m][a], batches[m][b])
  {
    var s := Exec(evs).store;
    assert P.HasRecords(s) by {
      RunCoupled(evs);
      Agreement.ReachableHasRecords(Exec(evs), History(evs));
    }
    es := Agreement.PassRuns(evs, queues, batches);
    P.ScoreOrder(s, Exec(evs).clock, Sources(queues), batches, m, a, b, q);
    var x, y := batches[m][a], batches[m][b];
    forall run: seq<Event>, j | es <= run && Legal(run) && |es| <= j < |run| && run[j].Pop? && run[j].id == y
      ensures exists k :: |es| <= k < j && run[k].Pop? && run[k].id == x
    {
      assert run[..|es|] == es;
      QueueOrder(run, |es|, j, q, x, y);
    }
  }
}
