/** What the queue statistics mean in a reachable store. */
module StatsMeaning {
  import opened Jobs
  import opened RedisStore
  import opened Lifecycle
  import opened Invariant
  import opened Conservation
  import opened Statistics

  /** The jobs the history places somewhere, that is, enqueued and not acknowledged. */
  function Placed(l: Ledger): set<Id> {
    set id | id in l && l[id].place.Stored?
  }

  function PlacedAt(l: Ledger, q: Queue, loc: Loc): set<Id> {
    set id | id in l && l[id].place == Stored(loc) && l[id].job.queue == q
  }

  function PlacedIn(l: Ledger, q: Queue): set<Id> {
    set id | id in Placed(l) && l[id].job.queue == q
  }

  /** A list without repetitions is as long as its set of elements. */
  lemma {:induction false} DistinctLength(ids: seq<Id>)
    requires forall id :: Count(ids, id) <= 1
    ensures |ids| == |IdSet(ids)|
  {
    if ids == [] {
      assert IdSet(ids) == {};
    } else {
      var head, rest := ids[0], ids[1..];
      assert ids == [head] + rest;
      forall id ensures Count(rest, id) <= 1 {
        CountPush(rest, head, id);
      }
      CountPush(rest, head, head);
      DistinctLength(rest);
      assert IdSet(ids) == IdSet(rest) + {head} && head !in IdSet(rest);
    }
  }

  lemma QueueLength(s: Store, l: Ledger, q: Queue)
    requires Located(s, l) && Sound(l)
    ensures |List(s.queues, q)| == |PlacedAt(l, q, InQueue(q))|
  {
    var ids := List(s.queues, q);
    forall id ensures Count(ids, id) <= 1 && (id in ids <==> id in PlacedAt(l, q, InQueue(q))) {
      StoredAt(s, l, id, InQueue(q));
      assert id in l ==> EntryOk(id, l[id]);
    }
    DistinctLength(ids);
    assert IdSet(ids) == PlacedAt(l, q, InQueue(q));
  }

  lemma DeadLength(s: Store, l: Ledger, q: Queue)
    requires Located(s, l) && Sound(l)
    ensures |List(s.dead, q)| == |PlacedAt(l, q, InDead(q))|
  {
    var ids := List(s.dead, q);
    forall id ensures Count(ids, id) <= 1 && (id in ids <==> id in PlacedAt(l, q, InDead(q))) {
      StoredAt(s, l, id, InDead(q));
      assert id in l ==> EntryOk(id, l[id]);
    }
    DistinctLength(ids);
    assert IdSet(ids) == PlacedAt(l, q, InDead(q));
  }

  lemma SetSizes(s: Store, l: Ledger, q: Queue)
    requires Located(s, l) && Kept(s, l) && Sound(l)
    ensures |ZSet(s.retry, q)| == |PlacedAt(l, q, InRetry(q))|
    ensures |OwnedBy(s.jobs, s.scheduled.Keys, q)| == |PlacedAt(l, q, InScheduled)|
    ensures |OwnedBy(s.jobs, s.active.Keys, q)| == |PlacedAt(l, q, InActive)|
  {
    forall id
      ensures id in ZSet(s.retry, q) <==> id in PlacedAt(l, q, InRetry(q))
      ensures id in OwnedBy(s.jobs, s.scheduled.Keys, q) <==> id in PlacedAt(l, q, InScheduled)
      ensures id in OwnedBy(s.jobs, s.active.Keys, q) <==> id in PlacedAt(l, q, InActive)
    {
      StoredAt(s, l, id, InRetry(q));
      StoredAt(s, l, id, InScheduled);
      StoredAt(s, l, id, InActive);
      assert id in l ==> EntryOk(id, l[id]) && KeptAt(s, id, l[id]);
    }
    assert ZSet(s.retry, q).Keys == PlacedAt(l, q, InRetry(q));
    assert OwnedBy(s.jobs, s.scheduled.Keys, q) == PlacedAt(l, q, InScheduled);
    assert OwnedBy(s.jobs, s.active.Keys, q) == PlacedAt(l, q, InActive);
  }

  lemma TwoParts(a: set<Id>, b: set<Id>)
    requires a !! b
    ensures |a + b| == |a| + |b|
  {
  }

  lemma FiveParts(a: set<Id>, b: set<Id>, c: set<Id>, d: set<Id>, e: set<Id>)
    requires a !! b && a + b !! c && a + b + c !! d && a + b + c + d !! e
    ensures |a + b + c + d + e| == |a| + |b| + |c| + |d| + |e|
  {
    TwoParts(a, b);
    TwoParts(a + b, c);
    TwoParts(a + b + c, d);
    TwoParts(a + b + c + d, e);
  }

  lemma PlacesCover(l: Ledger, q: Queue)
    requires Sound(l)
    ensures PlacedIn(l, q) == PlacedAt(l, q, InQueue(q)) + PlacedAt(l, q, InRetry(q)) + PlacedAt(l, q, InScheduled)
                              + PlacedAt(l, q, InActive) + PlacedAt(l, q, InDead(q))
  {
    forall id | id in PlacedIn(l, q)
      ensures l[id].place in {Stored(InQueue(q)), Stored(InRetry(q)), Stored(InScheduled), Stored(InActive),
                              Stored(InDead(q))}
    {
      assert EntryOk(id, l[id]);
    }
  }

  /** Every placed job of a queue is at exactly one of the five kinds of place. */
  lemma FivePlaces(l: Ledger, q: Queue)
    requires Sound(l)
    ensures |PlacedIn(l, q)| == |PlacedAt(l, q, InQueue(q))| + |PlacedAt(l, q, InRetry(q))|
                                + |PlacedAt(l, q, InScheduled)|
                                + |PlacedAt(l, q, InActive)| + |PlacedAt(l, q, InDead(q))|
  {
    PlacesCover(l, q);
    FiveParts(PlacedAt(l, q, InQueue(q)), PlacedAt(l, q, InRetry(q)), PlacedAt(l, q, InScheduled),
              PlacedAt(l, q, InActive),
              PlacedAt(l, q, InDead(q)));
  }

  /** In every reachable store, each number is the count of the jobs at that place whose record
      names the queue, and together they count every job of the queue once. */
  lemma RecountMeans(evs: seq<Event>, q: Queue)
    requires Legal(evs)
    ensures var l, r := History(evs), Recount(Exec(evs).store, q);
            && r.enqueued == |PlacedAt(l, q, InQueue(q))| && r.retry == |PlacedAt(l, q, InRetry(q))|
            && r.scheduled == |PlacedAt(l, q, InScheduled)| && r.active == |PlacedAt(l, q, InActive)|
            && r.dead == |PlacedAt(l, q, InDead(q))| && r.Sum() == |PlacedIn(l, q)|
            && r.Sum() == r.enqueued + r.retry + r.scheduled + r.active + r.dead && r.queue == q && r.error == 0
  {
    RunCoupled(evs);
    var s, l := Exec(evs).store, History(evs);
    QueueLength(s, l, q);
    DeadLength(s, l, q);
    SetSizes(s, l, q);
    FivePlaces(l, q);
  }

  ghost function Pick(stats: Stats): (q: Queue)
    requires stats != map[]
    ensures q in stats
  {
    var q :| q in stats;
    q
  }

  /** All numbers of all queues together. */
  ghost function GrandTotal(stats: Stats): nat
    decreases |stats|
  {
    if stats == map[] then 0 else
    var q := Pick(stats);
    stats[q].Sum() + GrandTotal(stats - {q})
  }

  /** Those of the jobs whose record names the queue. */
  function Of(l: Ledger, ids: set<Id>, q: Queue): set<Id> {
    set id | id in ids && id in l && l[id].job.queue == q
  }

  lemma OfRest(l: Ledger, ids: set<Id>, q: Queue, k: Queue)
    requires k != q
    ensures Of(l, ids - Of(l, ids, q), k) == Of(l, ids, k)
  {
  }

  lemma OfSplit(l: Ledger, ids: set<Id>, q: Queue)
    ensures |ids| == |Of(l, ids, q)| + |ids - Of(l, ids, q)|
  {
    TwoParts(Of(l, ids, q), ids - Of(l, ids, q));
    assert ids == Of(l, ids, q) + (ids - Of(l, ids, q));
  }

  /** Counting a set queue by queue counts it once. */
  lemma {:induction false} SumOverQueues(stats: Stats, l: Ledger, ids: set<Id>)
    requires forall id | id in ids :: id in l && l[id].job.queue in stats
    requires forall q | q in stats :: stats[q].Sum() == |Of(l, ids, q)|
    ensures GrandTotal(stats) == |ids|
    decreases |stats|
  {
    if stats == map[] {
      assert ids == {};
    } else {
      var q := Pick(stats);
      var rest := ids - Of(l, ids, q);
      forall k | k in stats - {q} ensures (stats - {q})[k].Sum() == |Of(l, rest, k)| {
        OfRest(l, ids, q, k);
      }
      SumOverQueues(stats - {q}, l, rest);
      OfSplit(l, ids, q);
    }
  }

  /** The grand total of the statistics is the number of jobs enqueued and not yet acknowledged. */
  lemma TotalCountsEveryJob(evs: seq<Event>, stats: Stats)
    requires Legal(evs) && IsRecount(Exec(evs).store, stats)
    ensures GrandTotal(stats) == |Placed(History(evs))|
    ensures forall id :: id in Placed(History(evs)) <==> Conservation.Enqueued(evs, id) && !Acknowledged(evs, id)
  {
    var s, l := Exec(evs).store, History(evs);
    var ids := Placed(l);
    forall id ensures id in ids <==> Conservation.Enqueued(evs, id) && !Acknowledged(evs, id) {
      HistoryMeans(evs, id);
    }
    forall q ensures Recount(s, q).Sum() == |Of(l, ids, q)| {
      RecountMeans(evs, q);
      assert PlacedIn(l, q) == Of(l, ids, q);
    }
    forall id | id in ids ensures l[id].job.queue in stats {
      assert id in Of(l, ids, l[id].job.queue);
    }
    SumOverQueues(stats, l, ids);
  }
}
