/** GetQueueStats: what its scans and loops compute, and what the numbers mean. */
module Statistics {
  import opened Jobs
  import opened RedisStore

  datatype QueueStats = QueueStats(queue: Queue, enqueued: nat, retry: nat, scheduled: nat, active: nat,
                                   error: nat, dead: nat)
  {
    function Sum(): nat { enqueued + retry + scheduled + active + dead }
  }

  type Stats = map<Queue, QueueStats>

  datatype Field = Enqueued | Retry | Scheduled | Active | Dead

  function With(s: QueueStats, f: Field, n: nat): QueueStats {
    match f
    case Enqueued => s.(enqueued := n)
    case Retry => s.(retry := n)
    case Scheduled => s.(scheduled := n)
    case Active => s.(active := n)
    case Dead => s.(dead := n)
  }

  function Value(s: QueueStats, f: Field): nat {
    match f
    case Enqueued => s.enqueued
    case Retry => s.retry
    case Scheduled => s.scheduled
    case Active => s.active
    case Dead => s.dead
  }

  /** The entry for a queue; Go reads a missing entry as zero and then names it. */
  function Cell(stats: Stats, q: Queue): QueueStats {
    if q in stats then stats[q] else QueueStats(q, 0, 0, 0, 0, 0, 0)
  }

  /** scanEach with the closure that assigns a field: SCAN may return a key several times and in
      any order, and assigning is idempotent. */
  method ScanEach(stats: Stats, keys: seq<Queue>, size: map<Queue, nat>, f: Field) returns (r: Stats)
    requires forall i | 0 <= i < |keys| :: keys[i] in size
    ensures forall q :: q in r <==> q in stats || q in keys
    ensures forall q :: Cell(r, q) == if q in keys then With(Cell(stats, q), f, size[q]) else Cell(stats, q)
  {
    r := stats;
    for i := 0 to |keys|
      invariant forall q :: q in r <==> q in stats || q in keys[..i]
      invariant forall q :: Cell(r, q) == if q in keys[..i] then With(Cell(stats, q), f, size[q]) else Cell(stats, q)
    {
      var k := keys[i];
      assert keys[..i + 1] == keys[..i] + [k];
      r := r[k := With(Cell(r, k), f, size[k])];
    }
    assert keys[..|keys|] == keys;
  }

  /** How many of the listed IDs have a record that names the queue. */
  function CountFor(jobs: map<Id, Job>, ids: seq<Id>, q: Queue): nat {
    if ids == [] then 0 else
    var last := ids[|ids| - 1];
    CountFor(jobs, ids[..|ids| - 1], q) + (if last in jobs && jobs[last].queue == q then 1 else 0)
  }

  /** One more ID. */
  lemma OneMore(jobs: map<Id, Job>, ids: seq<Id>, i: nat, q: Queue)
    requires i < |ids|
    ensures CountFor(jobs, ids[..i + 1], q)
         == CountFor(jobs, ids[..i], q) + (if ids[i] in jobs && jobs[ids[i]].queue == q then 1 else 0)
  {
    assert ids[..i + 1][..i] == ids[..i];
  }

  /** A field raised by n. */
  function Raise(s: QueueStats, f: Field, n: nat): QueueStats {
    With(s, f, Value(s, f) + n)
  }

  lemma RaiseTwice(s: QueueStats, f: Field, n: nat)
    ensures Raise(Raise(s, f, n), f, 1) == Raise(s, f, n + 1) && Raise(s, f, 0) == s
  {
  }

  /** The statistics after the first `n` IDs have been attributed. */
  ghost predicate Attributed(stats: Stats, r: Stats, jobs: map<Id, Job>, ids: seq<Id>, f: Field, q: Queue) {
    && (q in r <==> q in stats || CountFor(jobs, ids, q) > 0)
    && Cell(r, q) == Raise(Cell(stats, q), f, CountFor(jobs, ids, q))
  }

  lemma AttributeOne(stats: Stats, r: Stats, jobs: map<Id, Job>, ids: seq<Id>, i: nat, f: Field, q: Queue)
    requires i < |ids| && Attributed(stats, r, jobs, ids[..i], f, q)
    ensures ids[i] !in jobs ==> Attributed(stats, r, jobs, ids[..i + 1], f, q)
    ensures ids[i] in jobs ==>
              var k := jobs[ids[i]].queue;
              Attributed(stats, r[k := Raise(Cell(r, k), f, 1)], jobs, ids[..i + 1], f, q)
  {
    OneMore(jobs, ids, i, q);
    RaiseTwice(Cell(stats, q), f, CountFor(jobs, ids[..i], q));
  }

  /** attributeGlobalSetToQueues: one increment for every listed ID that still has a record. */
  method Attribute(stats: Stats, jobs: map<Id, Job>, ids: seq<Id>, f: Field) returns (r: Stats)
    ensures forall q :: Attributed(stats, r, jobs, ids, f, q)
  {
    r := stats;
    forall q ensures Attributed(stats, r, jobs, ids[..0], f, q) {
      RaiseTwice(Cell(stats, q), f, 0);
    }
    for i := 0 to |ids|
      invariant forall q :: Attributed(stats, r, jobs, ids[..i], f, q)
    {
      ghost var seen := ids[..i + 1];
      if ids[i] in jobs {
        var k := jobs[ids[i]].queue;
        var r' := r[k := Raise(Cell(r, k), f, 1)];
        forall q ensures Attributed(stats, r', jobs, seen, f, q) {
          AttributeOne(stats, r, jobs, ids, i, f, q);
        }
        r := r';
      } else {
        forall q ensures Attributed(stats, r, jobs, seen, f, q) {
          AttributeOne(stats, r, jobs, ids, i, f, q);
        }
      }
    }
    assert ids[..|ids|] == ids;
  }

  /** The IDs of a set whose record names the queue. */
  function OwnedBy(jobs: map<Id, Job>, ids: set<Id>, q: Queue): set<Id> {
    set id | id in ids && id in jobs && jobs[id].queue == q
  }

  /** A direct recount for one queue. */
  function Recount(s: Store, q: Queue): QueueStats {
    QueueStats(q, |List(s.queues, q)|, |ZSet(s.retry, q)|, |OwnedBy(s.jobs, s.scheduled.Keys, q)|,
               |OwnedBy(s.jobs, s.active.Keys, q)|, 0, |List(s.dead, q)|)
  }

  /** The statistics are the recount, with an entry for exactly the queues that hold a job. */
  ghost predicate IsRecount(s: Store, stats: Stats) {
    && (forall q :: q in stats <==> Recount(s, q).Sum() > 0)
    && (forall q | q in stats :: stats[q] == Recount(s, q))
  }

  /** ZRANGE 0 -1: every member once. */
  ghost predicate IsListing(z: map<Id, Time>, ids: seq<Id>) {
    (forall id :: id in ids <==> id in z) && (forall i, j | 0 <= i < j < |ids| :: ids[i] != ids[j])
  }

  /** SCAN: every existing key at least once, and nothing else. */
  ghost predicate IsScan<C>(m: map<Queue, C>, none: C, keys: seq<Queue>) {
    forall q :: q in keys <==> q in m && m[q] != none
  }

  lemma OwnedMore(jobs: map<Id, Job>, a: set<Id>, x: Id, q: Queue)
    requires x !in a
    ensures |OwnedBy(jobs, a + {x}, q)| == |OwnedBy(jobs, a, q)| + (if x in jobs && jobs[x].queue == q then 1 else 0)
  {
    if x in jobs && jobs[x].queue == q {
      assert OwnedBy(jobs, a + {x}, q) == OwnedBy(jobs, a, q) + {x};
    } else {
      assert OwnedBy(jobs, a + {x}, q) == OwnedBy(jobs, a, q);
    }
  }

  lemma {:induction false} CountForIsSize(jobs: map<Id, Job>, ids: seq<Id>, q: Queue)
    requires forall i, j | 0 <= i < j < |ids| :: ids[i] != ids[j]
    ensures CountFor(jobs, ids, q) == |OwnedBy(jobs, IdSet(ids), q)|
  {
    if ids == [] {
      assert OwnedBy(jobs, IdSet(ids), q) == {};
    } else {
      var front, last := ids[..|ids| - 1], ids[|ids| - 1];
      CountForIsSize(jobs, front, q);
      OwnedMore(jobs, IdSet(front), last, q);
      assert IdSet(ids) == IdSet(front) + {last} by {
        assert ids == front + [last];
      }
    }
  }

  lemma ListedSize(jobs: map<Id, Job>, z: map<Id, Time>, ids: seq<Id>, q: Queue)
    requires IsListing(z, ids)
    ensures CountFor(jobs, ids, q) == |OwnedBy(jobs, z.Keys, q)|
  {
    CountForIsSize(jobs, ids, q);
    assert IdSet(ids) == z.Keys;
  }

  /** A scan has stored the size of every collection in the field. */
  ghost predicate Scanned(stats: Stats, r: Stats, f: Field, q: Queue, size: nat) {
    Cell(r, q) == With(Cell(stats, q), f, size) && (q in r <==> q in stats || size > 0)
  }

  method ScanLists(stats: Stats, m: map<Queue, seq<Id>>, keys: seq<Queue>, f: Field) returns (r: Stats)
    requires IsScan(m, [], keys) && forall q :: Value(Cell(stats, q), f) == 0
    ensures forall q :: Scanned(stats, r, f, q, |List(m, q)|)
  {
    r := ScanEach(stats, keys, map q | q in m :: |m[q]|, f);
    forall q ensures Scanned(stats, r, f, q, |List(m, q)|) {
      RaiseTwice(Cell(stats, q), f, 0);
    }
  }

  method ScanSets(stats: Stats, m: map<Queue, map<Id, Time>>, keys: seq<Queue>, f: Field) returns (r: Stats)
    requires IsScan(m, map[], keys) && forall q :: Value(Cell(stats, q), f) == 0
    ensures forall q :: Scanned(stats, r, f, q, |ZSet(m, q)|)
  {
    r := ScanEach(stats, keys, map q | q in m :: |m[q]|, f);
    forall q ensures Scanned(stats, r, f, q, |ZSet(m, q)|) {
      RaiseTwice(Cell(stats, q), f, 0);
    }
  }

  /** The three scans over per-queue keys. */
  method ScanAll(s: Store, queueKeys: seq<Queue>, retryKeys: seq<Queue>, deadKeys: seq<Queue>) returns (stats: Stats)
    requires IsScan(s.queues, [], queueKeys) && IsScan(s.retry, map[], retryKeys) && IsScan(s.dead, [], deadKeys)
    ensures forall q :: Cell(stats, q) == QueueStats(q, |List(s.queues, q)|, |ZSet(s.retry, q)|, 0, 0, 0,
                                                     |List(s.dead, q)|)
    ensures forall q :: q in stats <==> Cell(stats, q).Sum() > 0
  {
    var st0 := ScanLists(map[], s.queues, queueKeys, Enqueued);
    forall q ensures Value(Cell(st0, q), Retry) == 0 { assert Scanned(map[], st0, Enqueued, q, |List(s.queues, q)|); }
    var st1 := ScanSets(st0, s.retry, retryKeys, Retry);
    forall q ensures Value(Cell(st1, q), Dead) == 0 {
      assert Scanned(map[], st0, Enqueued, q, |List(s.queues, q)|) && Scanned(st0, st1, Retry, q, |ZSet(s.retry, q)|);
    }
    stats := ScanLists(st1, s.dead, deadKeys, Dead);
    forall q
      ensures Cell(stats, q) == QueueStats(q, |List(s.queues, q)|, |ZSet(s.retry, q)|, 0, 0, 0, |List(s.dead, q)|)
      ensures q in stats <==> Cell(stats, q).Sum() > 0
    {
      assert Scanned(map[], st0, Enqueued, q, |List(s.queues, q)|) && Scanned(st0, st1, Retry, q, |ZSet(s.retry, q)|)
             && Scanned(st1, stats, Dead, q, |List(s.dead, q)|);
    }
  }

  /** GetQueueStats on a store that does not change meanwhile. The arguments after the store are
      the replies of SCAN and ZRANGE; whatever their order, and however often SCAN repeats a
      key, the result is the recount. */
  method GetQueueStats(s: Store, queueKeys: seq<Queue>, retryKeys: seq<Queue>, deadKeys: seq<Queue>,
                       scheduled: seq<Id>, active: seq<Id>) returns (stats: Stats)
    requires IsScan(s.queues, [], queueKeys) && IsScan(s.retry, map[], retryKeys) && IsScan(s.dead, [], deadKeys)
    requires IsListing(s.scheduled, scheduled) && IsListing(s.active, active)
    ensures IsRecount(s, stats)
  {
    var scanned := ScanAll(s, queueKeys, retryKeys, deadKeys);
    var waiting := Attribute(scanned, s.jobs, scheduled, Scheduled);
    stats := Attribute(waiting, s.jobs, active, Active);
    forall q ensures Cell(stats, q) == Recount(s, q) && (q in stats <==> Recount(s, q).Sum() > 0) {
      ListedSize(s.jobs, s.scheduled, scheduled, q);
      ListedSize(s.jobs, s.active, active, q);
      assert Attributed(scanned, waiting, s.jobs, scheduled, Scheduled, q);
      assert Attributed(waiting, stats, s.jobs, active, Active, q);
    }
  }
}
