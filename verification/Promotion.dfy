/** PromoteDueJobs run alone: what one complete pass does to the store. */
module Promotion {
  import opened Jobs
  import opened RedisStore

  /** The inner loop: one script for each listed ID, counting the successes. */
  function PromoteEach(s: Store, src: Source, ids: seq<Id>): (Store, nat)
    decreases |ids|
  {
    if ids == [] then (s, 0) else
    var (s1, moved) := PromoteScript(s, src, ids[0]);
    var (t, n) := PromoteEach(s1, src, ids[1..]);
    (t, n + (if moved then 1 else 0))
  }

  /** The outer loop: `batches[i]` is what ZRANGEBYSCORE lists for the i-th source. */
  function PassResult(s: Store, srcs: seq<Source>, batches: seq<seq<Id>>): (Store, nat)
    requires |srcs| == |batches|
    decreases |srcs|
  {
    if srcs == [] then (s, 0) else
    var (s1, n1) := PromoteEach(s, srcs[0], batches[0]);
    var (t, n) := PassResult(s1, srcs[1..], batches[1..]);
    (t, n1 + n)
  }

  /** Each batch is what its source holds when the pass reaches it. */
  ghost predicate Listed(s: Store, now: Time, srcs: seq<Source>, batches: seq<seq<Id>>)
    decreases |srcs|
  {
    |srcs| == |batches|
    && (srcs != [] ==>
          && IsRangeByScore(Members(s, srcs[0]), now, batches[0])
          && Listed(PromoteEach(s, srcs[0], batches[0]).0, now, srcs[1..], batches[1..]))
  }

  predicate Names(jobs: map<Id, Job>, id: Id, q: Queue) {
    id in jobs && jobs[id].queue == q
  }

  /** The listed IDs whose record names the queue, in order. */
  function BoundFor(jobs: map<Id, Job>, ids: seq<Id>, q: Queue): (r: seq<Id>)
    ensures forall id :: id in r <==> id in ids && id in jobs && jobs[id].queue == q
  {
    if ids == [] then [] else
    (if ids[0] in jobs && jobs[ids[0]].queue == q then [ids[0]] else []) + BoundFor(jobs, ids[1..], q)
  }

  function Flatten(batches: seq<seq<Id>>): (r: seq<Id>)
    ensures forall id :: id in r <==> exists i :: 0 <= i < |batches| && id in batches[i]
  {
    if batches == [] then [] else
    assert forall i :: 0 < i < |batches| ==> batches[i] == batches[1..][i - 1];
    batches[0] + Flatten(batches[1..])
  }

  lemma {:induction false} BoundForConcat(jobs: map<Id, Job>, a: seq<Id>, b: seq<Id>, q: Queue)
    ensures BoundFor(jobs, a + b, q) == BoundFor(jobs, a, q) + BoundFor(jobs, b, q)
  {
    if a == [] {
      assert a + b == b;
    } else {
      assert (a + b)[1..] == a[1..] + b;
      BoundForConcat(jobs, a[1..], b, q);
    }
  }

  lemma {:induction false} ReverseConcat(a: seq<Id>, b: seq<Id>)
    ensures Reverse(a + b) == Reverse(b) + Reverse(a)
  {
    if a == [] {
      assert a + b == b;
    } else {
      assert (a + b)[1..] == a[1..] + b;
      ReverseConcat(a[1..], b);
    }
  }

  /** Every member of a waiting set has a record: what reachable stores satisfy. */
  ghost predicate HasRecords(s: Store) {
    forall src, id | id in Members(s, src) :: id in s.jobs
  }

  /** What promoting some IDs may change: the waiting sets lose them, the queues gain them. */
  ghost predicate Promoted(s: Store, t: Store, ids: seq<Id>) {
    && t.jobs == s.jobs && t.dead == s.dead && t.active == s.active
    && (forall q :: List(t.queues, q) == Reverse(BoundFor(s.jobs, ids, q)) + List(s.queues, q))
  }

  lemma PromoteOne(s: Store, src: Source, id: Id)
    requires id in Members(s, src) && id in s.jobs
    ensures var (t, moved) := PromoteScript(s, src, id);
            && moved && Promoted(s, t, [id])
            && Members(t, src) == Members(s, src) - {id}
            && (forall other | other != src :: Members(t, other) == Members(s, other))
  {
    var t := PromoteScript(s, src, id).0;
    forall q ensures List(t.queues, q) == Reverse(BoundFor(s.jobs, [id], q)) + List(s.queues, q) {
      assert [id][1..] == [];
      assert BoundFor(s.jobs, [id], q) == if s.jobs[id].queue == q then [id] else [];
      assert Reverse([id]) == [id];
    }
  }

  /** An ID that another caller has claimed already is left alone; one that has lost its record is
      dropped. Neither is counted. */
  lemma PromoteNothing(s: Store, src: Source, id: Id)
    requires id !in Members(s, src) || id !in s.jobs
    ensures var (t, moved) := PromoteScript(s, src, id);
            && !moved && Promoted(s, t, [])
            && Members(t, src) == Members(s, src) - {id}
            && (forall other | other != src :: Members(t, other) == Members(s, other))
  {
  }

  lemma PromotedTrans(s: Store, t: Store, u: Store, a: seq<Id>, b: seq<Id>)
    requires Promoted(s, t, a) && Promoted(t, u, b)
    ensures Promoted(s, u, a + b)
  {
    forall q ensures List(u.queues, q) == Reverse(BoundFor(s.jobs, a + b, q)) + List(s.queues, q) {
      BoundForConcat(s.jobs, a, b, q);
      ReverseConcat(BoundFor(s.jobs, a, q), BoundFor(s.jobs, b, q));
    }
  }

  /** Promoting distinct members of one source takes exactly them out of it, queues each on its
      own queue behind what is there, in order, and counts them all. */
  lemma {:induction false} PromoteEachEffect(s: Store, src: Source, ids: seq<Id>)
    requires forall i | 0 <= i < |ids| :: ids[i] in Members(s, src) && ids[i] in s.jobs
    requires forall i, j | 0 <= i < j < |ids| :: ids[i] != ids[j]
    ensures var (t, n) := PromoteEach(s, src, ids);
            && n == |ids| && Promoted(s, t, ids)
            && Members(t, src) == Members(s, src) - IdSet(ids)
            && (forall other | other != src :: Members(t, other) == Members(s, other))
    decreases |ids|
  {
    if ids == [] {
      assert Members(s, src) - IdSet(ids) == Members(s, src);
    } else {
      var s1 := PromoteScript(s, src, ids[0]).0;
      var rest := ids[1..];
      PromoteOne(s, src, ids[0]);
      RestListed(Members(s, src), ids);
      PromoteEachEffect(s1, src, rest);
      HeadAndRest(s, s1, PromoteEach(s1, src, rest).0, src, ids);
    }
  }

  /** The head and then the rest. */
  lemma HeadAndRest(s: Store, s1: Store, t: Store, src: Source, ids: seq<Id>)
    requires ids != [] && Promoted(s, s1, [ids[0]]) && Promoted(s1, t, ids[1..])
    requires Members(s1, src) == Members(s, src) - {ids[0]} && Members(t, src) == Members(s1, src) - IdSet(ids[1..])
    requires Members(s, src) - {ids[0]} - IdSet(ids[1..]) == Members(s, src) - IdSet(ids)
    requires forall other | other != src :: Members(s1, other) == Members(s, other)
    requires forall other | other != src :: Members(t, other) == Members(s1, other)
    ensures Promoted(s, t, ids) && Members(t, src) == Members(s, src) - IdSet(ids)
    ensures forall other | other != src :: Members(t, other) == Members(s, other)
  {
    PromotedTrans(s, s1, t, [ids[0]], ids[1..]);
    assert [ids[0]] + ids[1..] == ids;
  }

  /** Taking the head of a list of members away leaves the rest to take. */
  lemma RestListed(z: map<Id, Time>, ids: seq<Id>)
    requires ids != [] && forall i | 0 <= i < |ids| :: ids[i] in z
    requires forall i, j | 0 <= i < j < |ids| :: ids[i] != ids[j]
    ensures forall i | 0 <= i < |ids[1..]| :: ids[1..][i] in z - {ids[0]}
    ensures z - {ids[0]} - IdSet(ids[1..]) == z - IdSet(ids)
  {
    assert ids == [ids[0]] + ids[1..];
    forall i | 0 <= i < |ids[1..]| ensures ids[1..][i] in z - {ids[0]} {
      assert ids[1..][i] == ids[i + 1];
    }
  }

  /** Promoting one batch leaves stores with records, and scores as they were. */
  lemma FirstBatch(s: Store, now: Time, src: Source, ids: seq<Id>, other: Source)
    requires HasRecords(s) && IsRangeByScore(Members(s, src), now, ids)
    ensures var t := PromoteEach(s, src, ids).0;
            && HasRecords(t)
            && forall id | id in Members(t, other) ::
                 id in Members(s, other) && Members(t, other)[id] == Members(s, other)[id]
  {
    PromoteEachEffect(s, src, ids);
    var t := PromoteEach(s, src, ids).0;
    forall from, id | id in Members(t, from) ensures id in t.jobs {
      assert id in Members(s, from);
    }
  }

  /** A listed source loses exactly what is due. */
  ghost predicate DueTaken(z: map<Id, Time>, now: Time, z': map<Id, Time>) {
    z' == map id | id in z && z[id] > now :: z[id]
  }

  lemma {:induction false} PassEffect(s: Store, now: Time, srcs: seq<Source>, batches: seq<seq<Id>>)
    requires HasRecords(s) && Listed(s, now, srcs, batches)
    ensures var (t, n) := PassResult(s, srcs, batches);
            && n == |Flatten(batches)| && Promoted(s, t, Flatten(batches))
            && (forall src | src in srcs :: DueTaken(Members(s, src), now, Members(t, src)))
            && (forall src | src !in srcs :: Members(t, src) == Members(s, src))
    ensures forall id :: id in Flatten(batches) <==> DueIn(s, now, srcs, id)
    decreases |srcs|
  {
    if srcs != [] {
      var src0, ids := srcs[0], batches[0];
      var z := Members(s, src0);
      var s1 := PromoteEach(s, src0, ids).0;
      PromoteEachEffect(s, src0, ids);
      assert DueTaken(z, now, Members(s1, src0));
      FirstBatch(s, now, src0, ids, src0);
      PassEffect(s1, now, srcs[1..], batches[1..]);
      PromotedTrans(s, s1, PassResult(s1, srcs[1..], batches[1..]).0, ids, Flatten(batches[1..]));
      var t := PassResult(s, srcs, batches).0;
      forall src
        ensures src in srcs ==> DueTaken(Members(s, src), now, Members(t, src))
        ensures src !in srcs ==> Members(t, src) == Members(s, src)
      {
        GlueMembers(s, s1, t, now, srcs, src);
      }
      forall id ensures id in Flatten(batches) <==> DueIn(s, now, srcs, id) {
        GlueDue(s, s1, now, srcs, ids, id);
      }
    }
  }

  /** The members of every source, when the first source and the rest of a pass are put together. */
  lemma GlueMembers(s: Store, s1: Store, t: Store, now: Time, srcs: seq<Source>, src: Source)
    requires srcs != [] && DueTaken(Members(s, srcs[0]), now, Members(s1, srcs[0]))
    requires src != srcs[0] ==> Members(s1, src) == Members(s, src)
    requires src in srcs[1..] ==> DueTaken(Members(s1, src), now, Members(t, src))
    requires src !in srcs[1..] ==> Members(t, src) == Members(s1, src)
    ensures src in srcs ==> DueTaken(Members(s, src), now, Members(t, src))
    ensures src !in srcs ==> Members(t, src) == Members(s, src)
  {
    assert srcs == [srcs[0]] + srcs[1..];
  }

  /** An ID is due in one of the sources. */
  ghost predicate DueIn(s: Store, now: Time, srcs: seq<Source>, id: Id) {
    exists src :: src in srcs && id in Members(s, src) && Members(s, src)[id] <= now
  }

  /** What is due, when the first source and the rest of a pass are put together. */
  lemma GlueDue(s: Store, s1: Store, now: Time, srcs: seq<Source>, ids: seq<Id>, id: Id)
    requires srcs != [] && IsRangeByScore(Members(s, srcs[0]), now, ids)
    requires DueTaken(Members(s, srcs[0]), now, Members(s1, srcs[0]))
    requires forall other | other != srcs[0] :: Members(s1, other) == Members(s, other)
    ensures DueIn(s, now, srcs, id) <==> id in ids || DueIn(s1, now, srcs[1..], id)
  {
    assert srcs == [srcs[0]] + srcs[1..];
    if DueIn(s, now, srcs, id) && id !in ids {
      var src :| src in srcs && id in Members(s, src) && Members(s, src)[id] <= now;
      assert src in srcs[1..] && id in Members(s1, src) && Members(s1, src)[id] <= now;
    }
    if id in ids {
      assert srcs[0] in srcs && id in Members(s, srcs[0]) && Members(s, srcs[0])[id] <= now;
    }
    if DueIn(s1, now, srcs[1..], id) {
      var src :| src in srcs[1..] && id in Members(s1, src) && Members(s1, src)[id] <= now;
      assert src in srcs && id in Members(s, src) && Members(s, src)[id] <= now;
    }
  }

  /** Promotion run alone: afterwards no source it read holds a due ID, later ones keep their
      place and score, other sources are untouched, every due ID is on the queue its record
      names, and the number returned is the number of IDs moved. */
  lemma PassComplete(s: Store, now: Time, srcs: seq<Source>, batches: seq<seq<Id>>, src: Source, id: Id)
    requires HasRecords(s) && Listed(s, now, srcs, batches) && id in Members(s, src)
    ensures var (t, n) := PassResult(s, srcs, batches);
            && n == |Flatten(batches)|
            && (src in srcs && Members(s, src)[id] <= now ==>
                  id !in Members(t, src) && id in s.jobs && id in List(t.queues, s.jobs[id].queue))
            && (src !in srcs || Members(s, src)[id] > now ==>
                  id in Members(t, src) && Members(t, src)[id] == Members(s, src)[id])
  {
    PassEffect(s, now, srcs, batches);
    var t := PassResult(s, srcs, batches).0;
    if src in srcs {
      assert DueTaken(Members(s, src), now, Members(t, src));
      if Members(s, src)[id] <= now {
        var q := s.jobs[id].queue;
        assert DueIn(s, now, srcs, id);
        assert id in BoundFor(s.jobs, Flatten(batches), q);
        ReverseHas(BoundFor(s.jobs, Flatten(batches), q), id);
      }
    }
  }

  lemma {:induction false} ReverseHas(l: seq<Id>, id: Id)
    ensures id in Reverse(l) <==> id in l
  {
    if l != [] {
      ReverseHas(l[1..], id);
    }
  }

  /** The first ID is nearer to the pop end of the list than the second. */
  ghost predicate PopsFirst(l: seq<Id>, x: Id, y: Id) {
    exists a, b :: 0 <= a < b < |l| && l[a] == y && l[b] == x
  }

  lemma {:induction false} FlattenAt(batches: seq<seq<Id>>, m: nat, i: nat, j: nat) returns (a: nat, b: nat)
    requires m < |batches| && i < j < |batches[m]|
    ensures a < b < |Flatten(batches)| && Flatten(batches)[a] == batches[m][i] && Flatten(batches)[b] == batches[m][j]
  {
    if m == 0 {
      a, b := i, j;
    } else {
      assert batches[1..][m - 1] == batches[m];
      var a', b' := FlattenAt(batches[1..], m - 1, i, j);
      a, b := |batches[0]| + a', |batches[0]| + b';
    }
  }

  /** Each batch of a pass is listed in the order of the scores its source had at the start. */
  lemma {:induction false} BatchScores(s: Store, now: Time, srcs: seq<Source>, batches: seq<seq<Id>>, m: nat,
                                       i: nat, j: nat)
    requires HasRecords(s) && Listed(s, now, srcs, batches) && m < |srcs| && i < j < |batches[m]|
    ensures var z, x, y := Members(s, srcs[m]), batches[m][i], batches[m][j];
            x in z && y in z && z[x] <= z[y]
    decreases m
  {
    if m > 0 {
      var s1 := PromoteEach(s, srcs[0], batches[0]).0;
      FirstBatch(s, now, srcs[0], batches[0], srcs[m]);
      assert srcs[1..][m - 1] == srcs[m] && batches[1..][m - 1] == batches[m];
      BatchScores(s1, now, srcs[1..], batches[1..], m - 1, i, j);
    }
  }

  lemma PromotedOrder(s: Store, t: Store, ids: seq<Id>, q: Queue, a: nat, b: nat)
    requires Promoted(s, t, ids) && a < b < |ids| && Names(s.jobs, ids[a], q) && Names(s.jobs, ids[b], q)
    ensures PopsFirst(List(t.queues, q), ids[a], ids[b])
  {
    var r := BoundFor(s.jobs, ids, q);
    var m, n := BoundForOrder(s.jobs, ids, q, a, b);
    ReverseAt(r, m);
    ReverseAt(r, n);
    var l := List(t.queues, q);
    assert l[|r| - 1 - n] == ids[b] && l[|r| - 1 - m] == ids[a];
  }

  /** After a whole pass, jobs of one source bound for the same queue are on its list in score
      order, the lowest score nearest to the pop end. */
  lemma ScoreOrder(s: Store, now: Time, srcs: seq<Source>, batches: seq<seq<Id>>, m: nat, i: nat, j: nat, q: Queue)
    requires HasRecords(s) && Listed(s, now, srcs, batches) && m < |srcs| && i < j < |batches[m]|
    requires Names(s.jobs, batches[m][i], q) && Names(s.jobs, batches[m][j], q)
    ensures var z, x, y := Members(s, srcs[m]), batches[m][i], batches[m][j];
            && x in z && y in z && z[x] <= z[y]
            && PopsFirst(List(PassResult(s, srcs, batches).0.queues, q), x, y)
  {
    BatchScores(s, now, srcs, batches, m, i, j);
    PassEffect(s, now, srcs, batches);
    var a, b := FlattenAt(batches, m, i, j);
    PromotedOrder(s, PassResult(s, srcs, batches).0, Flatten(batches), q, a, b);
  }

  lemma {:induction false} ReverseAt(l: seq<Id>, k: nat)
    requires k < |l|
    ensures Reverse(l)[|l| - 1 - k] == l[k]
  {
    if k > 0 {
      ReverseAt(l[1..], k - 1);
    }
  }

  lemma BoundForHead(jobs: map<Id, Job>, ids: seq<Id>, q: Queue)
    requires ids != [] && Names(jobs, ids[0], q)
    ensures BoundFor(jobs, ids, q) != [] && BoundFor(jobs, ids, q)[0] == ids[0]
  {
  }

  lemma BoundForOrder(jobs: map<Id, Job>, ids: seq<Id>, q: Queue, i: nat, j: nat) returns (m: nat, n: nat)
    requires i < j < |ids| && Names(jobs, ids[i], q) && Names(jobs, ids[j], q)
    ensures m < n < |BoundFor(jobs, ids, q)| && BoundFor(jobs, ids, q)[m] == ids[i]
    ensures BoundFor(jobs, ids, q)[n] == ids[j]
  {
    var before, after := BoundFor(jobs, ids[..j], q), BoundFor(jobs, ids[j..], q);
    assert BoundFor(jobs, ids, q) == before + after by {
      BoundForConcat(jobs, ids[..j], ids[j..], q);
      assert ids[..j] + ids[j..] == ids;
    }
    assert ids[i] in before by { assert ids[..j][i] == ids[i]; }
    m :| 0 <= m < |before| && before[m] == ids[i];
    n := |before|;
    assert after != [] && after[0] == ids[j] by { BoundForHead(jobs, ids[j..], q); }
  }
}
