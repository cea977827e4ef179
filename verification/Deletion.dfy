/** DeleteJob: six removals that are not atomic together, and why re-running them is safe. */
module Deletion {
  import opened Jobs
  import opened RedisStore
  import opened Lifecycle
  import opened Conservation

  const REMOVALS: nat := 6

  /** LREM key 0 id. */
  function CleanList(m: map<Queue, seq<Id>>, q: Queue, id: Id): (r: map<Queue, seq<Id>>)
    ensures forall k, i :: Count(List(r, k), i) == if k == q && i == id then 0 else Count(List(m, k), i)
  {
    Put(m, q, RemoveAll(List(m, q), id), [])
  }

  /** ZREM key id. */
  function CleanSet(m: map<Queue, map<Id, Time>>, q: Queue, id: Id): map<Queue, map<Id, Time>> {
    Put(m, q, ZSet(m, q) - {id}, map[])
  }

  /** The k-th command of the pipeline; the record goes last. */
  function Removal(s: Store, q: Queue, id: Id, k: nat): Store {
    match k
    case 0 => s.(queues := CleanList(s.queues, q, id))
    case 1 => s.(retry := CleanSet(s.retry, q, id))
    case 2 => s.(dead := CleanList(s.dead, q, id))
    case 3 => s.(active := s.active - {id})
    case 4 => s.(scheduled := s.scheduled - {id})
    case 5 => s.(jobs := s.jobs - {id})
    case _ => s
  }

  /** The store after the first k removals. */
  function Removed(s: Store, q: Queue, id: Id, k: nat): Store {
    if k == 0 then s else Removal(Removed(s, q, id, k - 1), q, id, k - 1)
  }

  /** DeleteJob: nothing to do without a record. */
  function DeleteJob(s: Store, id: Id): Store {
    if id in s.jobs then Removed(s, s.jobs[id].queue, id, REMOVALS) else s
  }

  /** The pipeline cut off after k commands: each component is either cleaned or as it was. */
  lemma RemovedIs(s: Store, q: Queue, id: Id, k: nat)
    requires k <= REMOVALS
    ensures Removed(s, q, id, k) == Store(
                                      if k > 5 then s.jobs - {id} else s.jobs,
                                      if k > 0 then CleanList(s.queues, q, id) else s.queues,
                                      if k > 4 then s.scheduled - {id} else s.scheduled,
                                      if k > 1 then CleanSet(s.retry, q, id) else s.retry,
                                      if k > 2 then CleanList(s.dead, q, id) else s.dead,
                                      if k > 3 then s.active - {id} else s.active)
  {
    if k > 0 {
      RemovedIs(s, q, id, k - 1);
    }
  }

  lemma CleanListTwice(m: map<Queue, seq<Id>>, q: Queue, id: Id)
    ensures CleanList(CleanList(m, q, id), q, id) == CleanList(m, q, id)
  {
    var l := RemoveAll(List(m, q), id);
    assert Count(l, id) == 0;
    assert RemoveAll(l, id) == l;
  }

  lemma CleanSetTwice(m: map<Queue, map<Id, Time>>, q: Queue, id: Id)
    ensures CleanSet(CleanSet(m, q, id), q, id) == CleanSet(m, q, id)
  {
    var z := ZSet(m, q) - {id};
    assert z - {id} == z;
  }

  /** A full run after a partial one, with the record still there, adds nothing to a full run. */
  lemma RerunSame(s: Store, q: Queue, id: Id, k: nat)
    requires k < REMOVALS
    ensures Removed(Removed(s, q, id, k), q, id, REMOVALS) == Removed(s, q, id, REMOVALS)
  {
    RemovedIs(s, q, id, k);
    RemovedIs(s, q, id, REMOVALS);
    RemovedIs(Removed(s, q, id, k), q, id, REMOVALS);
    CleanListTwice(s.queues, q, id);
    CleanListTwice(s.dead, q, id);
    CleanSetTwice(s.retry, q, id);
  }

  /** Any prefix of the removals followed by a full run ends where one full run ends. */
  lemma DeleteRecovers(s: Store, id: Id, k: nat)
    requires id in s.jobs && k <= REMOVALS
    ensures DeleteJob(Removed(s, s.jobs[id].queue, id, k), id) == DeleteJob(s, id)
  {
    var q := s.jobs[id].queue;
    RemovedIs(s, q, id, k);
    if k < REMOVALS {
      RerunSame(s, q, id, k);
    }
  }

  /** The job is taken out of every collection, and the rest of each is as it was: scores,
      records, and lists in their order (RemoveAllConcat). */
  ghost predicate OnlyWithout(s: Store, t: Store, id: Id) {
    && t.jobs == s.jobs - {id} && t.scheduled == s.scheduled - {id} && t.active == s.active - {id}
    && (forall q :: ZSet(t.retry, q) == ZSet(s.retry, q) - {id})
    && (forall q :: List(t.queues, q) == RemoveAll(List(s.queues, q), id))
    && (forall q :: List(t.dead, q) == RemoveAll(List(s.dead, q), id))
  }

  lemma OccWithout(s: Store, t: Store, id: Id, i: Id, loc: Loc)
    requires OnlyWithout(s, t, id)
    ensures Occ(t, i, loc) == if i == id then 0 else Occ(s, i, loc)
  {
  }

  /** In a reachable store a full run removes the job from everywhere and nothing else. */
  lemma DeleteRemovesOnly(evs: seq<Event>, id: Id)
    requires Legal(evs) && id in Exec(evs).store.jobs
    ensures OnlyWithout(Exec(evs).store, DeleteJob(Exec(evs).store, id), id)
  {
    var s, t := Exec(evs).store, DeleteJob(Exec(evs).store, id);
    RemovedIs(s, s.jobs[id].queue, id, REMOVALS);
    forall q
      ensures ZSet(t.retry, q) == ZSet(s.retry, q) - {id}
      ensures List(t.queues, q) == RemoveAll(List(s.queues, q), id)
      ensures List(t.dead, q) == RemoveAll(List(s.dead, q), id)
    {
      PlacesAgree(evs, id, q);
    }
  }

  /** So no trace of the job is left, and every other job is where it was. */
  lemma DeleteIsComplete(evs: seq<Event>, id: Id)
    requires Legal(evs) && id in Exec(evs).store.jobs
    ensures var s, t := Exec(evs).store, DeleteJob(Exec(evs).store, id);
            && id !in t.jobs
            && (forall loc :: Occ(t, id, loc) == 0)
            && (forall i, loc | i != id :: Occ(t, i, loc) == Occ(s, i, loc))
            && t.jobs == s.jobs - {id}
  {
    var s, t := Exec(evs).store, DeleteJob(Exec(evs).store, id);
    DeleteRemovesOnly(evs, id);
    forall i, loc ensures Occ(t, i, loc) == if i == id then 0 else Occ(s, i, loc) {
      OccWithout(s, t, id, i, loc);
    }
  }
}
