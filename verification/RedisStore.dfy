/** The Redis keys of internal/broker/redis.go and its Lua scripts, each an atomic function
    from one store to the next. */
module RedisStore {
  import opened Jobs

  /** sidekiq:job:<id>, sidekiq:queue:<q>, sidekiq:scheduled, sidekiq:retry:<q>,
      sidekiq:dead:<q> and sidekiq:active. Lists keep their head at index 0, so LPUSH
      prepends and RPOP takes the last element. A sorted set maps each member to its score. */
  datatype Store = Store(
    jobs: map<Id, Job>,
    queues: map<Queue, seq<Id>>,
    scheduled: map<Id, Time>,
    retry: map<Queue, map<Id, Time>>,
    dead: map<Queue, seq<Id>>,
    active: map<Id, Time>)

  const EMPTY: Store := Store(map[], map[], map[], map[], map[], map[])

  // ---------- commands ----------

  /** The value under a key; an absent key reads as the empty collection. */
  function Get<C>(m: map<Queue, C>, q: Queue, none: C): C {
    if q in m then m[q] else none
  }

  /** Writing a collection; Redis drops a key whose collection becomes empty. */
  function Put<C(==)>(m: map<Queue, C>, q: Queue, c: C, none: C): (r: map<Queue, C>)
    ensures forall k :: Get(r, k, none) == if k == q then c else Get(m, k, none)
    ensures (forall k | k in m :: m[k] != none) ==> (forall k | k in r :: r[k] != none)
  {
    if c == none then m - {q} else m[q := c]
  }

  function List(m: map<Queue, seq<Id>>, q: Queue): seq<Id> { Get(m, q, []) }

  function ZSet(m: map<Queue, map<Id, Time>>, q: Queue): map<Id, Time> { Get(m, q, map[]) }

  function LPush(m: map<Queue, seq<Id>>, q: Queue, id: Id): map<Queue, seq<Id>> {
    Put(m, q, [id] + List(m, q), [])
  }

  /** The ID was put at the head of one list, the end that is popped last, and the other lists are
      as they were. */
  ghost predicate AtHead(m: map<Queue, seq<Id>>, m': map<Queue, seq<Id>>, q: Queue, id: Id) {
    List(m', q) == [id] + List(m, q) && forall k | k != q :: List(m', k) == List(m, k)
  }

  /** How often an ID occurs in a list. */
  function Count(l: seq<Id>, id: Id): (n: nat)
    ensures n == 0 <==> id !in l
  {
    if l == [] then 0 else
    assert l == [l[0]] + l[1..];
    (if l[0] == id then 1 else 0) + Count(l[1..], id)
  }

  lemma CountPush(l: seq<Id>, x: Id, id: Id)
    ensures Count([x] + l, id) == Count(l, id) + (if x == id then 1 else 0)
  {
    assert ([x] + l)[1..] == l;
  }

  lemma {:induction false} CountLast(l: seq<Id>, id: Id)
    requires l != []
    ensures Count(l, id) == Count(l[..|l| - 1], id) + (if l[|l| - 1] == id then 1 else 0)
  {
    if |l| > 1 {
      assert l[1..][..|l| - 2] == l[..|l| - 1][1..];
      CountLast(l[1..], id);
    }
  }

  /** LREM with count 1: the first occurrence from the head. */
  function RemoveFirst(l: seq<Id>, id: Id): (r: seq<Id>)
    ensures forall i :: Count(r, i) == Count(l, i) - (if i == id && id in l then 1 else 0)
    ensures id !in l ==> r == l
  {
    if l == [] then [] else
    assert l == [l[0]] + l[1..];
    if l[0] == id then l[1..] else
    var r := RemoveFirst(l[1..], id);
    assert forall i :: Count([l[0]] + r, i) == Count(r, i) + (if l[0] == i then 1 else 0) by {
      forall i { CountPush(r, l[0], i); }
    }
    [l[0]] + r
  }

  /** LREM keeps the order of what stays. */
  lemma {:induction false} RemoveFirstAt(a: seq<Id>, id: Id, b: seq<Id>)
    requires id !in a
    ensures RemoveFirst(a + [id] + b, id) == a + b
  {
    if a == [] {
      assert a + [id] + b == [id] + b;
    } else {
      assert (a + [id] + b)[1..] == a[1..] + [id] + b;
      RemoveFirstAt(a[1..], id, b);
    }
  }

  /** LREM with count 0: every occurrence. */
  function RemoveAll(l: seq<Id>, id: Id): (r: seq<Id>)
    ensures forall i :: Count(r, i) == if i == id then 0 else Count(l, i)
    ensures id !in l ==> r == l
  {
    if l == [] then [] else
    assert l == [l[0]] + l[1..];
    var r := RemoveAll(l[1..], id);
    if l[0] == id then r else
    assert forall i :: Count([l[0]] + r, i) == Count(r, i) + (if l[0] == i then 1 else 0) by {
      forall i { CountPush(r, l[0], i); }
    }
    [l[0]] + r
  }

  /** LREM keeps the order of what stays: it acts on each part of a list by itself. */
  lemma {:induction false} RemoveAllConcat(a: seq<Id>, b: seq<Id>, id: Id)
    ensures RemoveAll(a + b, id) == RemoveAll(a, id) + RemoveAll(b, id)
  {
    if a == [] {
      assert a + b == b;
    } else {
      assert (a + b)[1..] == a[1..] + b;
      RemoveAllConcat(a[1..], b, id);
    }
  }

  function IdSet(ids: seq<Id>): set<Id> {
    set id | id in ids
  }

  /** A list read from its other end. */
  function Reverse(l: seq<Id>): (r: seq<Id>)
    ensures |r| == |l|
  {
    if l == [] then [] else Reverse(l[1..]) + [l[0]]
  }

  lemma {:induction false} ReverseSnoc(l: seq<Id>, x: Id)
    ensures Reverse(l + [x]) == [x] + Reverse(l)
  {
    if l != [] {
      assert (l + [x])[1..] == l[1..] + [x];
      ReverseSnoc(l[1..], x);
    }
  }

  // ---------- where an ID can be stored ----------

  datatype Loc = InQueue(queue: Queue) | InScheduled | InRetry(queue: Queue) | InDead(queue: Queue) | InActive

  /** How many times the ID is stored at a place. */
  function Occ(s: Store, id: Id, loc: Loc): nat {
    match loc
    case InQueue(q) => Count(List(s.queues, q), id)
    case InScheduled => if id in s.scheduled then 1 else 0
    case InRetry(q) => if id in ZSet(s.retry, q) then 1 else 0
    case InDead(q) => Count(List(s.dead, q), id)
    case InActive => if id in s.active then 1 else 0
  }

  // ---------- scripts ----------

  /** setBranchLpushZaddScript (Enqueue). */
  function EnqueueScript(s: Store, job: Job, now: Time): Store {
    var s1 := s.(jobs := s.jobs[job.id := job]);
    if job.processAt <= now
    then s1.(queues := LPush(s1.queues, job.queue, job.id))
    else s1.(scheduled := s1.scheduled[job.id := job.processAt])
  }

  /** rpopZaddScript (Dequeue): the popped ID, if any, and the store after. */
  function PopScript(s: Store, q: Queue, deadline: Time): (Store, Option<Id>) {
    var l := List(s.queues, q);
    if l == [] then (s, None) else
    var id := l[|l| - 1];
    (s.(queues := Put(s.queues, q, l[..|l| - 1], []), active := s.active[id := deadline]), Some(id))
  }

  /** Acknowledge's first command, ZREM sidekiq:active. */
  function ReleaseCommand(s: Store, id: Id): Store {
    s.(active := s.active - {id})
  }

  /** Acknowledge's second command, DEL sidekiq:job:<id>. */
  function ForgetCommand(s: Store, id: Id): Store {
    s.(jobs := s.jobs - {id})
  }

  /** setZaddZremScript (Requeue). */
  function RequeueScript(s: Store, job: Job, at: Time): Store {
    s.(jobs := s.jobs[job.id := job],
    retry := Put(s.retry, job.queue, ZSet(s.retry, job.queue)[job.id := at], map[]),
    active := s.active - {job.id})
  }

  /** setLpushZremScript (MoveToDeadLetter). */
  function BuryScript(s: Store, job: Job): Store {
    s.(jobs := s.jobs[job.id := job],
    dead := LPush(s.dead, job.queue, job.id),
    active := s.active - {job.id})
  }

  /** retryDeadJobScript: claims `id` out of dead:<q>, and only then rewrites and queues it. */
  function ReviveScript(s: Store, q: Queue, id: Id, rewritten: Job): (Store, bool) {
    if id !in List(s.dead, q) then (s, false) else
    (s.(dead := Put(s.dead, q, RemoveFirst(List(s.dead, q), id), []),
     jobs := s.jobs[id := rewritten],
     queues := LPush(s.queues, q, id)), true)
  }

  /** The sorted sets a promotion pass reads. */
  datatype Source = ScheduledSet | RetrySet(queue: Queue)

  function Members(s: Store, src: Source): map<Id, Time> {
    match src
    case ScheduledSet => s.scheduled
    case RetrySet(q) => ZSet(s.retry, q)
  }

  function Claim(s: Store, src: Source, id: Id): Store {
    match src
    case ScheduledSet => s.(scheduled := s.scheduled - {id})
    case RetrySet(q) => s.(retry := Put(s.retry, q, ZSet(s.retry, q) - {id}, map[]))
  }

  function LocOf(src: Source): Loc {
    match src
    case ScheduledSet => InScheduled
    case RetrySet(q) => InRetry(q)
  }

  /** promoteJobScript: the score is not looked at again, and a claimed ID without a record
      is dropped. */
  function PromoteScript(s: Store, src: Source, id: Id): (Store, bool) {
    if id !in Members(s, src) then (s, false) else
    var s1 := Claim(s, src, id);
    if id !in s1.jobs then (s1, false) else
    (s1.(queues := LPush(s1.queues, s1.jobs[id].queue, id)), true)
  }

  /** ZRANGEBYSCORE src -inf max: the members with a score up to `max`, in score order.
      Members with equal scores may come in any order. */
  ghost predicate IsRangeByScore(z: map<Id, Time>, max: Time, ids: seq<Id>) {
    && (forall i | 0 <= i < |ids| :: ids[i] in z && z[ids[i]] <= max)
    && (forall id | id in z && z[id] <= max :: id in ids)
    && (forall i, j | 0 <= i < j < |ids| :: ids[i] != ids[j] && z[ids[i]] <= z[ids[j]])
  }

  // ---------- every script moves one ID from one place to another ----------

  function Hit(i: Id, id: Id, at: Option<Loc>, loc: Loc): nat {
    if i == id && at == Some(loc) then 1 else 0
  }

  /** Going from `s` to `t` takes one occurrence of `id` away from `src` and adds one at
      `dst`; no other ID and no other place is touched. */
  ghost predicate Shifted(s: Store, t: Store, id: Id, src: Option<Loc>, dst: Option<Loc>) {
    forall i, loc :: Occ(t, i, loc) + Hit(i, id, src, loc) == Occ(s, i, loc) + Hit(i, id, dst, loc)
  }

  lemma PushCount(m: map<Queue, seq<Id>>, q: Queue, id: Id, k: Queue, i: Id)
    ensures Count(List(LPush(m, q, id), k), i)
         == Count(List(m, k), i) + (if k == q && i == id then 1 else 0)
  {
    CountPush(List(m, q), id, i);
  }

  lemma EnqueueShifts(s: Store, job: Job, now: Time)
    requires job.processAt > now ==> Occ(s, job.id, InScheduled) == 0
    ensures Shifted(s, EnqueueScript(s, job, now), job.id, None,
                    Some(if job.processAt <= now then InQueue(job.queue) else InScheduled))
  {
    var t, dst := EnqueueScript(s, job, now), if job.processAt <= now then InQueue(job.queue) else InScheduled;
    forall i, loc ensures Occ(t, i, loc) + Hit(i, job.id, None, loc) == Occ(s, i, loc)
                                                                        + Hit(i, job.id, Some(dst), loc) {
      if loc.InQueue? {
        PushCount(s.queues, job.queue, job.id, loc.queue, i);
      }
    }
  }

  lemma PopShifts(s: Store, q: Queue, deadline: Time)
    requires PopScript(s, q, deadline).1.Some?
    requires Occ(s, PopScript(s, q, deadline).1.value, InActive) == 0
    ensures var (t, r) := PopScript(s, q, deadline);
            Shifted(s, t, r.value, Some(InQueue(q)), Some(InActive))
  {
    var l := List(s.queues, q);
    forall i { CountLast(l, i); }
  }

  lemma ReleaseShifts(s: Store, id: Id)
    requires id in s.active
    ensures Shifted(s, ReleaseCommand(s, id), id, Some(InActive), None)
  {
  }

  lemma RequeueShifts(s: Store, job: Job, at: Time)
    requires job.id in s.active && job.id !in ZSet(s.retry, job.queue)
    ensures Shifted(s, RequeueScript(s, job, at), job.id, Some(InActive), Some(InRetry(job.queue)))
  {
  }

  lemma BuryShifts(s: Store, job: Job)
    requires job.id in s.active
    ensures Shifted(s, BuryScript(s, job), job.id, Some(InActive), Some(InDead(job.queue)))
  {
    var t, src, dst := BuryScript(s, job), Some(InActive), Some(InDead(job.queue));
    forall i, loc ensures Occ(t, i, loc) + Hit(i, job.id, src, loc) == Occ(s, i, loc) + Hit(i, job.id, dst, loc) {
      if loc.InDead? {
        PushCount(s.dead, job.queue, job.id, loc.queue, i);
      }
    }
  }

  lemma ReviveShifts(s: Store, q: Queue, id: Id, rewritten: Job)
    requires id in List(s.dead, q)
    ensures Shifted(s, ReviveScript(s, q, id, rewritten).0, id, Some(InDead(q)), Some(InQueue(q)))
  {
    var t, src, dst := ReviveScript(s, q, id, rewritten).0, Some(InDead(q)), Some(InQueue(q));
    forall i, loc ensures Occ(t, i, loc) + Hit(i, id, src, loc) == Occ(s, i, loc) + Hit(i, id, dst, loc) {
      if loc.InQueue? {
        PushCount(s.queues, q, id, loc.queue, i);
      }
    }
  }

  lemma PromoteShifts(s: Store, src: Source, id: Id)
    requires id in Members(s, src) && id in s.jobs
    ensures Shifted(s, PromoteScript(s, src, id).0, id, Some(LocOf(src)), Some(InQueue(s.jobs[id].queue)))
  {
    var t, from, dst := PromoteScript(s, src, id).0, Some(LocOf(src)), Some(InQueue(s.jobs[id].queue));
    forall i, loc ensures Occ(t, i, loc) + Hit(i, id, from, loc) == Occ(s, i, loc) + Hit(i, id, dst, loc) {
      if loc.InQueue? {
        PushCount(s.queues, s.jobs[id].queue, id, loc.queue, i);
      }
    }
  }
}
