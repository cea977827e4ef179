/** internal/dispatcher/dispatcher.go: the weighted poll schedule and its cyclic use. */
module Dispatcher {
  import opened Jobs
  import opened RedisStore

  datatype QueueConfig = QueueConfig(name: Queue, weight: int)

  /** A queue name repeated; a weight that is not positive contributes nothing. */
  function Repeat(q: Queue, n: int): seq<Queue>
    decreases n
  {
    if n <= 0 then [] else Repeat(q, n - 1) + [q]
  }

  function Expand(queues: seq<QueueConfig>): seq<Queue> {
    if queues == [] then [] else
    Expand(queues[..|queues| - 1]) + Repeat(queues[|queues| - 1].name, queues[|queues| - 1].weight)
  }

  /** The total weight configured for a queue. */
  function WeightOf(queues: seq<QueueConfig>, q: Queue): nat {
    if queues == [] then 0 else
    var last := queues[|queues| - 1];
    WeightOf(queues[..|queues| - 1], q) + (if last.name == q && last.weight > 0 then last.weight else 0)
  }

  lemma {:induction false} CountConcat(a: seq<Queue>, b: seq<Queue>, q: Queue)
    ensures Count(a + b, q) == Count(a, q) + Count(b, q)
  {
    if a == [] {
      assert a + b == b;
    } else {
      assert (a + b)[1..] == a[1..] + b;
      CountConcat(a[1..], b, q);
    }
  }

  lemma {:induction false} CountRepeat(k: Queue, n: int, q: Queue)
    ensures Count(Repeat(k, n), q) == if k == q && n > 0 then n else 0
    decreases n
  {
    if n > 0 {
      CountRepeat(k, n - 1, q);
      CountConcat(Repeat(k, n - 1), [k], q);
      assert [k][1..] == [];
      assert Count([k], q) == if k == q then 1 else 0;
    }
  }

  /** In one pass of the schedule each queue appears exactly as often as its weight says. */
  lemma {:induction false} ScheduleHasWeights(queues: seq<QueueConfig>, q: Queue)
    ensures Count(Expand(queues), q) == WeightOf(queues, q)
  {
    if queues != [] {
      var front, last := queues[..|queues| - 1], queues[|queues| - 1];
      ScheduleHasWeights(front, q);
      CountRepeat(last.name, last.weight, q);
      CountConcat(Expand(front), Repeat(last.name, last.weight), q);
    }
  }

  /** The entries that the first k configurations take up. */
  function Offset(queues: seq<QueueConfig>, k: nat): nat
    requires k <= |queues|
  {
    if k == 0 then 0 else Offset(queues, k - 1) + (if queues[k - 1].weight > 0 then queues[k - 1].weight else 0)
  }

  /** The r-th entry of the k-th configuration's block is its queue. */
  predicate EntryAt(schedule: seq<Queue>, queues: seq<QueueConfig>, k: nat, r: nat)
    requires k < |queues|
  {
    Offset(queues, k) + r < |schedule| && schedule[Offset(queues, k) + r] == queues[k].name
  }

  lemma {:induction false} OffsetPrefix(queues: seq<QueueConfig>, k: nat, n: nat)
    requires k <= n <= |queues|
    ensures Offset(queues[..n], k) == Offset(queues, k)
  {
    if k > 0 {
      OffsetPrefix(queues, k - 1, n);
    }
  }

  lemma {:induction false} RepeatAll(q: Queue, n: int)
    ensures |Repeat(q, n)| == (if n > 0 then n else 0) && forall i | 0 <= i < |Repeat(q, n)| :: Repeat(q, n)[i] == q
    decreases n
  {
    if n > 0 {
      RepeatAll(q, n - 1);
    }
  }

  lemma {:induction false} ExpandLength(queues: seq<QueueConfig>)
    ensures |Expand(queues)| == Offset(queues, |queues|)
  {
    if queues != [] {
      var n := |queues| - 1;
      ExpandLength(queues[..n]);
      OffsetPrefix(queues, n, n);
      RepeatAll(queues[n].name, queues[n].weight);
    }
  }

  /** The schedule lists the configurations in their order, each as a block as long as its weight. */
  lemma {:induction false} EntryBelongs(queues: seq<QueueConfig>, k: nat, r: nat)
    requires k < |queues| && r < queues[k].weight
    ensures EntryAt(Expand(queues), queues, k, r)
    decreases |queues|
  {
    var n := |queues| - 1;
    RepeatAll(queues[n].name, queues[n].weight);
    ExpandLength(queues[..n]);
    OffsetPrefix(queues, n, n);
    OffsetPrefix(queues, k, n);
    if k < n {
      EntryBelongs(queues[..n], k, r);
    }
  }

  method BuildPollSchedule(queues: seq<QueueConfig>) returns (schedule: seq<Queue>)
    ensures schedule == Expand(queues)
    ensures forall q :: Count(schedule, q) == WeightOf(queues, q)
    ensures |schedule| == Offset(queues, |queues|)
    ensures forall k: nat, r: nat | k < |queues| && r < queues[k].weight :: EntryAt(schedule, queues, k, r)
  {
    schedule := [];
    for k := 0 to |queues|
      invariant schedule == Expand(queues[..k])
    {
      assert queues[..k + 1][..k] == queues[..k];
      var i := 0;
      while i < queues[k].weight
        invariant 0 <= i && (i <= queues[k].weight || i == 0)
        invariant schedule == Expand(queues[..k]) + Repeat(queues[k].name, i)
      {
        schedule := schedule + [queues[k].name];
        i := i + 1;
      }
    }
    assert queues[..|queues|] == queues;
    forall q ensures Count(schedule, q) == WeightOf(queues, q) {
      ScheduleHasWeights(queues, q);
    }
    ExpandLength(queues);
    forall k: nat, r: nat | k < |queues| && r < queues[k].weight ensures EntryAt(schedule, queues, k, r)
    {
      EntryBelongs(queues, k, r);
    }
  }

  // ---------- the cyclic index ----------

  /** The queue polled at index `idx`. */
  function PollAt(schedule: seq<Queue>, idx: nat): Queue
    requires schedule != []
  {
    schedule[idx % |schedule|]
  }

  /** How many of the n polls from index `idx` on go to the queue. */
  function Visits(schedule: seq<Queue>, idx: nat, n: nat, q: Queue): nat
    requires schedule != []
  {
    if n == 0 then 0
    else Visits(schedule, idx, n - 1, q) + (if PollAt(schedule, idx + n - 1) == q then 1 else 0)
  }

  lemma {:induction false} VisitsAdd(schedule: seq<Queue>, idx: nat, m: nat, n: nat, q: Queue)
    requires schedule != []
    ensures Visits(schedule, idx, m + n, q) == Visits(schedule, idx, m, q) + Visits(schedule, idx + m, n, q)
    decreases n
  {
    if n > 0 {
      VisitsAdd(schedule, idx, m, n - 1, q);
    }
  }

  lemma SmallIndex(k: nat, n: nat)
    requires k < n
    ensures k % n == k
  {
  }

  lemma {:induction false} FirstPass(schedule: seq<Queue>, n: nat, q: Queue)
    requires schedule != [] && n <= |schedule|
    ensures Visits(schedule, 0, n, q) == Count(schedule[..n], q)
  {
    if n > 0 {
      FirstPass(schedule, n - 1, q);
      assert schedule[..n][..n - 1] == schedule[..n - 1];
      CountLast(schedule[..n], q);
      assert PollAt(schedule, n - 1) == schedule[n - 1] by { SmallIndex(n - 1, |schedule|); }
    }
  }

  /** Z3 needs the quotients spelled out. */
  lemma SamePlace(idx: nat, n: nat)
    requires n > 0
    ensures (idx + n) % n == idx % n
  {
    var q, r := idx / n, idx % n;
    assert idx + n == n * (q + 1) + r;
    Unique(n, (idx + n) / n, (idx + n) % n, q + 1, r);
  }

  lemma AtLeast(n: int, d: int)
    requires n >= 0
    ensures d >= 1 ==> n * d >= n
    ensures d <= -1 ==> n * d <= -n
  {
  }

  /** A quotient with a small remainder is unique. */
  lemma Unique(n: int, q1: int, r1: int, q2: int, r2: int)
    requires 0 <= r1 < n && 0 <= r2 < n && n * q1 + r1 == n * q2 + r2
    ensures r1 == r2
  {
    var d := q1 - q2;
    assert n * d == n * q1 - n * q2;
    AtLeast(n, d);
    assert d == 0;
  }

  /** Every window of consecutive polls as long as the schedule visits each queue exactly as
      often as the schedule lists it, wherever the window starts. */
  lemma {:induction false} WindowVisits(schedule: seq<Queue>, idx: nat, q: Queue)
    requires schedule != []
    ensures Visits(schedule, idx, |schedule|, q) == Count(schedule, q)
  {
    var n := |schedule|;
    if idx == 0 {
      FirstPass(schedule, n, q);
      assert schedule[..n] == schedule;
    } else {
      WindowVisits(schedule, idx - 1, q);
      VisitsAdd(schedule, idx - 1, 1, n, q);
      VisitsAdd(schedule, idx - 1, n, 1, q);
      SamePlace(idx - 1, n);
      assert Visits(schedule, idx - 1, 1, q) == if PollAt(schedule, idx - 1) == q then 1 else 0;
      assert Visits(schedule, idx - 1 + n, 1, q) == if PollAt(schedule, idx - 1 + n) == q then 1 else 0;
    }
  }

  lemma OneLess(m: nat, n: nat)
    requires m > 0
    ensures m * n == (m - 1) * n + n
  {
  }

  /** Whole windows add up. */
  lemma {:induction false} WindowsVisit(schedule: seq<Queue>, idx: nat, m: nat, polls: nat, q: Queue)
    requires schedule != [] && polls == m * |schedule|
    ensures Visits(schedule, idx, polls, q) == m * Count(schedule, q)
    decreases m
  {
    if m > 0 {
      OneLess(m, |schedule|);
      OneLess(m, Count(schedule, q));
      var before := polls - |schedule|;
      assert Visits(schedule, idx, before, q) == (m - 1) * Count(schedule, q) by {
        WindowsVisit(schedule, idx, m - 1, before, q);
      }
      VisitsAdd(schedule, idx, before, |schedule|, q);
      WindowVisits(schedule, idx + before, q);
    }
  }

  lemma VisitsMonotone(schedule: seq<Queue>, idx: nat, m: nat, n: nat, q: Queue)
    requires schedule != [] && m <= n
    ensures Visits(schedule, idx, m, q) <= Visits(schedule, idx, n, q)
  {
    VisitsAdd(schedule, idx, m, n - m, q);
  }

  lemma Exceeds(p: nat, w: nat)
    requires w > 0
    ensures (p / w + 1) * w > p
  {
    assert p == w * (p / w) + p % w;
    assert (p / w + 1) * w == w * (p / w) + w;
  }

  /** (p / w + 1) * |schedule| polls, with w > 0 the weight of the queue, visit it more than p
      times, from any index. */
  lemma EnoughVisits(schedule: seq<Queue>, idx: nat, p: nat, polls: nat, q: Queue)
    requires schedule != [] && Count(schedule, q) > 0
    requires polls >= (p / Count(schedule, q) + 1) * |schedule|
    ensures Visits(schedule, idx, polls, q) > p
  {
    var m := p / Count(schedule, q) + 1;
    var window := m * |schedule|;
    assert Visits(schedule, idx, window, q) == m * Count(schedule, q) by { WindowsVisit(schedule, idx, m, window, q); }
    Exceeds(p, Count(schedule, q));
    VisitsMonotone(schedule, idx, window, polls, q);
  }
}
