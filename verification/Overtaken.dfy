/** How jobs come to be dequeued against their scores: a pass that listed one of them long ago claims
    it by its ID, while the other, due earlier, still waits. */
module Overtaken {
  import opened Jobs
  import opened Backoff
  import opened RedisStore
  import opened Lifecycle
  import opened Invariant
  import opened Conservation
  import EarlyRun
  import Order

  const LATECOMER: Job := Job("w", "q", "t", "", 0, 16, 0, 16, 0, 3, "", "", StatusPending)

  /** A new job that is due is alone on its queue, if the queue was empty. */
  lemma Arrived(evs: seq<Event>, w: Job) returns (es: seq<Event>)
    requires Legal(evs) && Newborn(w) && w.id !in Exec(evs).issued && w.processAt <= Exec(evs).clock
    requires List(Exec(evs).store.queues, w.queue) == []
    ensures Legal(es)
    ensures var s, t := Exec(evs), Exec(es);
            && t.clock == s.clock && t.calls == s.calls && t.next == s.next
            && List(t.store.queues, w.queue) == [w.id]
            && t.store.retry == s.store.retry && t.store.jobs == s.store.jobs[w.id := w]
  {
    var e := Enqueue(w, Exec(evs).clock);
    Extend(evs, e);
    es := evs + [e];
  }

  /** The only job on a queue is delivered. */
  lemma Delivered(evs: seq<Event>, w: Job) returns (es: seq<Event>)
    requires Legal(evs) && List(Exec(evs).store.queues, w.queue) == [w.id]
    requires w.id in Exec(evs).store.jobs && Exec(evs).store.jobs[w.id] == w
    ensures Legal(es)
    ensures var s, t := Exec(evs), Exec(es);
            && t.clock == s.clock && t.calls == s.calls[s.next := Holding(w)]
            && t.store.retry == s.store.retry && t.store.jobs == s.store.jobs
  {
    var tok := Exec(evs).next;
    var e, e' := Pop(tok, w.queue, w.id, 0), Read(tok, w.id);
    Extend(evs, e);
    Extend(evs + [e], e');
    es := evs + [e] + [e'];
  }

  /** It fails, and waits for its first backoff. */
  lemma Fails(evs: seq<Event>, tok: Token, w: Job) returns (es: seq<Event>)
    requires Legal(evs) && tok in Exec(evs).calls && Exec(evs).calls[tok] == Holding(w)
    requires w.attempts == 0 && w.maxAttempts > 1
    ensures Legal(es)
    ensures var s, t := Exec(evs), Exec(es);
            && t.calls == s.calls - {tok} && t.store.jobs == s.store.jobs[w.id := Failed(w, "e")]
            && t.store.retry == Put(s.store.retry, w.queue, ZSet(s.store.retry, w.queue)[w.id := s.clock + 16], map[])
  {
    var s := Exec(evs);
    RetryAtExact(s.clock, 0, 1, 0);
    assert Pow4(1) == 1;
    var e, e' := Fail(tok, w, "e", 0, 0, s.clock), Requeue(tok, Failed(w, "e"), s.clock + 16);
    Extend(evs, e);
    Extend(evs + [e], e');
    es := evs + [e] + [e'];
    assert Exec(es).calls == s.calls - {tok};
  }

  /** Two retries wait, and an old listing has only the later one. */
  lemma ListedAlone() returns (evs: seq<Event>)
    ensures Legal(evs) && 1 in Exec(evs).calls && Exec(evs).calls[1] == EarlyRun.STALE
    ensures "x" in Exec(evs).store.jobs && Exec(evs).store.jobs["x"].queue == "q"
    ensures Members(Exec(evs).store, RetrySet("q")) == map["x" := 47, "w" := 32]
  {
    evs := EarlyRun.Outdated();
    var s := Exec(evs);
    assert s.next !in s.calls by { RunCoupled(evs); }
    evs := Arrived(evs, LATECOMER);
    evs := Delivered(evs, LATECOMER);
    evs := Fails(evs, s.next, LATECOMER);
  }

  /** Two retries wait for second 32 and second 47, and the later one can be dequeued first: a
      scheduler that listed it at second 16, before it was promoted by another and failed again,
      has it still listed. */
  lemma RetriesOvertaken() returns (evs: seq<Event>)
    ensures Legal(evs)
    ensures var z := Members(Exec(evs).store, RetrySet("q")); "w" in z && "x" in z && z["w"] == 32 && z["x"] == 47
    ensures !Order.InTurn(evs, "w", "x")
  {
    evs := ListedAlone();
    assert !Order.Orderly(EarlyRun.STALE, RetrySet("q"), "w", "x") by {
      assert EarlyRun.STALE.due[0] == "x";
    }
    Order.OutOfTurn(evs, 1, RetrySet("q"), "q", "w", "x");
  }
}
