/** Why the single scheduler is needed: with two schedulers a job can run before its time. One
    scheduler lists a due retry and pauses; the other promotes it; the job runs, fails and is
    requeued for later; then the first scheduler claims the new entry by its ID. */
module EarlyRun {
  import opened Jobs
  import opened Backoff
  import opened RedisStore
  import opened Lifecycle
  import opened Conservation
  import opened SoloScheduler

  const FRESH: Job := Job("x", "q", "t", "", 0, 0, 0, 0, 0, 3, "", "", StatusPending)
  const FAILED_ONCE: Job := Failed(FRESH, "e")
  const FAILED_TWICE: Job := Failed(FAILED_ONCE, "e")

  /** A store with the one job: its record, and where it is. */
  function Snap(job: Job, queued: bool, due: Option<Time>, deadline: Option<Time>): Store {
    Store(map["x" := job], if queued then map["q" := ["x"]] else map[], map[],
          if due.Some? then map["q" := map["x" := due.value]] else map[], map[],
          if deadline.Some? then map["x" := deadline.value] else map[])
  }

  ghost predicate Reaches(evs: seq<Event>, s: State, l: Ledger) {
    Legal(evs) && Exec(evs) == s && History(evs) == l
  }

  lemma Next(evs: seq<Event>, s: State, l: Ledger, e: Event)
    requires Reaches(evs, s, l) && Enabled(s, e)
    ensures Reaches(evs + [e], Apply(s, e), Note(l, e))
  {
    Extend(evs, e);
  }

  lemma PushFirst()
    ensures LPush(map[], "q", "x") == map["q" := ["x"]]
  {
    assert ["x"] + [] == ["x"];
  }

  lemma PopSnap(job: Job, d: Time)
    ensures PopScript(Snap(job, true, None, None), "q", d) == (Snap(job, false, None, Some(d)), Some("x"))
  {
  }

  lemma RequeueSnap(job: Job, job': Job, d: Time, at: Time)
    requires job'.id == "x" && job'.queue == "q"
    ensures RequeueScript(Snap(job, false, None, Some(d)), job', at) == Snap(job', false, Some(at), None)
  {
    var s := Snap(job, false, None, Some(d));
    assert s.active - {"x"} == map[];
    assert s.jobs["x" := job'] == map["x" := job'];
    assert Put(s.retry, "q", ZSet(s.retry, "q")["x" := at], map[]) == map["q" := map["x" := at]];
  }

  lemma PromoteSnap(job: Job, at: Time)
    requires job.queue == "q"
    ensures PromoteScript(Snap(job, false, Some(at), None), RetrySet("q"), "x") == (Snap(job, true, None, None), true)
  {
    var s := Snap(job, false, Some(at), None);
    assert ZSet(s.retry, "q") - {"x"} == map[];
    assert Put(s.retry, "q", map[], map[]) == map[];
    PushFirst();
  }

  function Row(job: Job, place: Place, due: Time): Ledger {
    map["x" := Entry(job, place, due, 0)]
  }

  /** Enqueued and delivered at second 0. */
  lemma Delivered() returns (evs: seq<Event>)
    ensures Reaches(evs, State(Snap(FRESH, false, None, Some(30)), 0, {"x"}, map[0 := Holding(FRESH)], 1),
                    Row(FRESH, Stored(InActive), 0))
  {
    evs := [];
    var s, l: Ledger := INITIAL, map[];
    assert Reaches(evs, s, l);
    var e0, e1, e2 := Enqueue(FRESH, 0), Pop(0, "q", "x", 30), Read(0, "x");
    PushFirst();
    Next(evs, s, l, e0); evs, s, l := evs + [e0], Apply(s, e0), Note(l, e0);
    assert s == State(Snap(FRESH, true, None, None), 0, {"x"}, map[], 0);
    PopSnap(FRESH, 30);
    Next(evs, s, l, e1); evs, s, l := evs + [e1], Apply(s, e1), Note(l, e1);
    assert s == State(Snap(FRESH, false, None, Some(30)), 0, {"x"}, map[0 := Popping("x")], 1);
    Next(evs, s, l, e2); evs, s, l := evs + [e2], Apply(s, e2), Note(l, e2);
  }

  /** It fails, and is requeued for second 16. */
  lemma Opening() returns (evs: seq<Event>)
    ensures Reaches(evs, State(Snap(FAILED_ONCE, false, Some(16), None), 16, {"x"}, map[], 1),
                    Row(FAILED_ONCE, Stored(InRetry("q")), 16))
  {
    evs := Delivered();
    var s, l := Exec(evs), History(evs);
    var e0, e1, e2 := Fail(0, FRESH, "e", 0, 0, 0), Requeue(0, FAILED_ONCE, 16), Tick(16);
    RetryAtExact(0, 0, 1, 0);
    assert Pow4(1) == 1;
    Next(evs, s, l, e0); evs, s, l := evs + [e0], Apply(s, e0), Note(l, e0);
    assert s.calls == map[0 := Requeuing(FAILED_ONCE, 16)];
    RequeueSnap(FRESH, FAILED_ONCE, 30, 16);
    Next(evs, s, l, e1); evs, s, l := evs + [e1], Apply(s, e1), Note(l, e1);
    assert s == State(Snap(FAILED_ONCE, false, Some(16), None), 0, {"x"}, map[], 1);
    assert l == Row(FAILED_ONCE, Stored(InRetry("q")), 16);
    Next(evs, s, l, e2); evs, s, l := evs + [e2], Apply(s, e2), Note(l, e2);
  }

  const STALE: Call := Promoting(16, RetrySet("q"), ["x"], [], 0)

  const EMPTY_HANDED: Call := Promoting(16, ScheduledSet, [], [RetrySet("q")], 0)

  /** One pass begins and finds the scheduled set empty. */
  lemma Begun(evs: seq<Event>, s: State, l: Ledger, tok: Token) returns (evs': seq<Event>)
    requires Reaches(evs, s, l) && s.store == Snap(FAILED_ONCE, false, Some(16), None) && s.clock == 16 && s.next == tok
    ensures Reaches(evs', s.(calls := s.calls[tok := EMPTY_HANDED], next := tok + 1), l)
  {
    var e0, e1 := PassBegin(tok, ["q"]), Scan(tok, []);
    assert Sources(["q"]) == [ScheduledSet, RetrySet("q")];
    assert [ScheduledSet, RetrySet("q")][1..] == [RetrySet("q")];
    Next(evs, s, l, e0);
    var t := Apply(s, e0);
    Next(evs + [e0], t, l, e1);
    assert Apply(t, e1) == s.(calls := s.calls[tok := EMPTY_HANDED], next := tok + 1);
    evs' := evs + [e0] + [e1];
  }

  /** It lists the due retry and goes no further. */
  lemma Listing(evs: seq<Event>, s: State, l: Ledger, tok: Token) returns (evs': seq<Event>)
    requires Reaches(evs, s, l) && s.store == Snap(FAILED_ONCE, false, Some(16), None) && s.clock == 16 && s.next == tok
    ensures Reaches(evs', s.(calls := s.calls[tok := STALE], next := tok + 1), l)
  {
    evs' := Begun(evs, s, l, tok);
    var e, t := Scan(tok, ["x"]), s.(calls := s.calls[tok := EMPTY_HANDED], next := tok + 1);
    assert [RetrySet("q")][1..] == [];
    assert IsRangeByScore(Members(t.store, RetrySet("q")), 16, ["x"]);
    Next(evs', t, l, e);
    assert Apply(t, e) == s.(calls := s.calls[tok := STALE], next := tok + 1);
    evs' := evs' + [e];
  }

  const HANDED: Call := Promoting(16, RetrySet("q"), [], [], 1)

  /** A listed retry is promoted. */
  lemma Claimed(evs: seq<Event>, s: State, l: Ledger, tok: Token, job: Job, at: Time) returns (evs': seq<Event>)
    requires Reaches(evs, s, l) && s.store == Snap(job, false, Some(at), None) && job.queue == "q"
    requires tok in s.calls && s.calls[tok] == STALE && l == Row(job, Stored(InRetry("q")), at)
    ensures Reaches(evs', s.(store := Snap(job, true, None, None), calls := s.calls[tok := HANDED]),
                    Row(job, Stored(InQueue("q")), at))
  {
    var e := Promote(tok, RetrySet("q"), "x", true);
    PromoteSnap(job, at);
    Next(evs, s, l, e);
    assert ["x"][1..] == [];
    evs' := evs + [e];
  }

  /** A listed retry is promoted and delivered. */
  lemma Promoted(evs: seq<Event>, s: State, l: Ledger, tok: Token, job: Job, at: Time) returns (evs': seq<Event>)
    requires Reaches(evs, s, l) && s.store == Snap(job, false, Some(at), None) && job.queue == "q"
    requires tok in s.calls && s.calls[tok] == STALE && l == Row(job, Stored(InRetry("q")), at) && tok < s.next
    ensures Reaches(evs', s.(store := Snap(job, false, None, Some(46)),
                    calls := s.calls[tok := HANDED][s.next := Popping("x")], next := s.next + 1),
                    Row(job, Stored(InActive), at))
    ensures evs' != [] && Last(evs') == Pop(s.next, "q", "x", 46)
  {
    evs' := Claimed(evs, s, l, tok, job, at);
    var t := s.(store := Snap(job, true, None, None), calls := s.calls[tok := HANDED]);
    var e := Pop(s.next, "q", "x", 46);
    PopSnap(job, 46);
    Next(evs', t, Row(job, Stored(InQueue("q")), at), e);
    evs' := evs' + [e];
  }

  /** The record of the second delivery is read. */
  lemma ReadBack(evs: seq<Event>, s: State, l: Ledger, tok: Token) returns (evs': seq<Event>)
    requires Reaches(evs, s, l) && s.store == Snap(FAILED_ONCE, false, None, Some(46))
    requires tok in s.calls && s.calls[tok] == Popping("x")
    ensures Reaches(evs', s.(calls := s.calls[tok := Holding(FAILED_ONCE)]), l)
  {
    Next(evs, s, l, Read(tok, "x"));
    evs' := evs + [Read(tok, "x")];
  }

  /** The second delivery fails at second 16 and is requeued for second 47. */
  lemma FailsAgain(evs: seq<Event>, s: State, tok: Token) returns (evs': seq<Event>)
    requires Reaches(evs, s, Row(FAILED_ONCE, Stored(InActive), 16))
    requires s.store == Snap(FAILED_ONCE, false, None, Some(46))
    requires tok in s.calls && s.calls[tok] == Popping("x") && s.clock == 16
    ensures Reaches(evs', s.(store := Snap(FAILED_TWICE, false, Some(47), None), calls := s.calls - {tok}),
                    Row(FAILED_TWICE, Stored(InRetry("q")), 47))
  {
    var t, l := s.(calls := s.calls[tok := Holding(FAILED_ONCE)]), Row(FAILED_ONCE, Stored(InActive), 16);
    var e, e' := Fail(tok, FAILED_ONCE, "e", 0, 0, 16), Requeue(tok, FAILED_TWICE, 47);
    evs' := ReadBack(evs, s, l, tok);
    RetryAtExact(16, 0, 2, 0);
    assert Pow4(2) == 16;
    Next(evs', t, l, e); evs', t, l := evs' + [e], Apply(t, e), Note(l, e);
    RequeueSnap(FAILED_ONCE, FAILED_TWICE, 46, 47);
    assert t.calls[tok] == Requeuing(FAILED_TWICE, 47);
    Next(evs', t, l, e'); evs', t, l := evs' + [e'], Apply(t, e'), Note(l, e');
  }

  /** Two passes list the due retry; the second promotes it, it fails again and waits for second
      47, and the first pass still has it listed. */
  lemma Outdated() returns (evs: seq<Event>)
    ensures Legal(evs) && History(evs) == Row(FAILED_TWICE, Stored(InRetry("q")), 47)
    ensures var s := Exec(evs);
            && s.store == Snap(FAILED_TWICE, false, Some(47), None) && s.clock == 16 && s.issued == {"x"}
            && 1 in s.calls && s.calls[1] == STALE && 1 < s.next
  {
    evs := Opening();
    evs := Listing(evs, Exec(evs), History(evs), 1);
    evs := Listing(evs, Exec(evs), History(evs), 2);
    evs := Promoted(evs, Exec(evs), History(evs), 2, FAILED_ONCE, 16);
    evs := FailsAgain(evs, Exec(evs), 3);
  }

  /** A run with two schedulers in which a job told to wait until second 47 is delivered at
      second 16: what NeverEarly says of a single scheduler is false of two. */
  lemma TwoSchedulersRunEarly() returns (evs: seq<Event>)
    ensures Legal(evs) && !Solo(evs)
    ensures evs != [] && Last(evs).Pop? && Last(evs).id == "x"
    ensures "x" in History(evs) && IsActive(History(evs), "x")
    ensures Exec(evs).clock == 16 && History(evs)["x"].due == 47
    ensures !Timely(History(evs), Exec(evs).clock)
  {
    evs := Outdated();
    evs := Promoted(evs, Exec(evs), History(evs), 1, FAILED_TWICE, 47);
    if Solo(evs) {
      NeverEarly(evs);
    }
  }
}
