/** The backoff holds over whole runs: a job that keeps failing takes at least the sum of its
    delays to die. */
module Pacing {
  import opened Jobs
  import opened Backoff
  import opened Lifecycle
  import opened Invariant
  import opened Conservation
  import opened SoloScheduler

  /** The sum over n = 1..k of n^4 + 15 seconds. */
  function Backoffs(k: nat): nat {
    if k == 0 then 0 else Backoffs(k - 1) + Pow4(k) + 15
  }

  /** In closed form, thirty times the sum is 6 k^5 + 15 k^4 + 10 k^3 + 449 k. */
  lemma {:induction false} BackoffsClosed(k: nat)
    ensures 30 * Backoffs(k) == 6 * (k * k * k * k * k) + 15 * (k * k * k * k) + 10 * (k * k * k) + 449 * k
  {
    if k > 0 {
      var m := k - 1;
      BackoffsClosed(m);
      Powers(m);
    }
  }

  /** A job that has failed k times and is not dead waits, or waited, until its first failure
      plus k backoffs. */
  predicate EntryPaced(e: Entry) {
    1 <= e.job.attempts <= 309 && e.place.Stored? && !e.place.loc.InDead? ==>
      e.firstFailure + Backoffs(e.job.attempts) <= e.due
  }

  /** A retry is set for the first failure plus k backoffs; a job that is given up for its last
      failure has waited out all the backoffs before it. */
  predicate CallPaced(l: Ledger, clock: Time, c: Call) {
    && (c.Requeuing? && c.job.id in l && c.job.attempts <= 309 ==>
          l[c.job.id].firstFailure + Backoffs(c.job.attempts) <= c.at)
    && (c.Burying? && c.job.id in l && c.job.attempts == l[c.job.id].job.attempts + 1 <= 310 ==>
          l[c.job.id].firstFailure + Backoffs(c.job.attempts - 1) <= clock)
  }

  ghost predicate Paced(s: State, l: Ledger) {
    && (forall id | id in l :: EntryPaced(l[id]))
    && (forall t | t in s.calls :: CallPaced(l, s.clock, s.calls[t]))
  }

  /** By the time a job fails again it has served all its earlier backoffs. */
  lemma FailureServed(s: State, l: Ledger, e: Event)
    requires Coupled(s, l) && Enabled(s, e) && Timely(l, s.clock) && Paced(s, l) && e.Fail?
    requires e.job.attempts <= 309
    ensures e.job.id in Note(l, e) && Note(l, e)[e.job.id].firstFailure + Backoffs(e.job.attempts) <= e.now
  {
    StepLawful(s, l, e);
    assert EntryPaced(l[e.job.id]);
  }

  /** The backoff of the n-th failure adds the n-th term to what was already served. */
  lemma RetryServed(first: Time, now: Time, frac: nat, n: nat, jitter: nat)
    requires 1 <= n <= 309 && jitter < 30 && frac < SECOND
    requires first + Backoffs(n - 1) <= now
    ensures first + Backoffs(n) <= RetryAt(now, frac, NextDelay(n, jitter))
  {
    RetryAtExact(now, frac, n, jitter);
    DelayBounds(n, jitter);
  }

  /** What a worker decides after a failure is paced once the earlier backoffs are served. */
  lemma AfterFailurePaced(l: Ledger, job: Job, error: string, jitter: nat, frac: nat, now: Time)
    requires job.id in l && jitter < 30 && frac < SECOND
    requires job.attempts <= 309 ==> l[job.id].firstFailure + Backoffs(job.attempts) <= now
    ensures CallPaced(l, now, AfterFailure(Failed(job, error), jitter, frac, now))
  {
    var failed := Failed(job, error);
    if failed.status == StatusDead {
      assert AfterFailure(failed, jitter, frac, now) == Burying(failed);
    } else {
      var at := RetryAt(now, frac, NextDelay(failed.attempts, jitter));
      assert AfterFailure(failed, jitter, frac, now) == Requeuing(failed, at);
      if failed.attempts <= 309 {
        RetryServed(l[job.id].firstFailure, now, frac, failed.attempts, jitter);
      }
    }
  }

  lemma FailPaced(s: State, l: Ledger, e: Event)
    requires Coupled(s, l) && Enabled(s, e) && Timely(l, s.clock) && Paced(s, l) && e.Fail?
    ensures CallPaced(Note(l, e), s.clock, Apply(s, e).calls[e.tok])
  {
    assert e.job.id in Note(l, e) by { StepLawful(s, l, e); }
    if e.job.attempts <= 309 {
      FailureServed(s, l, e);
    }
    AfterFailurePaced(Note(l, e), e.job, e.error, e.jitter, e.frac, e.now);
  }

  lemma PacedStep(s: State, l: Ledger, e: Event)
    requires Coupled(s, l) && Enabled(s, e) && Timely(l, s.clock) && Paced(s, l)
    ensures Paced(Apply(s, e), Note(l, e))
  {
    StepLawful(s, l, e);
    var t, l' := Apply(s, e), Note(l, e);
    forall id | id in l' ensures EntryPaced(l'[id]) {
      EntryPacedStep(s, l, e, id);
    }
    forall u | u in t.calls ensures CallPaced(l', t.clock, t.calls[u]) {
      if e.Fail? && u == e.tok {
        FailPaced(s, l, e);
      } else if u in s.calls && t.calls[u] == s.calls[u] {
        OtherCallPaced(s, l, e, u);
      }
    }
  }

  lemma EntryPacedStep(s: State, l: Ledger, e: Event, id: Id)
    requires Coupled(s, l) && Enabled(s, e) && Lawful(l, e) && Paced(s, l) && id in Note(l, e)
    ensures EntryPaced(Note(l, e)[id])
  {
    if id in l {
      assert EntryPaced(l[id]);
      if e.Requeue? && e.job.id == id {
        assert CallPaced(l, s.clock, s.calls[e.tok]);
      }
    }
  }

  /** A decided call stays paced while its job keeps its first failure and its record. */
  lemma PacedFrame(l: Ledger, l': Ledger, clock: Time, clock': Time, c: Call)
    requires CallPaced(l, clock, c) && clock <= clock' && (c.Requeuing? || c.Burying?) && c.job.id in l
    requires c.job.id in l' && l'[c.job.id].firstFailure == l[c.job.id].firstFailure
    requires l'[c.job.id].job.attempts == l[c.job.id].job.attempts || c.job.attempts != l'[c.job.id].job.attempts + 1
    ensures CallPaced(l', clock', c)
  {
  }

  /** Events other than a failure leave the first failure of an active job alone, and a decided
      call one attempt ahead of the record only while it is. */
  lemma DecidedFrame(l: Ledger, clock: Time, e: Event, c: Call)
    requires Lawful(l, e) && CallOk(l, clock, c) && (c.Requeuing? || c.Burying?)
    requires e.Fail? ==> e.job.id != c.job.id
    ensures var id, l' := c.job.id, Note(l, e);
            && id in l && id in l' && l'[id].firstFailure == l[id].firstFailure
            && (l'[id].job.attempts == l[id].job.attempts || c.job.attempts != l'[id].job.attempts + 1)
  {
  }

  lemma ClockForward(s: State, e: Event)
    requires Enabled(s, e)
    ensures s.clock <= Apply(s, e).clock
  {
  }

  /** No other call can be waiting to requeue the job that an event is about. */
  lemma OtherCallPaced(s: State, l: Ledger, e: Event, u: Token)
    requires CallsOk(s, l) && SoleOwners(s) && l.Keys == s.issued && Enabled(s, e) && Lawful(l, e) && Paced(s, l)
    requires u in s.calls && (e.Fail? ==> u != e.tok)
    ensures CallPaced(Note(l, e), Apply(s, e).clock, s.calls[u])
  {
    var c := s.calls[u];
    assert CallPaced(l, s.clock, c) && CallOk(l, s.clock, c);
    if c.Requeuing? || c.Burying? {
      if e.Fail? {
        OnlyOwner(s, e.tok, e.job.id);
      }
      DecidedFrame(l, s.clock, e, c);
      ClockForward(s, e);
      PacedFrame(l, Note(l, e), s.clock, Apply(s, e).clock, c);
    }
  }

  lemma {:induction false} RunPaced(evs: seq<Event>)
    requires Legal(evs) && Solo(evs)
    ensures Paced(Exec(evs), History(evs))
  {
    if evs != [] {
      var f := Front(evs);
      RunPaced(f);
      RunCoupled(f);
      NeverEarly(f);
      PacedStep(Exec(f), History(f), Last(evs));
    }
  }

  lemma FirstFailureStep(l: Ledger, e: Event, id: Id)
    requires Lawful(l, e) && id in l && !(e.Fail? && e.job.id == id && e.job.attempts == 0)
    ensures id in Note(l, e) && Note(l, e)[id].firstFailure == l[id].firstFailure
  {
  }

  /** Between the first failure of a job and its last, the history keeps the time of the first. */
  lemma {:induction false} FirstFailureKept(evs: seq<Event>, i: nat, j: nat)
    requires Legal(evs) && i < j <= |evs| && evs[i].Fail? && evs[i].job.attempts == 0
    requires forall m | i < m < j :: !(evs[m].Fail? && evs[m].job.id == evs[i].job.id && evs[m].job.attempts == 0)
    ensures var id := evs[i].job.id;
            id in History(evs[..j]) && History(evs[..j])[id].firstFailure == evs[i].now
  {
    var id := evs[i].job.id;
    StepAt(evs, j - 1);
    RunCoupled(evs[..j - 1]);
    StepLawful(Exec(evs[..j - 1]), History(evs[..j - 1]), evs[j - 1]);
    if i < j - 1 {
      FirstFailureKept(evs, i, j - 1);
      FirstFailureStep(History(evs[..j - 1]), evs[j - 1], id);
    }
  }

  /** A burial after the last attempt raised the counter by one over the record. */
  lemma LastAttempt(s: State, l: Ledger, e: Event)
    requires Coupled(s, l) && Enabled(s, e) && e.Bury? && e.job.attempts == e.job.maxAttempts
    ensures e.job.id in l && e.job.attempts == l[e.job.id].job.attempts + 1
  {
    assert CallOk(l, s.clock, s.calls[e.tok]);
    assert EntryOk(e.job.id, l[e.job.id]);
  }

  /** With a single scheduler, a job with MaxAttempts = M <= 310 that dies of M failures spends at
      least the sum over n = 1..M-1 of n^4 + 15 seconds between its first failure and the moment
      it is put on the dead list. */
  lemma DeathIsPaced(evs: seq<Event>, i: nat, j: nat)
    requires Legal(evs) && Solo(evs) && i < j < |evs|
    requires evs[i].Fail? && evs[j].Bury? && evs[i].job.id == evs[j].job.id
    requires evs[i].job.attempts == 0
    requires forall m | i < m < j :: !(evs[m].Fail? && evs[m].job.id == evs[i].job.id && evs[m].job.attempts == 0)
    requires 1 <= evs[j].job.attempts == evs[j].job.maxAttempts <= 310
    ensures Legal(evs[..j]) && evs[i].now + Backoffs(evs[j].job.maxAttempts - 1) <= Exec(evs[..j]).clock
  {
    var f := evs[..j];
    StepAt(evs, j);
    FirstFailureKept(evs, i, j);
    assert CallPaced(History(f), Exec(f).clock, Burying(evs[j].job)) by {
      SoloPrefix(evs, j);
      RunPaced(f);
    }
    assert evs[j].job.attempts == History(f)[evs[j].job.id].job.attempts + 1 by {
      RunCoupled(f);
      LastAttempt(Exec(f), History(f), evs[j]);
    }
  }

  lemma {:induction false} SoloPrefix(evs: seq<Event>, k: nat)
    requires Legal(evs) && Solo(evs) && k <= |evs|
    ensures Legal(evs[..k]) && Solo(evs[..k])
    decreases |evs|
  {
    if k < |evs| {
      assert Front(evs)[..k] == evs[..k];
      SoloPrefix(Front(evs), k);
    } else {
      assert evs[..k] == evs;
    }
  }
}
