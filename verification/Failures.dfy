/** What a failure leaves in the store: the error, the attempt and the time of the retry. */
module Failures {
  import opened Jobs
  import opened Backoff
  import opened Lifecycle
  import opened Invariant
  import opened Conservation

  /** A decided call keeps its decision until it settles or is dropped. */
  lemma DecisionStep(s: State, e: Event, tok: Token)
    requires Enabled(s, e) && tok in s.calls && tok < s.next && (s.calls[tok].Requeuing? || s.calls[tok].Burying?)
    ensures tok in Apply(s, e).calls ==> Apply(s, e).calls[tok] == s.calls[tok]
  {
    if !About(e, tok) {
      CallUntouched(s, e, tok);
    }
  }

  lemma GoneForGood(s: State, e: Event, tok: Token)
    requires Enabled(s, e) && tok !in s.calls && tok < s.next
    ensures tok !in Apply(s, e).calls && tok < Apply(s, e).next
  {
    if !About(e, tok) {
      CallUntouched(s, e, tok);
    }
  }

  /** What the call has decided at one point of a run it still holds to at any later one. */
  lemma {:induction false} DecisionKept(evs: seq<Event>, k: nat, j: nat, tok: Token, c: Call)
    requires Legal(evs) && k <= j <= |evs| && Legal(evs[..k]) && (c.Requeuing? || c.Burying?)
    requires InProgress(Exec(evs[..k]), tok, c)
    ensures Legal(evs[..j]) && tok < Exec(evs[..j]).next
    ensures tok in Exec(evs[..j]).calls ==> Exec(evs[..j]).calls[tok] == c
    decreases j
  {
    PrefixLegal(evs, j);
    if k == j {
      RunCoupled(evs[..k]);
    } else {
      DecisionKept(evs, k, j - 1, tok, c);
      var s, e := Exec(evs[..j - 1]), evs[j - 1];
      ExecAt(evs, j - 1);
      if tok in s.calls {
        DecisionStep(s, e, tok);
        NextGrows(s, e);
      } else {
        GoneForGood(s, e, tok);
      }
    }
  }

  lemma NextGrows(s: State, e: Event)
    requires Enabled(s, e)
    ensures s.next <= Apply(s, e).next
  {
  }

  /** What a call that has decided writes when it settles. */
  lemma SettledAs(s: State, e: Event, c: Call)
    requires Enabled(s, e) && (e.Requeue? || e.Bury?) && s.calls[e.tok] == c
    ensures (e.Requeue? <==> c.Requeuing?) && (e.Bury? <==> c.Burying?) && e.job == c.job
    ensures e.Requeue? ==> e.at == c.at
    ensures e.job.id in Apply(s, e).store.jobs && Apply(s, e).store.jobs[e.job.id] == c.job
  {
  }

  /** From the decision at k to its settlement at j. */
  lemma FromDecision(evs: seq<Event>, k: nat, j: nat, c: Call)
    requires Legal(evs) && k < j < |evs| && (evs[k].Fail? || evs[k].Reject?) && (evs[j].Requeue? || evs[j].Bury?)
    requires evs[j].tok == evs[k].tok && (c.Requeuing? || c.Burying?)
    requires Legal(evs[..k]) && Enabled(Exec(evs[..k]), evs[k])
    requires InProgress(Apply(Exec(evs[..k]), evs[k]), evs[k].tok, c)
    ensures Legal(evs[..j + 1]) && (evs[j].Bury? <==> c.Burying?) && evs[j].job == c.job
    ensures evs[j].Requeue? ==> evs[j].at == c.at
    ensures c.job.id in Exec(evs[..j + 1]).store.jobs && Exec(evs[..j + 1]).store.jobs[c.job.id] == c.job
  {
    ExecAt(evs, k);
    ExecAt(evs, j);
    assert Exec(evs[..j]).calls[evs[j].tok] == c by { DecisionKept(evs, k + 1, j, evs[k].tok, c); }
    SettledAs(Exec(evs[..j]), evs[j], c);
  }

  /** What Fail decides, field by field. */
  lemma FailDecides(s: State, e: Event)
    requires Enabled(s, e) && e.Fail?
    ensures e.tok in Apply(s, e).calls
    ensures var c := Apply(s, e).calls[e.tok];
            && (c.Requeuing? || c.Burying?) && (c.Burying? <==> e.job.attempts + 1 >= e.job.maxAttempts)
            && c.job.id == e.job.id && c.job.lastError == e.error && c.job.attempts == e.job.attempts + 1
            && Fixed(c.job) == Fixed(e.job) && c.job.status == (if c.Burying? then StatusDead else StatusRetry)
            && (c.Requeuing? && e.job.attempts < 309 ==>
                  var n := e.job.attempts + 1;
                  c.at == e.now + n * n * n * n + 15 + e.jitter * (n + 1))
  {
    if e.job.attempts < 309 {
      WhenRetried(e.now, e.frac, e.job.attempts + 1, e.jitter);
    }
  }

  /** When a failed delivery is settled, the record holds that failure: its error, one attempt
      more than before, and dead or waiting for a retry as the attempts say. A retry waits for the
      backoff of that attempt from the second of the failure. */
  lemma FailureRecorded(evs: seq<Event>, k: nat, j: nat)
    requires Legal(evs) && k < j < |evs| && evs[k].Fail? && (evs[j].Requeue? || evs[j].Bury?)
    requires evs[j].tok == evs[k].tok
    ensures Legal(evs[..j + 1])
    ensures var before, id := evs[k].job, evs[k].job.id;
            var s := Exec(evs[..j + 1]).store;
            && evs[j].job.id == id && id in s.jobs
            && s.jobs[id].lastError == evs[k].error && s.jobs[id].attempts == before.attempts + 1
            && Fixed(s.jobs[id]) == Fixed(before)
            && (evs[j].Bury? <==> before.attempts + 1 >= before.maxAttempts)
            && s.jobs[id].status == (if evs[j].Bury? then StatusDead else StatusRetry)
            && (evs[j].Requeue? && before.attempts < 309 ==>
                  var n := before.attempts + 1;
                  evs[j].at == evs[k].now + n * n * n * n + 15 + evs[k].jitter * (n + 1))
  {
    StepAt(evs, k);
    var s := Exec(evs[..k]);
    FailDecides(s, evs[k]);
    FromDecision(evs, k, j, Apply(s, evs[k]).calls[evs[k].tok]);
  }

  /** A job without a handler goes to the dead list with the reason and no attempt used. */
  lemma RejectionRecorded(evs: seq<Event>, k: nat, j: nat)
    requires Legal(evs) && k < j < |evs| && evs[k].Reject? && (evs[j].Requeue? || evs[j].Bury?)
    requires evs[j].tok == evs[k].tok
    ensures Legal(evs[..j + 1]) && evs[j].Bury?
    ensures var id, s := evs[k].job.id, Exec(evs[..j + 1]).store;
            && evs[j].job.id == id && id in s.jobs
            && s.jobs[id] == evs[k].job.(status := StatusDead, lastError := evs[k].error)
  {
    StepAt(evs, k);
    var s, c := Exec(evs[..k]), Burying(evs[k].job.(status := StatusDead, lastError := evs[k].error));
    assert InProgress(Apply(s, evs[k]), evs[k].tok, c);
    FromDecision(evs, k, j, c);
  }
}
