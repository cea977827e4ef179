/** Every job makes a bounded number of moves and its handler runs a bounded number of times. */
module Effort {
  import opened Jobs
  import opened Lifecycle
  import opened Invariant
  import opened Flows

  /** No event changes the identity of a job: queue, type, payload, limits and creation time
      stay those it was enqueued with. */
  lemma {:induction false} IdentityKept(evs: seq<Event>, k: nat)
    requires Legal(evs) && k < |evs| && evs[k].Enqueue?
    ensures var job := evs[k].job;
            job.id in History(evs) && Fixed(History(evs)[job.id].job) == Fixed(job)
            && History(evs)[job.id].job.maxAttempts == job.maxAttempts
    decreases |evs|
  {
    LastLawful(evs);
    if k < |evs| - 1 {
      assert Front(evs)[k] == evs[k];
      IdentityKept(Front(evs), k);
      IdentityStep(History(Front(evs)), Last(evs), evs[k].job.id);
    }
  }

  lemma IdentityStep(l: Ledger, e: Event, id: Id)
    requires Lawful(l, e) && id in l
    ensures id in Note(l, e) && Fixed(Note(l, e)[id].job) == Fixed(l[id].job)
    ensures Note(l, e)[id].job.maxAttempts == l[id].job.maxAttempts
  {
  }

  // ---------- the measure ----------

  /** The event takes the job from one place to another, after Enqueue has stored it. */
  predicate MovesJob(e: Event, id: Id) {
    match e
    case Pop(_, _, i, _) => i == id
    case Requeue(_, job, _) => job.id == id
    case Bury(_, job) => job.id == id
    case Release(_, i) => i == id
    case Revive(_, i, _, ok) => ok && i == id
    case Promote(_, _, i, moved) => moved && i == id
    case _ => false
  }

  /** Three moves for each attempt still to come, plus a rank for the place; nothing is left
      for a dead or acknowledged job. */
  function Fuel(e: Entry): int {
    var left := 3 * (e.job.maxAttempts - e.job.attempts - 1);
    match e.place
    case Gone => 0
    case Stored(InDead(_)) => 0
    case Stored(InActive) => left + 1
    case Stored(InQueue(_)) => left + 2
    case Stored(_) => left + 3
  }

  /** How often the job can still be delivered. */
  function Deliverable(e: Entry): int {
    match e.place
    case Gone => 0
    case Stored(InDead(_)) => 0
    case Stored(InActive) => e.job.maxAttempts - e.job.attempts - 1
    case Stored(_) => e.job.maxAttempts - e.job.attempts
  }

  /** Every move but a manual retry strictly lowers the measure, no other event changes it,
      and it never drops below zero (FuelBounds). */
  lemma FuelStep(l: Ledger, e: Event, id: Id)
    requires Lawful(l, e) && Sound(l) && id in l
    ensures id in Note(l, e)
    ensures !Is(e, Revived, id) && MovesJob(e, id) ==> Fuel(Note(l, e)[id]) < Fuel(l[id])
    ensures !MovesJob(e, id) ==> Fuel(Note(l, e)[id]) == Fuel(l[id])
    ensures Is(e, Revived, id) ==> Fuel(Note(l, e)[id]) == 3 * l[id].job.maxAttempts - 1
    ensures !Is(e, Revived, id) ==>
              Deliverable(Note(l, e)[id]) + (if e.Pop? && e.id == id then 1 else 0) <= Deliverable(l[id])
    ensures Is(e, Revived, id) ==> Deliverable(Note(l, e)[id]) == l[id].job.maxAttempts
  {
    assert EntryOk(id, l[id]);
  }

  lemma FuelBounds(l: Ledger, id: Id)
    requires Sound(l) && id in l
    ensures 0 <= Fuel(l[id]) <= 3 * l[id].job.maxAttempts
    ensures 0 <= Deliverable(l[id]) <= l[id].job.maxAttempts
  {
    assert EntryOk(id, l[id]);
  }

  function Moves(evs: seq<Event>, id: Id): nat {
    if evs == [] then 0 else Moves(Front(evs), id) + (if MovesJob(Last(evs), id) then 1 else 0)
  }

  function Deliveries(evs: seq<Event>, id: Id): nat {
    if evs == [] then 0 else Deliveries(Front(evs), id) + (if Last(evs).Pop? && Last(evs).id == id then 1 else 0)
  }

  /** Moves counts the moves. */
  lemma {:induction false} MovesCount(evs: seq<Event>, id: Id)
    ensures Moves(evs, id) == |set k: nat | k < |evs| && MovesJob(evs[k], id)|
  {
    var steps := set k: nat | k < |evs| && MovesJob(evs[k], id);
    if evs == [] {
      assert steps == {};
    } else {
      var f := Front(evs);
      MovesCount(f, id);
      var before := set k: nat | k < |f| && MovesJob(f[k], id);
      assert steps == before + (if MovesJob(Last(evs), id) then {|f|} else {});
    }
  }

  /** Deliveries counts the deliveries. */
  lemma {:induction false} DeliveriesCount(evs: seq<Event>, id: Id)
    ensures Deliveries(evs, id) == |set k: nat | k < |evs| && evs[k].Pop? && evs[k].id == id|
  {
    var steps := set k: nat | k < |evs| && evs[k].Pop? && evs[k].id == id;
    if evs == [] {
      assert steps == {};
    } else {
      var f := Front(evs);
      DeliveriesCount(f, id);
      var before := set k: nat | k < |f| && f[k].Pop? && f[k].id == id;
      assert steps == before + (if Last(evs).Pop? && Last(evs).id == id then {|f|} else {});
    }
  }

  /** Before its Enqueue nothing has happened to a job. */
  lemma {:induction false} NothingBefore(evs: seq<Event>, id: Id)
    requires Legal(evs) && id !in History(evs)
    ensures Moves(evs, id) == Deliveries(evs, id) == Tally(evs, Revived, id) == 0
  {
    if evs != [] {
      LastLawful(evs);
      NothingBefore(Front(evs), id);
    }
  }

  /** m for each life. */
  function Budget(m: int, lives: nat): int {
    if lives == 0 then 0 else Budget(m, lives - 1) + m
  }

  lemma {:induction false} BudgetIsProduct(m: int, lives: nat)
    ensures Budget(m, lives) == m * lives
  {
    if lives > 0 {
      BudgetIsProduct(m, lives - 1);
      assert m * lives == m * (lives - 1) + m;
    }
  }

  /** Moves made and deliveries made stay within the budget of the lives used so far. */
  predicate Within(e: Entry, moves: nat, deliveries: nat, lives: nat) {
    && moves + Fuel(e) <= 3 * Budget(e.job.maxAttempts, lives)
    && deliveries + Deliverable(e) <= Budget(e.job.maxAttempts, lives)
  }

  lemma WithinStep(l: Ledger, e: Event, id: Id, moves: nat, deliveries: nat, lives: nat)
    requires Lawful(l, e) && Sound(l) && id in l && Within(l[id], moves, deliveries, lives)
    ensures id in Note(l, e)
    ensures Within(Note(l, e)[id], moves + (if MovesJob(e, id) then 1 else 0),
                   deliveries + (if e.Pop? && e.id == id then 1 else 0),
                   lives + (if Is(e, Revived, id) then 1 else 0))
  {
    FuelStep(l, e, id);
    FuelBounds(l, id);
    IdentityStep(l, e, id);
  }

  lemma WithinStart(l: Ledger, e: Event, id: Id)
    requires Lawful(l, e) && id !in l && id in Note(l, e)
    ensures Within(Note(l, e)[id], 0, 0, 1) && !MovesJob(e, id) && !e.Pop? && !Is(e, Revived, id)
  {
    assert Budget(e.job.maxAttempts, 1) == e.job.maxAttempts;
  }

  /** One more event, counted. */
  lemma Counted(evs: seq<Event>, id: Id)
    requires evs != []
    ensures var f, e := Front(evs), Last(evs);
            && Moves(evs, id) == Moves(f, id) + (if MovesJob(e, id) then 1 else 0)
            && Deliveries(evs, id) == Deliveries(f, id) + (if e.Pop? && e.id == id then 1 else 0)
            && Tally(evs, Revived, id) == Tally(f, Revived, id) + (if Is(e, Revived, id) then 1 else 0)
  {
  }

  lemma BoundedStep(evs: seq<Event>, id: Id, moves: nat, deliveries: nat, lives: nat)
    requires Legal(evs) && evs != [] && id in History(Front(evs))
    requires Within(History(Front(evs))[id], moves, deliveries, lives)
    ensures id in History(evs)
    ensures var e := Last(evs);
            Within(History(evs)[id], moves + (if MovesJob(e, id) then 1 else 0),
                   deliveries + (if e.Pop? && e.id == id then 1 else 0), lives + (if Is(e, Revived, id) then 1 else 0))
  {
    LastLawful(evs);
    WithinStep(History(Front(evs)), Last(evs), id, moves, deliveries, lives);
  }

  lemma BoundedStart(evs: seq<Event>, id: Id)
    requires Legal(evs) && evs != [] && id in History(evs) && id !in History(Front(evs))
    ensures Moves(evs, id) == Deliveries(evs, id) == Tally(evs, Revived, id) == 0 && Within(History(evs)[id], 0, 0, 1)
  {
    LastLawful(evs);
    NothingBefore(Front(evs), id);
    WithinStart(History(Front(evs)), Last(evs), id);
    Counted(evs, id);
  }

  lemma {:induction false} Bounded(evs: seq<Event>, id: Id)
    requires Legal(evs) && id in History(evs)
    ensures Within(History(evs)[id], Moves(evs, id), Deliveries(evs, id), 1 + Tally(evs, Revived, id))
  {
    if evs != [] {
      var f := Front(evs);
      if id in History(f) {
        Bounded(f, id);
        BoundedStep(evs, id, Moves(f, id), Deliveries(f, id), 1 + Tally(f, Revived, id));
        Counted(evs, id);
      } else {
        BoundedStart(evs, id);
      }
    }
  }

  lemma WithinBudget(evs: seq<Event>, k: nat, m: int, lives: nat)
    requires Legal(evs) && k < |evs| && evs[k].Enqueue?
    requires m == evs[k].job.maxAttempts && lives == 1 + Tally(evs, Revived, evs[k].job.id)
    ensures Moves(evs, evs[k].job.id) <= 3 * Budget(m, lives)
    ensures Deliveries(evs, evs[k].job.id) <= Budget(m, lives)
  {
    var id := evs[k].job.id;
    IdentityKept(evs, k);
    Bounded(evs, id);
    assert 0 <= Fuel(History(evs)[id]) && 0 <= Deliverable(History(evs)[id]) by {
      RunCoupled(evs);
      FuelBounds(History(evs), id);
    }
  }

  /** A job enqueued with MaxAttempts = M makes at most 3M moves, and is delivered to a worker
      at most M times; each manual retry from the dead letters buys as many again. */
  lemma MovesBounded(evs: seq<Event>, k: nat)
    requires Legal(evs) && k < |evs| && evs[k].Enqueue?
    ensures var job := evs[k].job;
            var lives := 1 + Tally(evs, Revived, job.id);
            && Moves(evs, job.id) <= 3 * (job.maxAttempts * lives)
            && Deliveries(evs, job.id) <= job.maxAttempts * lives
  {
    var m, lives := evs[k].job.maxAttempts, 1 + Tally(evs, Revived, evs[k].job.id);
    WithinBudget(evs, k, m, lives);
    BudgetIsProduct(m, lives);
  }

  // ---------- handler runs ----------

  /** The event ends a run of the job's handler: the worker has its outcome, or has found that
      there is no handler, or gives the job up while it holds it. The last covers a handler that
      succeeds and whose acknowledgement then fails; it also counts a job dropped before its
      handler started, which can only make the count too high. */
  predicate Decides(s: State, e: Event, id: Id) {
    || ((e.Fail? || e.Reject?) && e.job.id == id)
    || (e.Release? && e.id == id)
    || (e.Drop? && e.tok in s.calls && s.calls[e.tok].Holding? && s.calls[e.tok].job.id == id)
  }

  ghost function HandlerRuns(evs: seq<Event>, id: Id): nat
    requires Legal(evs)
  {
    if evs == [] then 0 else HandlerRuns(Front(evs), id) + (if Decides(Exec(Front(evs)), Last(evs), id) then 1 else 0)
  }

  /** The k-th event ends a run of the job's handler. */
  ghost predicate DecidesAt(evs: seq<Event>, k: nat, id: Id) {
    k < |evs| && Legal(evs[..k]) && Decides(Exec(evs[..k]), evs[k], id)
  }

  ghost function DecidingSteps(evs: seq<Event>, id: Id): set<nat> {
    set k: nat | k < |evs| && DecidesAt(evs, k, id)
  }

  lemma OneMoreStep(evs: seq<Event>, id: Id)
    requires evs != []
    ensures var n := |evs| - 1;
            && DecidingSteps(evs, id) == DecidingSteps(Front(evs), id) + (if DecidesAt(evs, n, id) then {n} else {})
            && n !in DecidingSteps(Front(evs), id)
  {
    forall k: nat | k < |evs| - 1 ensures DecidesAt(evs, k, id) <==> DecidesAt(Front(evs), k, id) {
      SameBefore(evs, k, id);
    }
  }

  /** HandlerRuns counts the events that end a run of the handler. */
  lemma {:induction false} HandlerRunsCount(evs: seq<Event>, id: Id)
    requires Legal(evs)
    ensures HandlerRuns(evs, id) == |DecidingSteps(evs, id)|
  {
    if evs == [] {
      assert DecidingSteps(evs, id) == {};
    } else {
      HandlerRunsCount(Front(evs), id);
      OneMoreStep(evs, id);
      LastDecides(evs, id);
    }
  }

  lemma SameBefore(evs: seq<Event>, k: nat, id: Id)
    requires evs != [] && k < |evs| - 1
    ensures DecidesAt(evs, k, id) <==> DecidesAt(Front(evs), k, id)
  {
    assert evs[..k] == Front(evs)[..k];
  }

  lemma LastDecides(evs: seq<Event>, id: Id)
    requires Legal(evs) && evs != []
    ensures DecidesAt(evs, |evs| - 1, id) <==> Decides(Exec(Front(evs)), Last(evs), id)
  {
    assert evs[..|evs| - 1] == Front(evs);
  }

  predicate Open(c: Call, id: Id) {
    (c.Popping? || c.Holding?) && Owns(c, id)
  }

  /** The job was delivered and its handler has not finished. */
  ghost predicate Undecided(s: State, id: Id) {
    exists t :: t in s.calls && Open(s.calls[t], id)
  }

  /** A call is open for a job only if it was already, or has just popped it. */
  lemma OpenBefore(s: State, l: Ledger, e: Event, t: Token, id: Id)
    requires Coupled(s, l) && Enabled(s, e) && t in Apply(s, e).calls && Open(Apply(s, e).calls[t], id)
    ensures (t in s.calls && Open(s.calls[t], id)) || (e.Pop? && e.id == id)
  {
    if e.Read? && e.tok == t {
      assert CallOk(l, s.clock, s.calls[t]) && KeptAt(s.store, e.id, l[e.id]) && EntryOk(e.id, l[e.id]);
    }
  }

  lemma UndecidedStep(s: State, l: Ledger, e: Event, id: Id)
    requires Coupled(s, l) && Enabled(s, e)
    ensures Undecided(Apply(s, e), id) ==> Undecided(s, id) || (e.Pop? && e.id == id)
    ensures e.Pop? && e.id == id ==> !Undecided(s, id)
    ensures Decides(s, e, id) ==> Undecided(s, id) && !Undecided(Apply(s, e), id)
  {
    if e.Pop? && e.id == id {
      StepLawful(s, l, e);
      NobodyOwns(s, l, id);
    }
    if Decides(s, e, id) {
      assert Open(s.calls[e.tok], id);
      OnlyOwner(s, e.tok, id);
    }
    if Undecided(Apply(s, e), id) {
      var t :| t in Apply(s, e).calls && Open(Apply(s, e).calls[t], id);
      OpenBefore(s, l, e, t, id);
    }
  }

  /** Every run of a handler has its own delivery, and so has every open one. */
  lemma {:induction false} RunsPerDelivery(evs: seq<Event>, id: Id)
    requires Legal(evs)
    ensures HandlerRuns(evs, id) + (if Undecided(Exec(evs), id) then 1 else 0) <= Deliveries(evs, id)
  {
    if evs != [] {
      RunsPerDelivery(Front(evs), id);
      RunCoupled(Front(evs));
      UndecidedStep(Exec(Front(evs)), History(Front(evs)), Last(evs), id);
    }
  }

  /** Without manual retries the handler of a job runs at most MaxAttempts times in any run. */
  lemma HandlerRunsBounded(evs: seq<Event>, k: nat)
    requires Legal(evs) && k < |evs| && evs[k].Enqueue?
    ensures var job := evs[k].job;
            HandlerRuns(evs, job.id) <= job.maxAttempts * (1 + Tally(evs, Revived, job.id))
  {
    RunsPerDelivery(evs, evs[k].job.id);
    MovesBounded(evs, k);
  }
}
