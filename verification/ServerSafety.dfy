/** Single holder, backpressure and graceful shutdown of one server. */
module ServerSafety {
  import opened Jobs
  import opened Lifecycle
  import opened Invariant
  import opened Server

  // ---------- one delivery ----------

  /** A delivery is in order: until it is settled its job is active, in the hands of the call
      while there is one and of nobody once the call is dropped. */
  ghost predicate DeliveryOk(s: State, l: Ledger, tok: Token, id: Id, settled: bool) {
    && tok < s.next
    && (tok in s.calls ==> if settled then s.calls[tok] == Acking(id) else Owns(s.calls[tok], id))
    && (!settled ==> IsActive(l, id))
    && (!settled && tok !in s.calls ==> forall u | u in s.calls :: !Owns(s.calls[u], id))
  }

  predicate SettlesJob(e: Event, id: Id) {
    ((e.Requeue? || e.Bury?) && e.job.id == id) || (e.Release? && e.id == id)
  }

  /** An active job stays active until it is settled. */
  lemma StaysActive(l: Ledger, e: Event, id: Id)
    requires Lawful(l, e) && IsActive(l, id) && !SettlesJob(e, id)
    ensures IsActive(Note(l, e), id)
  {
  }

  /** Only a call that has the job in its hands can settle it. */
  lemma SettlerOwns(s: State, e: Event, id: Id)
    requires Enabled(s, e) && SettlesJob(e, id)
    ensures e.tok in s.calls && Owns(s.calls[e.tok], id)
  {
  }

  /** A call comes to own a job only by popping it. */
  lemma NewOwner(s: State, l: Ledger, e: Event, u: Token, id: Id)
    requires Coupled(s, l) && Enabled(s, e) && u in Apply(s, e).calls && Owns(Apply(s, e).calls[u], id)
    ensures (u in s.calls && Owns(s.calls[u], id)) || (e.Pop? && e.id == id)
  {
    if e.Read? && e.tok == u {
      assert CallOk(l, s.clock, s.calls[u]) && KeptAt(s.store, e.id, l[e.id]) && EntryOk(e.id, l[e.id]);
    }
  }

  /** A job that is active and in nobody's hands stays so. */
  lemma StaysUnowned(s: State, l: Ledger, e: Event, id: Id)
    requires Coupled(s, l) && Enabled(s, e) && Lawful(l, e) && IsActive(l, id)
             && forall u | u in s.calls :: !Owns(s.calls[u], id)
    ensures forall u | u in Apply(s, e).calls :: !Owns(Apply(s, e).calls[u], id)
  {
    forall u | u in Apply(s, e).calls ensures !Owns(Apply(s, e).calls[u], id) {
      if Owns(Apply(s, e).calls[u], id) {
        NewOwner(s, l, e, u, id);
      }
    }
  }

  /** Steps of other calls do not disturb a delivery. */
  lemma DeliveryUndisturbed(s: State, l: Ledger, e: Event, tok: Token, id: Id, settled: bool)
    requires Coupled(s, l) && Enabled(s, e) && DeliveryOk(s, l, tok, id, settled) && !About(e, tok)
    ensures DeliveryOk(Apply(s, e), Note(l, e), tok, id, settled)
  {
    StepLawful(s, l, e);
    CallUntouched(s, e, tok);
    if !settled {
      if SettlesJob(e, id) {
        SettlerOwns(s, e, id);
        if tok in s.calls {
          OnlyOwner(s, tok, id);
        }
        assert false;
      }
      StaysActive(l, e, id);
      if tok !in s.calls {
        StaysUnowned(s, l, e, id);
      }
    }
  }

  /** The delivery's own steps keep it in order. */
  lemma DeliveryAdvances(s: State, l: Ledger, e: Event, tok: Token, id: Id, settled: bool)
    requires Coupled(s, l) && Enabled(s, e) && DeliveryOk(s, l, tok, id, settled) && About(e, tok)
    requires WorkStep(e) || e.Read?
    ensures DeliveryOk(Apply(s, e), Note(l, e), tok, id, settled || Settling(e))
    ensures Settling(e) ==> SettlesJob(e, id)
  {
    StepLawful(s, l, e);
    if e.Read? {
      assert KeptAt(s.store, e.id, l[e.id]) && EntryOk(e.id, l[e.id]);
    }
    if e.Drop? && !settled {
      OnlyOwner(s, tok, id);
    }
  }

  lemma DeliveryBegins(s: State, l: Ledger, e: Event)
    requires Coupled(s, l) && Enabled(s, e) && e.Pop?
    ensures DeliveryOk(Apply(s, e), Note(l, e), e.tok, e.id, false)
  {
    StepLawful(s, l, e);
  }

  ghost predicate DeliveriesOk(world: World, l: Ledger) {
    forall tok | tok in world.srv.taken :: DeliveryOk(world.core, l, tok, world.srv.taken[tok],
                                                      tok in world.srv.settled)
  }

  /** The history after an action. */
  function NoteAct(l: Ledger, a: Act): Ledger {
    if CoreOf(a).Some? then Note(l, CoreOf(a).value) else l
  }

  // ---------- the slots of the server ----------

  datatype Slot = InDispatcher | InBuffer(i: nat) | InWorker(w: nat)

  /** The token in a slot. */
  predicate Holds(srv: Server, slot: Slot, tok: Token) {
    match slot
    case InDispatcher => srv.disp == Fetching(tok) || srv.disp == Submitting(tok)
    case InBuffer(i) => i < |srv.buffer| && srv.buffer[i] == tok
    case InWorker(w) => IsWorker(srv, w, Busy(tok))
  }

  ghost predicate SlotsOk(world: World) {
    var srv, calls := world.srv, world.core.calls;
    && (forall a, b, tok | Holds(srv, a, tok) && Holds(srv, b, tok) :: a == b)
    && (forall a, tok | Holds(srv, a, tok) :: tok in srv.taken)
    && DispCallOk(calls, srv.disp)
    && (forall i | 0 <= i < |srv.buffer| :: srv.buffer[i] in calls && calls[srv.buffer[i]].Holding?)
    && (forall tok | tok in srv.taken && tok in calls :: exists a :: Holds(srv, a, tok))
    && (forall tok | tok in srv.taken :: tok < world.core.next)
    && srv.settled <= srv.taken.Keys
    && |srv.buffer| <= srv.capacity
  }

  /** The pass in progress is a call of its own, not a delivery. */
  ghost predicate PassCallOk(world: World) {
    world.srv.sched.Passing? ==>
      var tok := world.srv.sched.tok;
      tok in world.core.calls && world.core.calls[tok].Promoting? && tok !in world.srv.taken && tok < world.core.next
  }

  /** Once closed, everything has stopped. */
  ghost predicate AllStopped(srv: Server) {
    srv.closed ==>
      && srv.cancelled && srv.disp == Stopped && srv.sched == Halted
      && forall w | 0 <= w < |srv.workers| :: srv.workers[w] == Exited
  }

  ghost predicate PassOk(world: World) {
    PassCallOk(world) && AllStopped(world.srv)
  }

  ghost predicate WorldOk(world: World, l: Ledger) {
    Coupled(world.core, l) && DeliveriesOk(world, l) && SlotsOk(world) && PassOk(world)
  }

  // ---------- preservation ----------

  lemma DeliveriesStep(world: World, l: Ledger, a: Act)
    requires WorldOk(world, l) && Possible(world, a)
    ensures DeliveriesOk(Do(world, a), NoteAct(l, a))
  {
    var srv, s, srv' := world.srv, world.core, Local(world, a);
    forall tok | tok in srv'.taken
      ensures DeliveryOk(Do(world, a).core, NoteAct(l, a), tok, srv'.taken[tok], tok in srv'.settled)
    {
      OneDeliveryStep(world, l, a, tok);
    }
  }

  /** A delivery once taken stays on the record. */
  lemma TakenStays(world: World, a: Act, tok: Token)
    requires Possible(world, a) && tok in world.srv.taken && tok < world.core.next
    ensures tok in Local(world, a).taken && Local(world, a).taken[tok] == world.srv.taken[tok]
  {
  }

  lemma OwnEvent(world: World, a: Act, tok: Token)
    requires Possible(world, a) && tok in world.srv.taken && tok < world.core.next && world.srv.sched != Passing(tok)
    requires Advances(a, tok)
    ensures WorkStep(CoreOf(a).value) || CoreOf(a).value.Read?
    ensures Settling(CoreOf(a).value) ==> a.Work?
  {
  }

  lemma SettledStep(world: World, a: Act, tok: Token)
    requires Possible(world, a) && (Advances(a, tok) && Settling(CoreOf(a).value) ==> a.Work?)
    ensures tok in Local(world, a).settled <==> tok in world.srv.settled
                                                || (Advances(a, tok) && Settling(CoreOf(a).value))
  {
  }

  /** The server's own steps on a delivery are those of Dequeue's GET and of a worker. */
  lemma OwnStep(world: World, a: Act, tok: Token)
    requires Possible(world, a) && tok in world.srv.taken && tok < world.core.next && world.srv.sched != Passing(tok)
    ensures tok in Local(world, a).taken && Local(world, a).taken[tok] == world.srv.taken[tok]
    ensures CoreOf(a).Some? && About(CoreOf(a).value, tok) ==>
              var e := CoreOf(a).value;
              (WorkStep(e) || e.Read?) && (tok in Local(world, a).settled <==> tok in world.srv.settled || Settling(e))
    ensures !(CoreOf(a).Some? && About(CoreOf(a).value, tok)) ==>
              (tok in Local(world, a).settled <==> tok in world.srv.settled)
  {
    TakenStays(world, a, tok);
    if Advances(a, tok) {
      OwnEvent(world, a, tok);
    }
    SettledStep(world, a, tok);
  }

  /** A delivery begins with a poll, under a token never used before. */
  lemma NewDelivery(world: World, a: Act, tok: Token)
    requires SlotsOk(world) && Possible(world, a) && tok in Local(world, a).taken && tok !in world.srv.taken
    ensures a.Poll? && CoreOf(a) == Some(a.e) && a.e.tok == tok && Local(world, a).taken[tok] == a.e.id
    ensures tok !in Local(world, a).settled
  {
  }

  lemma OneDeliveryStep(world: World, l: Ledger, a: Act, tok: Token)
    requires WorldOk(world, l) && Possible(world, a) && tok in Local(world, a).taken
    ensures DeliveryOk(Do(world, a).core, NoteAct(l, a), tok, Local(world, a).taken[tok],
                       tok in Local(world, a).settled)
  {
    var srv, s := world.srv, world.core;
    if tok !in srv.taken {
      NewDelivery(world, a, tok);
      DeliveryBegins(s, l, a.e);
    } else {
      assert DeliveryOk(s, l, tok, srv.taken[tok], tok in srv.settled);
      OwnStep(world, a, tok);
      if CoreOf(a).Some? {
        var e := CoreOf(a).value;
        if About(e, tok) {
          DeliveryAdvances(s, l, e, tok, srv.taken[tok], tok in srv.settled);
        } else {
          DeliveryUndisturbed(s, l, e, tok, srv.taken[tok], tok in srv.settled);
        }
      }
    }
  }

  // ---------- slots ----------

  /** Every token keeps to one slot. */
  ghost predicate OneSlot(srv: Server) {
    forall a, b, tok | Holds(srv, a, tok) && Holds(srv, b, tok) :: a == b
  }

  /** Where each slot's token was before the action, if the server had it. */
  function Came(world: World, a: Act, slot: Slot): Slot
  {
    match a
    case Submit => if slot.InBuffer? && slot.i == |world.srv.buffer| then InDispatcher else slot
    case HandOff(w) => if slot == InWorker(w) then InDispatcher else slot
    case TakeJob(w) =>
      if slot == InWorker(w) then InBuffer(0) else if slot.InBuffer? then InBuffer(slot.i + 1) else slot
    case _ => slot
  }

  lemma SlotOrigin(world: World, a: Act, slot: Slot, tok: Token)
    requires Possible(world, a) && Holds(Local(world, a), slot, tok)
    ensures Holds(world.srv, Came(world, a, slot), tok) || (a.Poll? && slot == InDispatcher && tok == a.e.tok)
  {
  }

  lemma OriginInjective(world: World, a: Act, x: Slot, y: Slot, tok: Token)
    requires Possible(world, a) && Holds(Local(world, a), x, tok) && Holds(Local(world, a), y, tok)
    requires Came(world, a, x) == Came(world, a, y)
    ensures x == y
  {
  }

  lemma OneSlotStep(world: World, a: Act)
    requires SlotsOk(world) && Possible(world, a)
    ensures OneSlot(Local(world, a))
  {
    forall x, y, tok | Holds(Local(world, a), x, tok) && Holds(Local(world, a), y, tok) ensures x == y {
      SlotOrigin(world, a, x, tok);
      SlotOrigin(world, a, y, tok);
      OriginInjective(world, a, x, y, tok);
    }
  }

  /** The action makes a step of the call `tok`. */
  predicate Advances(a: Act, tok: Token) {
    CoreOf(a).Some? && About(CoreOf(a).value, tok)
  }

  lemma CallKept(world: World, a: Act, tok: Token)
    requires Possible(world, a) && tok < world.core.next && !Advances(a, tok)
    ensures tok in Do(world, a).core.calls <==> tok in world.core.calls
    ensures tok in world.core.calls ==> Do(world, a).core.calls[tok] == world.core.calls[tok]
  {
    if CoreOf(a).Some? {
      CallUntouched(world.core, CoreOf(a).value, tok);
    }
  }

  /** A delivery advances only in the slot that holds it. */
  lemma AdvancesWhere(world: World, a: Act, slot: Slot, tok: Token)
    requires SlotsOk(world) && PassOk(world) && Possible(world, a) && Holds(world.srv, slot, tok) && Advances(a, tok)
    ensures slot == InDispatcher ==> a.Fetch? || a.FetchError? || a.SubmitCancelled?
    ensures slot.InWorker? ==> a.Work?
    ensures !slot.InBuffer?
  {
    if a.Fetch? || a.FetchError? || a.SubmitCancelled? {
      assert Holds(world.srv, InDispatcher, tok);
    } else if a.Work? {
      assert Holds(world.srv, InWorker(a.w), tok);
    }
  }

  /** The dispatcher's call is where the dispatcher is: popped, or read. */
  predicate DispCallOk(calls: map<Token, Call>, d: Disp) {
    && (d.Fetching? ==> d.tok in calls && calls[d.tok].Popping?)
    && (d.Submitting? ==> d.tok in calls && calls[d.tok].Holding?)
  }

  lemma DispatcherMoves(world: World, a: Act)
    requires Possible(world, a) && Local(world, a).disp != world.srv.disp
    ensures DispCallOk(Do(world, a).core.calls, Local(world, a).disp)
  {
  }

  lemma DispatcherStep(world: World, a: Act)
    requires SlotsOk(world) && PassOk(world) && Possible(world, a)
    ensures DispCallOk(Do(world, a).core.calls, Local(world, a).disp)
  {
    var d := world.srv.disp;
    if Local(world, a).disp != d {
      DispatcherMoves(world, a);
    } else if d.Fetching? || d.Submitting? {
      assert Holds(world.srv, InDispatcher, d.tok);
      if Advances(a, d.tok) {
        AdvancesWhere(world, a, InDispatcher, d.tok);
      } else {
        CallKept(world, a, d.tok);
      }
    }
  }

  lemma BufferStep(world: World, a: Act, i: nat)
    requires SlotsOk(world) && PassOk(world) && Possible(world, a) && i < |Local(world, a).buffer|
    ensures var tok, calls := Local(world, a).buffer[i], Do(world, a).core.calls; tok in calls && calls[tok].Holding?
  {
    var tok := Local(world, a).buffer[i];
    assert Holds(Local(world, a), InBuffer(i), tok);
    SlotOrigin(world, a, InBuffer(i), tok);
    var from := Came(world, a, InBuffer(i));
    assert Holds(world.srv, from, tok);
    if Advances(a, tok) {
      AdvancesWhere(world, a, from, tok);
    } else {
      CallKept(world, a, tok);
    }
  }

  /** Where a slot's token goes. */
  function Goes(world: World, a: Act, slot: Slot): Slot {
    match a
    case Submit => if slot == InDispatcher then InBuffer(|world.srv.buffer|) else slot
    case HandOff(w) => if slot == InDispatcher then InWorker(w) else slot
    case TakeJob(w) =>
      if slot == InBuffer(0) then InWorker(w)
      else if slot.InBuffer? && slot.i > 0 then InBuffer(slot.i - 1) else slot
    case _ => slot
  }

  lemma DispatcherSlotKept(world: World, a: Act, tok: Token)
    requires Possible(world, a) && Holds(world.srv, InDispatcher, tok) && !a.FetchError? && !a.SubmitCancelled?
    ensures Holds(Local(world, a), Goes(world, a, InDispatcher), tok)
  {
  }

  lemma BufferSlotKept(world: World, a: Act, i: nat, tok: Token)
    requires Possible(world, a) && Holds(world.srv, InBuffer(i), tok)
    ensures Holds(Local(world, a), Goes(world, a, InBuffer(i)), tok)
  {
  }

  lemma WorkerSlotKept(world: World, a: Act, w: nat, tok: Token)
    requires Possible(world, a) && Holds(world.srv, InWorker(w), tok) && tok in world.core.calls
    ensures Holds(Local(world, a), Goes(world, a, InWorker(w)), tok)
  {
  }

  lemma GivenUp(world: World, a: Act, tok: Token)
    requires Possible(world, a) && (a.FetchError? || a.SubmitCancelled?) && Holds(world.srv, InDispatcher, tok)
    ensures tok !in Do(world, a).core.calls
  {
  }

  /** A call that goes on keeps its slot or is passed on. */
  lemma SlotKept(world: World, a: Act, slot: Slot, tok: Token)
    requires Possible(world, a) && Holds(world.srv, slot, tok)
    requires tok in world.core.calls && tok in Do(world, a).core.calls
    ensures Holds(Local(world, a), Goes(world, a, slot), tok)
  {
    match slot
    case InDispatcher =>
      if a.FetchError? || a.SubmitCancelled? {
        GivenUp(world, a, tok);
      } else {
        DispatcherSlotKept(world, a, tok);
      }
    case InBuffer(i) => BufferSlotKept(world, a, i, tok);
    case InWorker(w) => WorkerSlotKept(world, a, w, tok);
  }

  lemma SlotExists(world: World, a: Act, tok: Token)
    requires SlotsOk(world) && PassOk(world) && Possible(world, a)
    requires tok in Local(world, a).taken && tok in Do(world, a).core.calls
    ensures exists slot :: Holds(Local(world, a), slot, tok)
  {
    if tok !in world.srv.taken {
      NewDelivery(world, a, tok);
      assert Holds(Local(world, a), InDispatcher, tok);
    } else {
      if !Advances(a, tok) {
        CallKept(world, a, tok);
      }
      assert tok in world.core.calls;
      var slot :| Holds(world.srv, slot, tok);
      SlotKept(world, a, slot, tok);
    }
  }

  lemma SlotsStep(world: World, a: Act)
    requires SlotsOk(world) && PassOk(world) && Possible(world, a)
    ensures SlotsOk(Do(world, a))
  {
    var srv', calls' := Local(world, a), Do(world, a).core.calls;
    OneSlotStep(world, a);
    DispatcherStep(world, a);
    forall slot, tok | Holds(srv', slot, tok) ensures tok in srv'.taken {
      SlotOrigin(world, a, slot, tok);
    }
    forall i | 0 <= i < |srv'.buffer| ensures srv'.buffer[i] in calls' && calls'[srv'.buffer[i]].Holding? {
      BufferStep(world, a, i);
    }
    forall tok | tok in srv'.taken && tok in calls' ensures exists slot :: Holds(srv', slot, tok) {
      SlotExists(world, a, tok);
    }
    forall tok | tok in srv'.taken ensures tok < Do(world, a).core.next {
      TokenOld(world, a, tok);
    }
    SettledAreTaken(world, a);
    BufferFits(world, a);
  }

  lemma TokenOld(world: World, a: Act, tok: Token)
    requires Possible(world, a) && tok in Local(world, a).taken && (tok in world.srv.taken ==> tok < world.core.next)
    ensures tok < Do(world, a).core.next
  {
  }

  lemma SettledAreTaken(world: World, a: Act)
    requires Possible(world, a) && world.srv.settled <= world.srv.taken.Keys
    requires forall slot, tok | Holds(world.srv, slot, tok) :: tok in world.srv.taken
    ensures Local(world, a).settled <= Local(world, a).taken.Keys
  {
    if a.Work? {
      assert Holds(world.srv, InWorker(a.w), a.e.tok);
    }
  }

  lemma BufferFits(world: World, a: Act)
    requires Possible(world, a) && |world.srv.buffer| <= world.srv.capacity
    ensures |Local(world, a).buffer| <= Local(world, a).capacity
  {
  }

  lemma TakenAct(world: World, a: Act)
    requires SlotsOk(world) && Possible(world, a) && (a.Work? || a.Fetch? || a.FetchError? || a.SubmitCancelled?)
    ensures a.e.tok in world.srv.taken
  {
    if a.Work? {
      assert Holds(world.srv, InWorker(a.w), a.e.tok);
    } else {
      assert Holds(world.srv, InDispatcher, a.e.tok);
    }
  }

  /** Only the scheduler itself makes the steps of its pass. */
  lemma PassAdvances(world: World, a: Act)
    requires SlotsOk(world) && PassOk(world) && Possible(world, a) && world.srv.sched.Passing?
    requires Advances(a, world.srv.sched.tok)
    ensures a.PassStep? || a.PassStop?
  {
    if a.Work? || a.Fetch? || a.FetchError? || a.SubmitCancelled? {
      TakenAct(world, a);
    }
  }

  lemma PassCallStep(world: World, a: Act)
    requires PassCallOk(world) && Possible(world, a)
    requires forall tok | tok in world.srv.taken :: tok < world.core.next
    requires world.srv.sched.Passing? && Advances(a, world.srv.sched.tok) ==> a.PassStep? || a.PassStop?
    ensures PassCallOk(Do(world, a))
  {
    if a.PassStart? || a.PassStep? || a.PassStop? || a.StopScheduler? {
    } else if world.srv.sched.Passing? {
      CallKept(world, a, world.srv.sched.tok);
      PassNotTaken(world, a, world.srv.sched.tok);
    }
  }

  lemma PassNotTaken(world: World, a: Act, tok: Token)
    requires Possible(world, a) && tok < world.core.next && tok !in world.srv.taken
    ensures tok !in Local(world, a).taken
  {
  }

  lemma StoppedStep(world: World, a: Act)
    requires AllStopped(world.srv) && Possible(world, a)
    ensures AllStopped(Local(world, a))
  {
  }

  lemma PassStepOk(world: World, a: Act)
    requires SlotsOk(world) && PassOk(world) && Possible(world, a)
    ensures PassOk(Do(world, a))
  {
    if world.srv.sched.Passing? && Advances(a, world.srv.sched.tok) {
      PassAdvances(world, a);
    }
    PassCallStep(world, a);
    StoppedStep(world, a);
  }

  lemma WorldStep(world: World, l: Ledger, a: Act)
    requires WorldOk(world, l) && Possible(world, a)
    ensures WorldOk(Do(world, a), NoteAct(l, a))
  {
    DeliveriesStep(world, l, a);
    SlotsStep(world, a);
    PassStepOk(world, a);
    if CoreOf(a).Some? {
      StepKeeps(world.core, l, CoreOf(a).value);
    }
  }
}
