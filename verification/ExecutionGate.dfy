/** The gate that lets ordinary steps run together and exclusive steps run alone, layered over
    the semaphore of step slots. Actions are the sections of code between awaits; a task parked
    on the condition does not look at the gate again until it is notified. */
module ExecutionGate {

  type Task = nat

  datatype Gate = Gate(
    // the gate's own counters, and what is left of the semaphore
    shared: nat, active: bool, waiters: nat, free: nat,
    // where the tasks are
    parkedExclusive: set<Task>, parkedShared: set<Task>, woken: set<Task>,
    exclusiveIn: set<Task>, sharedIn: set<Task>,
    holding: set<Task>,   // those inside that hold a slot
    leaving: set<Task>,   // those inside that have given it back
    // exits interrupted before they updated the counters
    lostShared: nat, lostExclusive: bool)

  datatype Action =
    | ArriveExclusive(t: Task) | ArriveShared(t: Task)
    | Recheck(t: Task) | CancelWait(t: Task)
    | TakeSlot(t: Task) | CancelInside(t: Task) | GiveSlot(t: Task)
    | Exit(t: Task) | InterruptExit(t: Task)

  function Parked(g: Gate): set<Task> {
    g.parkedExclusive + g.parkedShared
  }

  function Through(g: Gate): set<Task> {
    g.exclusiveIn + g.sharedIn
  }

  // ----- the atomic sections ---------------------------------------------------------

  predicate ExclusiveMayPass(g: Gate) {
    !g.active && g.shared == 0
  }

  predicate SharedMayPass(g: Gate) {
    !g.active && g.waiters == 0
  }

  /** A parked exclusive task looks at the condition: it passes or parks again. */
  function CheckExclusive(g: Gate, t: Task): Gate
    requires g.waiters > 0
  {
    var awake := g.(woken := g.woken - {t});
    if !ExclusiveMayPass(g) then awake
    else awake.(parkedExclusive := g.parkedExclusive - {t}, waiters := g.waiters - 1,
                active := true, exclusiveIn := g.exclusiveIn + {t})
  }

  function CheckShared(g: Gate, t: Task): Gate {
    var awake := g.(woken := g.woken - {t});
    if !SharedMayPass(g) then awake
    else awake.(parkedShared := g.parkedShared - {t}, shared := g.shared + 1, sharedIn := g.sharedIn + {t})
  }

  function NotifyAll(g: Gate): Gate {
    g.(woken := Parked(g))
  }

  predicate Enabled(g: Gate, act: Action) {
    match act
    case ArriveExclusive(t) => t !in Parked(g) + Through(g)
    case ArriveShared(t) => t !in Parked(g) + Through(g)
    case Recheck(t) => t in g.woken && t in Parked(g) && (t in g.parkedExclusive ==> g.waiters > 0)
    case CancelWait(t) => t in Parked(g) && (t in g.parkedExclusive ==> g.waiters > 0)
    case TakeSlot(t) => t in Through(g) - g.holding - g.leaving && g.free > 0
    case CancelInside(t) => t in Through(g) - g.holding - g.leaving
    case GiveSlot(t) => t in g.holding
    case Exit(t) => t in g.leaving && (t !in g.exclusiveIn ==> g.shared > 0)
    case InterruptExit(t) => t in g.leaving
  }

  function Do(g: Gate, act: Action): Gate
    requires Enabled(g, act)
  {
    match act
    case ArriveExclusive(t) =>
      CheckExclusive(g.(waiters := g.waiters + 1, parkedExclusive := g.parkedExclusive + {t}), t)
    case ArriveShared(t) => CheckShared(g.(parkedShared := g.parkedShared + {t}), t)
    case Recheck(t) => if t in g.parkedExclusive then CheckExclusive(g, t) else CheckShared(g, t)
    case CancelWait(t) =>
      if t in g.parkedExclusive
      then NotifyAll(g.(parkedExclusive := g.parkedExclusive - {t}, waiters := g.waiters - 1))
      else g.(parkedShared := g.parkedShared - {t}, woken := g.woken - {t})
    case TakeSlot(t) => g.(free := g.free - 1, holding := g.holding + {t})
    case CancelInside(t) => g.(leaving := g.leaving + {t})
    case GiveSlot(t) => g.(free := g.free + 1, holding := g.holding - {t}, leaving := g.leaving + {t})
    case Exit(t) =>
      var left := g.(exclusiveIn := g.exclusiveIn - {t}, sharedIn := g.sharedIn - {t}, leaving := g.leaving - {t});
      if t in g.exclusiveIn then NotifyAll(left.(active := false)) else NotifyAll(left.(shared := g.shared - 1))
    case InterruptExit(t) =>
      var left := g.(exclusiveIn := g.exclusiveIn - {t}, sharedIn := g.sharedIn - {t}, leaving := g.leaving - {t});
      if t in g.exclusiveIn then left.(lostExclusive := true) else left.(lostShared := g.lostShared + 1)
  }

  function Perform(g: Gate, act: Action): Gate {
    if Enabled(g, act) then Do(g, act) else g
  }

  function RunOf(g: Gate, acts: seq<Action>): Gate {
    if acts == [] then g else Perform(RunOf(g, acts[..|acts| - 1]), acts[|acts| - 1])
  }

  function Fresh(slots: nat): Gate {
    Gate(0, false, 0, slots, {}, {}, {}, {}, {}, {}, {}, 0, false)
  }

  // ----- the invariant ---------------------------------------------------------------

  ghost predicate Counted(g: Gate, slots: nat) {
    && g.shared == |g.sharedIn| + g.lostShared
    && g.waiters == |g.parkedExclusive|
    && |g.holding| + g.free == slots
    && (g.active <==> g.lostExclusive || g.exclusiveIn != {})
  }

  ghost predicate Placed(g: Gate) {
    && g.parkedExclusive !! g.parkedShared && Parked(g) !! Through(g)
    && g.exclusiveIn !! g.sharedIn
    && g.holding <= Through(g) && g.leaving <= Through(g) && g.holding !! g.leaving
  }

  ghost predicate Alone(g: Gate) {
    && (g.exclusiveIn != {} ==> g.sharedIn == {} && g.lostShared == 0 && !g.lostExclusive)
    && (forall t, u :: t in g.exclusiveIn && u in g.exclusiveIn ==> t == u)
  }

  /** Nobody sleeps through a chance to pass. */
  ghost predicate Awake(g: Gate) {
    && (forall t :: t in g.parkedExclusive && t !in g.woken ==> !ExclusiveMayPass(g))
    && (forall t :: t in g.parkedShared && t !in g.woken ==> !SharedMayPass(g))
  }

  ghost predicate Inv(g: Gate, slots: nat) {
    Counted(g, slots) && Placed(g) && Alone(g) && Awake(g)
  }

  lemma CheckExclusiveKeepsInv(g: Gate, t: Task, slots: nat)
    requires Counted(g, slots) && Placed(g) && Alone(g) && Awake(g.(woken := g.woken + {t})) && t in g.parkedExclusive
    requires g.waiters > 0
    ensures Inv(CheckExclusive(g, t), slots)
  {
    if ExclusiveMayPass(g) {
      assert g.sharedIn == {} && g.exclusiveIn == {};
    }
  }

  lemma CheckSharedKeepsInv(g: Gate, t: Task, slots: nat)
    requires Counted(g, slots) && Placed(g) && Alone(g) && Awake(g.(woken := g.woken + {t})) && t in g.parkedShared
    ensures Inv(CheckShared(g, t), slots)
  {
    if SharedMayPass(g) {
      assert g.exclusiveIn == {} && t !in g.sharedIn && g.parkedExclusive == {};
    }
  }

  lemma ExclusiveLeavesNone(g: Gate, t: Task, slots: nat)
    requires Inv(g, slots) && t in g.exclusiveIn
    ensures g.exclusiveIn == {t} && g.exclusiveIn - {t} == {} && g.sharedIn == {} && g.sharedIn - {t} == {}
    ensures !g.lostExclusive && g.lostShared == 0
  {
  }

  lemma ExitExclusiveKeepsInv(g: Gate, t: Task, slots: nat)
    requires Inv(g, slots) && Enabled(g, Exit(t)) && t in g.exclusiveIn
    ensures Inv(Do(g, Exit(t)), slots)
  {
    ExclusiveLeavesNone(g, t, slots);
  }

  lemma ExitSharedKeepsInv(g: Gate, t: Task, slots: nat)
    requires Inv(g, slots) && Enabled(g, Exit(t)) && t !in g.exclusiveIn
    ensures Inv(Do(g, Exit(t)), slots)
  {
    assert t in g.sharedIn && g.exclusiveIn - {t} == g.exclusiveIn;
    assert |g.sharedIn - {t}| == |g.sharedIn| - 1;
  }

  lemma InterruptKeepsInv(g: Gate, t: Task, slots: nat)
    requires Inv(g, slots) && Enabled(g, InterruptExit(t))
    ensures Inv(Do(g, InterruptExit(t)), slots)
  {
    if t in g.exclusiveIn {
      ExclusiveLeavesNone(g, t, slots);
    } else {
      assert t in g.sharedIn && g.exclusiveIn - {t} == g.exclusiveIn;
      assert |g.sharedIn - {t}| == |g.sharedIn| - 1;
    }
  }

  lemma ExitKeepsInv(g: Gate, act: Action, slots: nat)
    requires Inv(g, slots) && Enabled(g, act) && (act.Exit? || act.InterruptExit?)
    ensures Inv(Do(g, act), slots)
  {
    if act.InterruptExit? { InterruptKeepsInv(g, act.t, slots); }
    else if act.t in g.exclusiveIn { ExitExclusiveKeepsInv(g, act.t, slots); }
    else { ExitSharedKeepsInv(g, act.t, slots); }
  }

  lemma ArriveExclusiveKeepsInv(g: Gate, t: Task, slots: nat)
    requires Inv(g, slots) && Enabled(g, ArriveExclusive(t))
    ensures Inv(Do(g, ArriveExclusive(t)), slots)
  {
    CheckExclusiveKeepsInv(g.(waiters := g.waiters + 1, parkedExclusive := g.parkedExclusive + {t}), t, slots);
  }

  lemma ArriveSharedKeepsInv(g: Gate, t: Task, slots: nat)
    requires Inv(g, slots) && Enabled(g, ArriveShared(t))
    ensures Inv(Do(g, ArriveShared(t)), slots)
  {
    CheckSharedKeepsInv(g.(parkedShared := g.parkedShared + {t}), t, slots);
  }

  lemma RecheckKeepsInv(g: Gate, t: Task, slots: nat)
    requires Inv(g, slots) && Enabled(g, Recheck(t))
    ensures Inv(Do(g, Recheck(t)), slots)
  {
    if t in g.parkedExclusive { CheckExclusiveKeepsInv(g, t, slots); } else { CheckSharedKeepsInv(g, t, slots); }
  }

  lemma CancelWaitKeepsInv(g: Gate, t: Task, slots: nat)
    requires Inv(g, slots) && Enabled(g, CancelWait(t))
    ensures Inv(Do(g, CancelWait(t)), slots)
  {
  }

  /** Slots change hands inside the gate, which looks at neither. */
  lemma SlotsOnly(g: Gate, h: Gate, slots: nat)
    requires Inv(g, slots) && h == g.(free := h.free, holding := h.holding, leaving := h.leaving)
    requires |h.holding| + h.free == slots && h.holding <= Through(g) && h.leaving <= Through(g) && h.holding !! h.leaving
    ensures Inv(h, slots)
  {
  }

  lemma TakeSlotKeepsInv(g: Gate, t: Task, slots: nat)
    requires Inv(g, slots) && Enabled(g, TakeSlot(t))
    ensures Inv(Do(g, TakeSlot(t)), slots)
  {
    assert |g.holding + {t}| == |g.holding| + 1;
    SlotsOnly(g, Do(g, TakeSlot(t)), slots);
  }

  lemma CancelInsideKeepsInv(g: Gate, t: Task, slots: nat)
    requires Inv(g, slots) && Enabled(g, CancelInside(t))
    ensures Inv(Do(g, CancelInside(t)), slots)
  {
    SlotsOnly(g, Do(g, CancelInside(t)), slots);
  }

  lemma GiveSlotKeepsInv(g: Gate, t: Task, slots: nat)
    requires Inv(g, slots) && Enabled(g, GiveSlot(t))
    ensures Inv(Do(g, GiveSlot(t)), slots)
  {
    assert |g.holding - {t}| == |g.holding| - 1;
    SlotsOnly(g, Do(g, GiveSlot(t)), slots);
  }

  lemma ActionKeepsInv(g: Gate, act: Action, slots: nat)
    requires Inv(g, slots) && Enabled(g, act)
    ensures Inv(Do(g, act), slots)
  {
    match act
    case ArriveExclusive(t) => ArriveExclusiveKeepsInv(g, t, slots);
    case ArriveShared(t) => ArriveSharedKeepsInv(g, t, slots);
    case Recheck(t) => RecheckKeepsInv(g, t, slots);
    case CancelWait(t) => CancelWaitKeepsInv(g, t, slots);
    case TakeSlot(t) => TakeSlotKeepsInv(g, t, slots);
    case CancelInside(t) => CancelInsideKeepsInv(g, t, slots);
    case GiveSlot(t) => GiveSlotKeepsInv(g, t, slots);
    case Exit(t) => ExitKeepsInv(g, act, slots);
    case InterruptExit(t) => ExitKeepsInv(g, act, slots);
  }

  /** Whatever tasks arrive, are cancelled, or have their exit interrupted, in any order. */
  lemma {:induction false} RunKeepsInv(slots: nat, acts: seq<Action>)
    ensures Inv(RunOf(Fresh(slots), acts), slots)
  {
    if acts != [] {
      var g, act := RunOf(Fresh(slots), acts[..|acts| - 1]), acts[|acts| - 1];
      RunKeepsInv(slots, acts[..|acts| - 1]);
      if Enabled(g, act) { ActionKeepsInv(g, act, slots); }
    }
  }

  // ----- what the gate promises --------------------------------------------------------

  /** In every run an exclusive task that is through the gate is there alone, the waiter count is the
      number of parked exclusive tasks, and at most the configured number of tasks hold a slot. */
  lemma ExclusiveAlone(slots: nat, acts: seq<Action>, t: Task, u: Task)
    ensures var g := RunOf(Fresh(slots), acts);
            && (t in g.exclusiveIn && u in Through(g) ==> t == u)
            && g.waiters == |g.parkedExclusive|
            && |g.holding| <= slots
  {
    RunKeepsInv(slots, acts);
  }

  predicate CanAdvance(g: Gate, t: Task) {
    || Enabled(g, Exit(t))
    || Enabled(g, TakeSlot(t))
    || (t in g.parkedExclusive && t in g.woken && ExclusiveMayPass(g))
    || (t in g.parkedShared && t in g.woken && SharedMayPass(g))
  }

  /** No deadlock and no lost wakeup: unless an exit has been interrupted, whenever some task is
      waiting or leaving and nobody holds a slot, some task can take its next step. */
  lemma SomeoneAdvances(slots: nat, acts: seq<Action>)
    requires slots > 0
    requires var g := RunOf(Fresh(slots), acts);
             g.lostShared == 0 && !g.lostExclusive && g.holding == {} && Parked(g) + Through(g) != {}
    ensures exists t :: CanAdvance(RunOf(Fresh(slots), acts), t)
  {
    RunKeepsInv(slots, acts);
    var t := Advancing(RunOf(Fresh(slots), acts), slots);
  }

  lemma Advancing(g: Gate, slots: nat) returns (t: Task)
    requires Inv(g, slots) && slots > 0 && g.lostShared == 0 && !g.lostExclusive
    requires g.holding == {} && Parked(g) + Through(g) != {}
    ensures CanAdvance(g, t)
  {
    if Through(g) != {} {
      t :| t in Through(g);
    } else {
      assert g.exclusiveIn == {} && g.sharedIn == {};
      if g.parkedExclusive != {} {
        t :| t in g.parkedExclusive;
      } else {
        t :| t in g.parkedShared;
      }
    }
  }

  lemma WaiterStopsShared(g: Gate, act: Action)
    requires g.waiters > 0 && Enabled(g, act) && (act.CancelWait? ==> act.t in Parked(g))
    ensures Do(g, act).sharedIn <= g.sharedIn
  {
  }

  /** Writers are preferred: while an exclusive task is parked, no further shared task passes. */
  lemma WaitingWriterBlocksReaders(slots: nat, acts: seq<Action>, act: Action)
    requires RunOf(Fresh(slots), acts).parkedExclusive != {}
    ensures Perform(RunOf(Fresh(slots), acts), act).sharedIn <= RunOf(Fresh(slots), acts).sharedIn
  {
    var g := RunOf(Fresh(slots), acts);
    RunKeepsInv(slots, acts);
    assert g.waiters == |g.parkedExclusive| > 0;
    if Enabled(g, act) { WaiterStopsShared(g, act); }
  }

  /** An exit interrupted before it clears the exclusive flag closes the gate for good. */
  lemma {:induction false} LostExclusiveExitJams(g: Gate, slots: nat, acts: seq<Action>)
    requires Inv(g, slots) && g.lostExclusive
    ensures var h := RunOf(g, acts);
            Inv(h, slots) && h.lostExclusive && Through(h) <= Through(g)
  {
    if acts != [] {
      var h, act := RunOf(g, acts[..|acts| - 1]), acts[|acts| - 1];
      LostExclusiveExitJams(g, slots, acts[..|acts| - 1]);
      if Enabled(h, act) { ActionKeepsInv(h, act, slots); }
    }
  }

  lemma StarvedStep(g: Gate, act: Action, slots: nat)
    requires Inv(g, slots) && g.lostShared > 0 && Enabled(g, act)
    ensures Do(g, act).lostShared > 0
  {
  }

  lemma StarvedExcludes(g: Gate, slots: nat)
    requires Inv(g, slots) && g.lostShared > 0
    ensures g.exclusiveIn == {}
  {
  }

  /** An exit interrupted before it lowers the shared count shuts out exclusive tasks for good. */
  lemma {:induction false} LostSharedExitStarves(g: Gate, slots: nat, acts: seq<Action>)
    requires Inv(g, slots) && g.lostShared > 0
    ensures Inv(RunOf(g, acts), slots) && RunOf(g, acts).lostShared > 0 && RunOf(g, acts).exclusiveIn == {}
  {
    if acts != [] {
      var h, act := RunOf(g, acts[..|acts| - 1]), acts[|acts| - 1];
      LostSharedExitStarves(g, slots, acts[..|acts| - 1]);
      if Enabled(h, act) {
        ActionKeepsInv(h, act, slots);
        StarvedStep(h, act, slots);
      }
    }
    StarvedExcludes(RunOf(g, acts), slots);
  }

  /** Once the gate has drained, its counters are back to zero exactly when no exit was interrupted,
      and that is exactly when the next exclusive task passes at once. */
  lemma DrainedGateOpensIff(slots: nat, acts: seq<Action>, t: Task)
    requires var g := RunOf(Fresh(slots), acts); Parked(g) == {} && Through(g) == {}
    ensures var g := RunOf(Fresh(slots), acts);
            (t in Do(g, ArriveExclusive(t)).exclusiveIn) <==> (g.lostShared == 0 && !g.lostExclusive)
  {
    RunKeepsInv(slots, acts);
    var g := RunOf(Fresh(slots), acts);
    assert g.sharedIn == {} && g.exclusiveIn == {};
  }

  // ----- the object ----------------------------------------------------------------------

  predicate Shows(g: Gate, shared: nat, active: bool, waiters: nat) {
    g.shared == shared && g.active == active && g.waiters == waiters
  }

  lemma ArrivedShared(g: Gate, t: Task)
    requires Enabled(g, ArriveShared(t))
    ensures Shows(Do(g, ArriveShared(t)), g.shared + if SharedMayPass(g) then 1 else 0, g.active, g.waiters)
  {
  }

  lemma ArrivedExclusive(g: Gate, t: Task)
    requires Enabled(g, ArriveExclusive(t))
    ensures Shows(Do(g, ArriveExclusive(t)), g.shared, g.active || ExclusiveMayPass(g), g.waiters + if ExclusiveMayPass(g) then 0 else 1)
  {
  }

  /** The gate's fields, with a ghost view of where every task is. */
  class ExecutionGate {
    var activeShared: nat
    var exclusiveActive: bool
    var exclusiveWaiters: nat
    const slots: nat
    ghost var view: Gate

    ghost predicate Valid()
      reads this
    {
      Inv(view, slots) && Shows(view, activeShared, exclusiveActive, exclusiveWaiters)
    }

    constructor (slots: nat)
      ensures Valid() && view == Fresh(slots)
    {
      activeShared, exclusiveActive, exclusiveWaiters := 0, false, 0;
      this.slots, view := slots, Fresh(slots);
    }

    /** The ghost view follows an action. */
    ghost method Track(act: Action)
      requires Inv(view, slots) && Enabled(view, act)
      modifies this`view
      ensures view == Do(old(view), act) && Inv(view, slots)
    {
      ActionKeepsInv(view, act, slots);
      view := Do(view, act);
    }

    method ArriveExclusive(t: Task) returns (passed: bool)
      requires Valid() && Enabled(view, Action.ArriveExclusive(t))
      modifies this
      ensures Valid() && view == Do(old(view), Action.ArriveExclusive(t)) && passed == ExclusiveMayPass(old(view))
    {
      ArrivedExclusive(view, t);
      exclusiveWaiters := exclusiveWaiters + 1;
      passed := !exclusiveActive && activeShared == 0;
      assert passed == ExclusiveMayPass(view);
      if passed {
        exclusiveWaiters := exclusiveWaiters - 1;
        exclusiveActive := true;
      }
      Track(Action.ArriveExclusive(t));
    }

    method ArriveShared(t: Task) returns (passed: bool)
      requires Valid() && Enabled(view, Action.ArriveShared(t))
      modifies this
      ensures Valid() && view == Do(old(view), Action.ArriveShared(t)) && passed == SharedMayPass(old(view))
    {
      ArrivedShared(view, t);
      passed := !exclusiveActive && exclusiveWaiters == 0;
      assert passed == SharedMayPass(view);
      if passed {
        activeShared := activeShared + 1;
      }
      Track(Action.ArriveShared(t));
    }

    method RecheckExclusive(t: Task) returns (passed: bool)
      requires Valid() && Enabled(view, Action.Recheck(t)) && t in view.parkedExclusive
      modifies this
      ensures Valid() && view == Do(old(view), Action.Recheck(t)) && passed == ExclusiveMayPass(old(view))
    {
      Track(Action.Recheck(t));
      passed := !exclusiveActive && activeShared == 0;
      if passed {
        exclusiveWaiters := exclusiveWaiters - 1;
        exclusiveActive := true;
      }
    }

    method RecheckShared(t: Task) returns (passed: bool)
      requires Valid() && Enabled(view, Action.Recheck(t)) && t !in view.parkedExclusive
      modifies this
      ensures Valid() && view == Do(old(view), Action.Recheck(t)) && passed == SharedMayPass(old(view))
    {
      passed := !exclusiveActive && exclusiveWaiters == 0;
      assert passed == SharedMayPass(view);
      if passed {
        activeShared := activeShared + 1;
      }
      Track(Action.Recheck(t));
    }

    method CancelExclusiveWait(t: Task)
      requires Valid() && Enabled(view, Action.CancelWait(t)) && t in view.parkedExclusive
      modifies this
      ensures Valid() && view == Do(old(view), Action.CancelWait(t))
    {
      Track(Action.CancelWait(t));
      exclusiveWaiters := exclusiveWaiters - 1;
    }

    method ExitExclusive(t: Task)
      requires Valid() && Enabled(view, Action.Exit(t)) && t in view.exclusiveIn
      modifies this
      ensures Valid() && view == Do(old(view), Action.Exit(t))
    {
      Track(Action.Exit(t));
      exclusiveActive := false;
    }

    method ExitShared(t: Task)
      requires Valid() && Enabled(view, Action.Exit(t)) && t !in view.exclusiveIn
      modifies this
      ensures Valid() && view == Do(old(view), Action.Exit(t))
    {
      Track(Action.Exit(t));
      activeShared := activeShared - 1;
    }
  }
}
