/** One delegated effect: evaluate, prepare, reserve, dispatch, resolve, with a failure or a
    cancellation possible at every await. */
module DelegatedEffect {
  import opened Options

  datatype Disposition = Performed | NotPerformed | InDoubt

  // ----- the protocol, as an automaton over what the world sees -----------------------------

  datatype Event =
    | Prepare | Abort            // a live prepared effect, and its release unused
    | Reserve | Call             // the ledger's reservation, and the inner tool
    | Resolve(d: Disposition)    // the ledger's resolution
    | Recorded | Consume | Settle
    | Deny

  datatype Action = Unreserved | Open | Closed(d: Disposition)

  /** `held`: a prepared effect exists and has neither run nor been aborted. */
  datatype Phase = Phase(held: bool, aborted: bool, called: bool, recorded: bool, consumed: bool, settled: bool, action: Action)

  const Start := Phase(false, false, false, false, false, false, Unreserved)

  predicate Allowed(p: Phase, e: Event) {
    match e
    case Prepare => p.action == Unreserved && !p.held && !p.aborted
    case Abort => p.held && !p.called
    case Reserve => p.action == Unreserved && !p.aborted
    case Call => p.action == Open && !p.called && !p.aborted
    case Resolve(d) => p.action == Open && (!p.called ==> d == NotPerformed)
    case Recorded => p.action.Closed? && !p.recorded
    case Consume => p.recorded && !p.consumed
    case Settle => p.recorded && p.called && !p.settled
    case Deny => p.action == Unreserved
  }

  function After(p: Phase, e: Event): Phase {
    match e
    case Prepare => p.(held := true)
    case Abort => p.(held := false, aborted := true)
    case Reserve => p.(action := Open)
    case Call => p.(called := true, held := false)
    case Resolve(d) => p.(action := Closed(d))
    case Recorded => p.(recorded := true)
    case Consume => p.(consumed := true)
    case Settle => p.(settled := true)
    case Deny => p
  }

  function Reach(trace: seq<Event>): Option<Phase> {
    if trace == [] then Some(Start)
    else
      var before := Reach(trace[..|trace| - 1]);
      var e := trace[|trace| - 1];
      if before.Some? && Allowed(before.value, e) then Some(After(before.value, e)) else None
  }

  lemma {:induction false} ReachPrefix(trace: seq<Event>, n: nat)
    requires n <= |trace| && Reach(trace).Some?
    ensures Reach(trace[..n]).Some?
  {
    if n == |trace| {
      assert trace[..n] == trace;
    } else {
      var shorter := trace[..|trace| - 1];
      assert Reach(shorter).Some?;
      ReachPrefix(shorter, n);
      assert shorter[..n] == trace[..n];
    }
  }

  lemma ReachStep(trace: seq<Event>, k: nat)
    requires k < |trace| && Reach(trace).Some?
    ensures Reach(trace[..k]).Some? && Allowed(Reach(trace[..k]).value, trace[k])
    ensures Reach(trace[..k + 1]) == Some(After(Reach(trace[..k]).value, trace[k]))
  {
    ReachPrefix(trace, k + 1);
    assert trace[..k + 1][..k] == trace[..k] && trace[..k + 1][k] == trace[k];
  }

  /** What has happened never un-happens: later phases remember it. */
  ghost predicate Remembers(p: Phase, q: Phase) {
    && (p.aborted ==> q.aborted) && (p.called ==> q.called) && (p.recorded ==> q.recorded)
    && (p.consumed ==> q.consumed) && (p.settled ==> q.settled)
    && (p.action != Unreserved ==> q.action != Unreserved) && (p.action.Closed? ==> q.action == p.action)
  }

  lemma {:induction false} PhasesRemember(trace: seq<Event>, j: nat, k: nat)
    requires j <= k <= |trace| && Reach(trace).Some?
    ensures Reach(trace[..j]).Some? && Reach(trace[..k]).Some?
    ensures Remembers(Reach(trace[..j]).value, Reach(trace[..k]).value)
  {
    ReachPrefix(trace, j);
    ReachPrefix(trace, k);
    if j < k {
      PhasesRemember(trace, j, k - 1);
      ReachStep(trace, k - 1);
    }
  }

  /** In every run the automaton allows: the tool is called at most once and only after the
      reservation, which happens once; an action is resolved at most once, never before the call; and a
      prepared effect is never both run and aborted. */
  lemma ProtocolIsSafe(trace: seq<Event>, j: nat, k: nat)
    requires Reach(trace).Some? && j < k < |trace|
    ensures !(trace[j] == Call && trace[k] == Call) && !(trace[j] == Reserve && trace[k] == Reserve)
    ensures !(trace[j].Resolve? && trace[k].Resolve?)
    ensures !(trace[j] == Call && trace[k] == Abort) && !(trace[j] == Abort && trace[k] == Call)
    ensures !(trace[j] == Call && trace[k] == Reserve) && !(trace[j].Resolve? && trace[k] == Call)
    ensures !(trace[j] == Recorded && trace[k].Resolve?) && !(trace[j] == Consume && trace[k] == Recorded)
  {
    ReachStep(trace, j);
    PhasesRemember(trace, j + 1, k);
    ReachStep(trace, k);
  }

  lemma {:induction false} CallIsReserved(trace: seq<Event>, n: nat)
    requires Reach(trace).Some? && n <= |trace| && Reach(trace[..n]).Some? && Reach(trace[..n]).value.action != Unreserved
    ensures exists j :: 0 <= j < n && trace[j] == Reserve
  {
    if n > 0 {
      ReachStep(trace, n - 1);
      if trace[n - 1] != Reserve { CallIsReserved(trace, n - 1); }
    }
  }

  /** The wrapper's own `not_performed` says the tool was never called, before or after. */
  lemma OwnNotPerformed(trace: seq<Event>, k: nat)
    requires Reach(trace).Some? && k < |trace| && trace[k] == Call
    ensures exists j :: 0 <= j < k && trace[j] == Reserve
    ensures forall j :: 0 <= j < k ==> !trace[j].Resolve?
  {
    ReachStep(trace, k);
    CallIsReserved(trace, k);
    forall j | 0 <= j < k ensures !trace[j].Resolve? {
      ProtocolIsSafe(trace, j, k);
    }
  }

  // ----- everything that can come back from outside -------------------------------------------

  datatype Check = Clear | Refused | Raises

  /** For a tool without preparation `BadIdentity` and `Unprepared` are the same failed preflight. */
  datatype Preparation = Ready | BadIdentity | Unprepared | Broken

  /** `Vanished`: a second cancellation tore down the join; the ledger may or may not have committed. */
  datatype Reservation = Granted | Denied | Failed | CancelledGranted | CancelledFailed | Vanished(committed: bool)

  datatype Receipt = Receipt(d: Disposition, consumes: bool)

  /** The inner tool throws, or returns; a receipt may then be impossible to evaluate. */
  datatype Dispatch = Threw | Returned(receipt: Option<Receipt>)

  /** The ordered finalization: all of it, all of it with a cancellation joined, or cut before or
      after the ledger has resolved. */
  datatype Finalization = Complete | Joined | ResolveFails | LaterFails

  datatype World = World(
    evaluator: bool, scope: bool, verdict: Check, admission: Check,
    provider: bool, preparation: Preparation, readmission: Check,
    reservation: Reservation, binderFails: bool, binder: bool, aborter: bool, releaseFails: bool,
    dispatch: Dispatch, finalization: Finalization)

  datatype Exit = Refusal | PreflightFailed | Raised | Result(d: Disposition)

  predicate Admitted(w: World) {
    w.evaluator && w.scope && w.verdict == Clear && w.admission == Clear
  }

  predicate AsksLedger(w: World) {
    Admitted(w) && w.preparation == Ready && (w.provider ==> w.readmission == Clear)
  }

  /** The ledger holds an action for this call. */
  predicate HasAction(w: World) {
    AsksLedger(w) && (w.reservation in {Granted, CancelledGranted} || w.reservation == Vanished(true))
  }

  predicate Dispatches(w: World) {
    AsksLedger(w) && w.reservation == Granted && !w.binderFails
  }

  /** The caller gets the tool's result. */
  predicate Answers(w: World) {
    Dispatches(w) && w.dispatch.Returned? && w.dispatch.receipt.Some? && w.finalization == Complete
  }

  /** The caller gets a denial: from the grant, before or after preparation, or from the ledger. */
  predicate Refuses(w: World) {
    || !w.evaluator || !w.scope || w.verdict != Clear || w.admission == Refused
    || (Admitted(w) && w.preparation == Ready && w.provider && w.readmission == Refused && !ReleaseRaises(w))
    || (AsksLedger(w) && w.reservation == Denied && !(w.provider && ReleaseRaises(w)))
  }

  /** A tool that can release a prepared effect is asked to, and raises. */
  predicate ReleaseRaises(w: World) {
    w.aborter && w.releaseFails
  }

  /** The action is left open. */
  predicate LeftOpen(w: World) {
    HasAction(w) && (w.reservation.Vanished? || (Dispatches(w) && w.dispatch == Returned(None)) || w.finalization == ResolveFails)
  }

  /** A live prepared effect is left neither run nor aborted: its identity did not validate, the
      finalization before the abort did not return normally, or the tool cannot abort, or fails to. */
  predicate Stranded(w: World) {
    && Admitted(w) && w.provider && w.preparation in {Ready, BadIdentity} && !Dispatches(w)
    && (!w.aborter || w.releaseFails || w.preparation == BadIdentity
        || (AsksLedger(w) && w.finalization != Complete && w.reservation in {CancelledGranted, Granted}))
  }

  // ----- the call -------------------------------------------------------------------------------

  class DelegatedCall {
    const world: World
    var phase: Phase
    var trace: seq<Event>

    ghost predicate Valid()
      reads this
    {
      Reach(trace) == Some(phase)
    }

    constructor (world: World)
      ensures Valid() && phase == Start && trace == [] && this.world == world
    {
      this.world := world;
      phase, trace := Start, [];
    }

    method Emit(e: Event)
      requires Valid() && Allowed(phase, e)
      modifies this
      ensures Valid() && phase == After(old(phase), e) && trace == old(trace) + [e]
    {
      trace := trace + [e];
      assert trace[..|trace| - 1] == old(trace);
      phase := After(phase, e);
    }

    /** Released if there is anything to release; a tool that cannot abort is not asked, and one that
        raises has not released it. */
    method AbortPrepared() returns (raised: bool)
      requires Valid() && !phase.called
      modifies this
      ensures Valid() && raised == (old(phase).held && ReleaseRaises(world))
      ensures phase == if old(phase).held && world.aborter && !world.releaseFails then After(old(phase), Abort) else old(phase)
    {
      if !phase.held || !world.aborter { return false; }
      if world.releaseFails { return true; }
      Emit(Abort);
      return false;
    }

    /** The strongest evidence goes first; anything that fails later leaves it standing. */
    method Finalize(d: Disposition, consume: bool, settle: bool) returns (raised: bool)
      requires Valid() && phase.action == Open && !phase.recorded && !phase.consumed && !phase.settled
      requires (!phase.called ==> d == NotPerformed) && (settle ==> phase.called)
      modifies this
      ensures Valid() && phase.called == old(phase).called && phase.held == old(phase).held && phase.aborted == old(phase).aborted
      ensures phase.action == if world.finalization == ResolveFails then Open else Closed(d)
      ensures raised <==> world.finalization != Complete
      ensures world.finalization in {Complete, Joined} ==> phase.recorded && phase.consumed == consume && phase.settled == (settle && world.binder)
      ensures phase.consumed ==> consume
    {
      if world.finalization == ResolveFails { return true; }
      Emit(Resolve(d));
      var recorded: bool := *;
      if world.finalization == LaterFails && !recorded { return true; }
      Emit(Recorded);
      var consumed: bool := *;
      if world.finalization == LaterFails && !consumed { return true; }
      if consume { Emit(Consume); }
      if world.finalization == LaterFails { return true; }
      if settle && world.binder { Emit(Settle); }
      return world.finalization == Joined;
    }

    /** A reserved action whose effect will not be attempted. */
    method GiveUp()
      requires Valid() && phase.action == Open && !phase.called && !phase.recorded && !phase.consumed && !phase.settled && !phase.aborted
      modifies this
      ensures Valid() && !phase.called
      ensures phase.action == if world.finalization == ResolveFails then Open else Closed(NotPerformed)
      ensures phase.held == (old(phase).held && (world.finalization != Complete || !world.aborter || world.releaseFails))
      ensures !phase.consumed
    {
      var raised := Finalize(NotPerformed, false, false);
      if !raised { raised := AbortPrepared(); }
    }

    /** Whatever comes back from outside: the run obeys the protocol; the tool runs exactly when the
        reservation was granted and its evidence bound; the action ends resolved unless the world
        withheld the resolution; and the disposition on the ledger is the strongest that is known. */
    method Run() returns (exit: Exit)
      requires Valid() && phase == Start
      modifies this
      ensures Valid()
      ensures phase.called <==> Dispatches(world)
      ensures phase.action != Unreserved <==> HasAction(world)
      ensures phase.action == Open <==> LeftOpen(world)
      ensures phase.action.Closed? ==>
                phase.action.d == if !phase.called then NotPerformed
                                  else if world.dispatch == Threw then InDoubt
                                  else world.dispatch.receipt.value.d
      ensures phase.held <==> Stranded(world)
      ensures exit.Result? ==> phase.called && phase.action == Closed(exit.d) && phase.recorded
                               && world.dispatch == Returned(Some(Receipt(exit.d, phase.consumed)))
      ensures exit.Result? <==> Answers(world)
      ensures exit.Refusal? <==> Refuses(world)
      ensures exit.PreflightFailed? <==> Admitted(world) && world.preparation in {BadIdentity, Unprepared}
      ensures phase.called && world.dispatch == Threw && world.finalization in {Complete, Joined} ==> phase.consumed
    {
      if !world.evaluator || !world.scope || world.verdict != Clear {
        Emit(Deny);
        return Refusal;
      }
      if world.admission == Raises { return Raised; }
      if world.admission == Refused { Emit(Deny); return Refusal; }
      if world.preparation == Broken { return Raised; }
      if world.provider && world.preparation != Unprepared { Emit(Prepare); }
      if world.preparation != Ready { return PreflightFailed; }
      if world.provider && world.readmission != Clear {
        var raised := AbortPrepared();
        if raised || world.readmission == Raises { return Raised; }
        Emit(Deny);
        return Refusal;
      }
      exit := Reserved();
    }

    method Reserved() returns (exit: Exit)
      requires Valid() && AsksLedger(world)
      requires phase == Start.(held := world.provider)
      modifies this
      ensures Valid()
      ensures phase.called <==> Dispatches(world)
      ensures phase.action != Unreserved <==> HasAction(world)
      ensures phase.action == Open <==> LeftOpen(world)
      ensures phase.action.Closed? ==>
                phase.action.d == if !phase.called then NotPerformed
                                  else if world.dispatch == Threw then InDoubt
                                  else world.dispatch.receipt.value.d
      ensures phase.held <==> Stranded(world)
      ensures exit.Result? ==> phase.called && phase.action == Closed(exit.d) && phase.recorded
                               && world.dispatch == Returned(Some(Receipt(exit.d, phase.consumed)))
      ensures exit.Result? <==> Answers(world)
      ensures exit.Refusal? <==> world.reservation == Denied && !(world.provider && ReleaseRaises(world))
      ensures !exit.PreflightFailed?
      ensures phase.called && world.dispatch == Threw && world.finalization in {Complete, Joined} ==> phase.consumed
    {
      match world.reservation {
        case Denied =>
          var raised := AbortPrepared();
          if raised { return Raised; }
          Emit(Deny);
          return Refusal;
        case Failed | CancelledFailed =>
          var raised := AbortPrepared();
          return Raised;
        case Vanished(committed) =>
          if committed { Emit(Reserve); }
          var raised := AbortPrepared();
          return Raised;
        case CancelledGranted =>
          Emit(Reserve);
          GiveUp();
          return Raised;
        case Granted =>
          Emit(Reserve);
      }
      if world.binderFails {
        GiveUp();
        return Raised;
      }
      exit := DispatchTool();
    }

    method DispatchTool() returns (exit: Exit)
      requires Valid() && Dispatches(world) && phase == Start.(held := world.provider, action := Open)
      modifies this
      ensures Valid() && phase.called && !phase.held
      ensures phase.action == if world.finalization == ResolveFails || world.dispatch == Returned(None) then Open
                              else Closed(if world.dispatch == Threw then InDoubt else world.dispatch.receipt.value.d)
      ensures exit == if world.dispatch == Threw || world.dispatch == Returned(None) || world.finalization != Complete then Raised
                      else Result(world.dispatch.receipt.value.d)
      ensures exit.Result? ==> phase.recorded && world.dispatch == Returned(Some(Receipt(exit.d, phase.consumed)))
      ensures world.dispatch == Threw && world.finalization in {Complete, Joined} ==> phase.consumed
    {
      Emit(Call);
      if world.dispatch == Threw {
        var raised := Finalize(InDoubt, true, true);
        return Raised;
      }
      if world.dispatch.receipt.None? { return Raised; }
      var receipt := world.dispatch.receipt.value;
      var raised := Finalize(receipt.d, receipt.consumes, true);
      return if raised then Raised else Result(receipt.d);
    }
  }
}
