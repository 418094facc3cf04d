/** The effect journal of a workflow run: what memory, the durable checkpoint and an
    unfinished checkpoint write may say about each execution address, over every run with
    crashes, cancellations, failed checkpoint writes, in-run retries, resumes and user
    reconciliations. An action is one section of code between two awaits. */
module EffectJournal {
  import opened Options
  import S = Scheduler

  type Address = nat

  datatype EffectStatus = Prepared | Dispatched | Succeeded | NotDone | Unclear | WouldDispatch | Reconciled

  /** One tool call with its resolved arguments, as the journal identifies it. */
  datatype Call = Call(tool: nat, args: nat, key: Option<nat>)

  datatype Entry = Entry(address: Address, call: Call, safeReplay: bool, status: EffectStatus)

  datatype Snapshot = Snapshot(records: map<Address, S.Status>, journal: seq<Entry>)

  // ----- journal search --------------------------------------------------------------

  /** Index of the newest entry at an address, or -1. */
  function Find(journal: seq<Entry>, a: Address): (k: int)
    ensures -1 <= k < |journal|
    ensures k >= 0 ==> journal[k].address == a
    ensures forall j :: k < j < |journal| ==> journal[j].address != a
  {
    if journal == [] then -1
    else if journal[|journal| - 1].address == a then |journal| - 1
    else Find(journal[..|journal| - 1], a)
  }

  function EntryAt(snap: Snapshot, a: Address): Option<Entry> {
    var k := Find(snap.journal, a);
    if k < 0 then None else Some(snap.journal[k])
  }

  function SetStatus(snap: Snapshot, a: Address, status: EffectStatus): Snapshot {
    var k := Find(snap.journal, a);
    if k < 0 then snap else snap.(journal := snap.journal[k := snap.journal[k].(status := status)])
  }

  function SetRecord(snap: Snapshot, a: Address, status: S.Status): Snapshot {
    snap.(records := snap.records[a := status])
  }

  ghost predicate OnePerAddress(journal: seq<Entry>) {
    forall i, j :: 0 <= i < j < |journal| ==> journal[i].address != journal[j].address
  }

  lemma EntryAfterSet(snap: Snapshot, a: Address, status: EffectStatus, b: Address)
    requires OnePerAddress(snap.journal) && EntryAt(snap, a).Some?
    ensures OnePerAddress(SetStatus(snap, a, status).journal)
    ensures EntryAt(SetStatus(snap, a, status), b) ==
            if b == a then Some(EntryAt(snap, a).value.(status := status)) else EntryAt(snap, b)
  {
    var k := Find(snap.journal, a);
    var after := SetStatus(snap, a, status).journal;
    assert forall i :: 0 <= i < |after| ==> after[i].address == snap.journal[i].address;
    if b == a { assert after[k].address == a; }
    var m, n := Find(snap.journal, b), Find(after, b);
    if m != n { assert false; }
  }

  lemma EntryAfterAppend(snap: Snapshot, e: Entry, b: Address)
    requires OnePerAddress(snap.journal) && EntryAt(snap, e.address).None?
    ensures OnePerAddress(snap.journal + [e])
    ensures EntryAt(snap.(journal := snap.journal + [e]), b) == if b == e.address then Some(e) else EntryAt(snap, b)
  {
    var after := snap.journal + [e];
    assert after[..|after| - 1] == snap.journal;
  }

  // ----- what the outside world saw -----------------------------------------------------

  /** The order of real dispatches, of their conclusive results, and of a user's statement
      that an in-doubt effect did not happen. */
  datatype Event = Sent(a: Address, safeReplay: bool) | Closed(a: Address, status: EffectStatus) | Denied(a: Address)

  datatype Knowledge = Untouched | Unresolved | KnownDone | KnownNotDone | UserDenied

  function Known(trace: seq<Event>, a: Address): Knowledge {
    if trace == [] then Untouched
    else
      var e := trace[|trace| - 1];
      if e.a != a then Known(trace[..|trace| - 1], a)
      else match e
        case Sent(_, _) => Unresolved
        case Closed(_, status) =>
          if status == Succeeded then KnownDone else if status == NotDone then KnownNotDone else Unresolved
        case Denied(_) => UserDenied
  }

  predicate MayDispatch(k: Knowledge, safeReplay: bool) {
    k == Untouched || k == UserDenied || (k == KnownNotDone && safeReplay)
  }

  /** Each real dispatch was justified by what was then known about its address, and each
      result answers an unresolved dispatch. */
  ghost predicate Justified(trace: seq<Event>) {
    forall i :: 0 <= i < |trace| ==> JustifiedAt(trace, i)
  }

  ghost predicate JustifiedAt(trace: seq<Event>, i: nat)
    requires i < |trace|
  {
    && (trace[i].Sent? ==> MayDispatch(Known(trace[..i], trace[i].a), trace[i].safeReplay))
    && (trace[i].Closed? ==> Known(trace[..i], trace[i].a) == Unresolved)
  }

  function Count(trace: seq<Event>, a: Address): nat {
    if trace == [] then 0
    else Count(trace[..|trace| - 1], a) + (if trace[|trace| - 1].Sent? && trace[|trace| - 1].a == a then 1 else 0)
  }

  function Denials(trace: seq<Event>, a: Address): nat {
    if trace == [] then 0
    else Denials(trace[..|trace| - 1], a) + (if trace[|trace| - 1].Denied? && trace[|trace| - 1].a == a then 1 else 0)
  }

  lemma {:induction false} UnsafeCount(trace: seq<Event>, a: Address)
    requires Justified(trace)
    requires forall i :: 0 <= i < |trace| && trace[i].Sent? && trace[i].a == a ==> !trace[i].safeReplay
    ensures Count(trace, a) <= Denials(trace, a) + (if Known(trace, a) in {Untouched, UserDenied} then 0 else 1)
  {
    if trace != [] {
      var shorter := trace[..|trace| - 1];
      forall i | 0 <= i < |shorter| ensures JustifiedAt(shorter, i) {
        assert JustifiedAt(trace, i) && shorter[..i] == trace[..i];
      }
      assert JustifiedAt(trace, |trace| - 1);
      UnsafeCount(shorter, a);
      assert trace[|trace| - 1].Sent? && trace[|trace| - 1].a == a ==> MayDispatch(Known(shorter, a), false);
    }
  }

  // ----- the running system ---------------------------------------------------------------

  /** Where one tool step is, at an await. */
  datatype Point =
    | Looking     // before the journal is consulted: permission, opening checkpoint, retry
    | Preparing   // a new entry is awaiting its checkpoint
    | Marking     // that checkpoint is durable
    | Announcing  // marked dispatched, awaiting the checkpoint
    | Armed       // that checkpoint is durable
    | InFlight    // the tool has been called
    | Closing     // the result is in the entry, awaiting the checkpoint
    | Settled     // that checkpoint is durable

  predicate AwaitsSave(p: Point) {
    p in {Preparing, Announcing, Closing}
  }

  function AfterSave(p: Point): Point {
    match p
    case Preparing => Marking
    case Announcing => Armed
    case Closing => Settled
    case _ => p
  }

  /** A checkpoint write in progress: the store copied the run when it took the lock. */
  datatype Save = Save(owner: Option<Address>, copy: Snapshot)

  datatype System = System(
    live: Option<Snapshot>,      // memory of the running process, if any
    durable: Snapshot,
    saving: Option<Save>,
    tasks: map<Address, Point>,
    accepting: bool,             // false once `run` has found an in-doubt record
    dryRun: bool,
    trace: seq<Event>)

  datatype Action =
    | Start(a: Address)
    | Decide(a: Address, record: S.Status)
    | LookUp(a: Address, call: Call, safeReplay: bool)
    | Mark(a: Address)
    | TakeCopy(owner: Option<Address>)
    | Commit
    | FailSave(retry: bool)
    | Send(a: Address)
    | Return(a: Address, status: EffectStatus)
    | Fault(a: Address, retry: bool)
    | Conclude(a: Address, record: S.Status)
    | Cancel(a: Address, opening: bool)
    | Crash(committed: bool)
    | Resume(dryRun: bool)
    | Reconcile(a: Address, completed: bool)

  /** What consulting the journal tells the step to do. */
  datatype Consulted =
    | Refuse                       // the step fails and is not retried
    | Doubt                        // the step becomes in doubt
    | Mismatch                     // an ordinary error, which a declared retry may repeat
    | Append(e: Entry)
    | Reuse                        // mark the existing entry dispatched

  function Consult(snap: Snapshot, a: Address, call: Call, safeReplay: bool, dryRun: bool): Consulted {
    match EntryAt(snap, a)
    case None => Append(Entry(a, call, safeReplay, if dryRun then WouldDispatch else Prepared))
    case Some(e) =>
      if e.call.tool != call.tool || e.call.args != call.args then Mismatch
      else match e.status
        case Succeeded => Refuse
        case Dispatched => Doubt
        case Unclear => Doubt
        case NotDone => if !e.safeReplay || e.call.key != call.key then Refuse else Reuse
        case WouldDispatch => if dryRun then Reuse else Refuse
        case Prepared => Reuse
        case Reconciled => Reuse
  }

  function ResumedJournal(journal: seq<Entry>): (r: seq<Entry>)
    ensures |r| == |journal|
    ensures forall i :: 0 <= i < |r| ==>
              r[i] == if journal[i].status == Dispatched then journal[i].(status := Unclear) else journal[i]
  {
    seq(|journal|, i requires 0 <= i < |journal| =>
          if journal[i].status == Dispatched then journal[i].(status := Unclear) else journal[i])
  }

  predicate SentEntry(journal: seq<Entry>, a: Address) {
    exists e :: e in journal && e.address == a && e.status == Dispatched
  }

  predicate ClosesRecord(journal: seq<Entry>, a: Address) {
    exists e :: e in journal && e.address == a && e.status in {Dispatched, Unclear, Succeeded, NotDone}
  }

  /** Memory after `resume` has classified what a previous process left behind. */
  function Resumed(snap: Snapshot): Snapshot {
    var journal := ResumedJournal(snap.journal);
    Snapshot(
      map a | a in snap.records ::
        if SentEntry(snap.journal, a) then S.InDoubt
        else if snap.records[a] in {S.Ready, S.Running, S.Interrupted} && !ClosesRecord(journal, a) then S.Pending
        else snap.records[a],
      journal)
  }

  predicate AnyInDoubt(snap: Snapshot) {
    exists a :: a in snap.records && snap.records[a] == S.InDoubt
  }

  predicate Working(s: System, a: Address, p: Point) {
    s.live.Some? && a in s.tasks && s.tasks[a] == p
  }

  predicate Owns(s: System, a: Address) {
    s.saving.Some? && s.saving.value.owner == Some(a)
  }

  function Consultation(s: System, a: Address, call: Call, safeReplay: bool): Consulted
    requires s.live.Some?
  {
    Consult(s.live.value, a, call, safeReplay, s.dryRun)
  }

  predicate Enabled(s: System, act: Action) {
    match act
    case Start(a) =>
      s.live.Some? && s.accepting && a in s.live.value.records && s.live.value.records[a] == S.Pending && a !in s.tasks
    case Decide(a, record) =>
      s.live.Some? && s.accepting && a in s.live.value.records && s.live.value.records[a] == S.Pending
      && a !in s.tasks && record in {S.Skipped, S.Blocked, S.Failed}
    case LookUp(a, _, _) => Working(s, a, Looking)
    case Mark(a) => Working(s, a, Marking) && EntryAt(s.live.value, a).Some? && !s.dryRun
    case TakeCopy(owner) =>
      s.live.Some? && s.saving.None? && (owner.Some? ==> owner.value in s.tasks && AwaitsSave(s.tasks[owner.value]))
    case Commit => s.live.Some? && s.saving.Some?
    case FailSave(_) => s.live.Some? && s.saving.Some?
    case Send(a) => Working(s, a, Armed) && EntryAt(s.live.value, a).Some?
    case Return(a, status) =>
      Working(s, a, InFlight) && EntryAt(s.live.value, a).Some? && status in {Succeeded, NotDone, Unclear}
    case Fault(a, _) => s.live.Some? && a in s.tasks && !Owns(s, a)
    case Conclude(a, record) =>
      s.live.Some? && a in s.tasks && !Owns(s, a) && s.tasks[a] in {Looking, Marking, Settled}
      && record in {S.Completed, S.Failed, S.InDoubt}
    case Cancel(a, opening) => s.live.Some? && a in s.tasks && !Owns(s, a) && (opening ==> s.tasks[a] == Looking)
    case Crash(committed) => s.live.Some? && (committed ==> s.saving.Some?)
    case Resume(_) => s.live.None?
    case Reconcile(a, _) =>
      s.live.None? && EntryAt(s.durable, a).Some? && EntryAt(s.durable, a).value.status == Unclear
      && a in s.durable.records
  }

  function LeaveTask(s: System, a: Address, record: S.Status): System
    requires s.live.Some?
  {
    s.(live := Some(SetRecord(s.live.value, a, record)), tasks := s.tasks - {a})
  }

  function LookedUp(s: System, a: Address, call: Call, safeReplay: bool): System
    requires s.live.Some?
  {
    var live := s.live.value;
    match Consultation(s, a, call, safeReplay)
    case Refuse => LeaveTask(s, a, S.Failed)
    case Mismatch => LeaveTask(s, a, S.Failed)
    case Doubt => LeaveTask(s, a, S.InDoubt)
    case Append(e) =>
      s.(live := Some(live.(journal := live.journal + [e])), tasks := s.tasks[a := Preparing])
    case Reuse =>
      if s.dryRun then
        var e := EntryAt(live, a).value;
        var kept := if e.status == NotDone then SetStatus(live, a, Prepared) else live;
        s.(live := Some(SetRecord(kept, a, S.Completed)), tasks := s.tasks - {a})
      else
        s.(live := Some(SetStatus(live, a, Dispatched)), tasks := s.tasks[a := Announcing])
  }

  function Do(s: System, act: Action): System
    requires Enabled(s, act)
  {
    match act
    case Start(a) => s.(live := Some(SetRecord(s.live.value, a, S.Running)), tasks := s.tasks[a := Looking])
    case Decide(a, record) => s.(live := Some(SetRecord(s.live.value, a, record)))
    case LookUp(a, call, safeReplay) => LookedUp(s, a, call, safeReplay)
    case Mark(a) =>
      s.(live := Some(SetStatus(s.live.value, a, Dispatched)), tasks := s.tasks[a := Announcing])
    case TakeCopy(owner) => s.(saving := Some(Save(owner, s.live.value)))
    case Commit =>
      var owner := s.saving.value.owner;
      s.(durable := s.saving.value.copy, saving := None,
         tasks := if owner.Some? && owner.value in s.tasks
                  then s.tasks[owner.value := AfterSave(s.tasks[owner.value])] else s.tasks)
    case FailSave(retry) =>
      // The exception surfaces in the task that asked for the checkpoint.
      var owner := s.saving.value.owner;
      var released := s.(saving := None);
      if owner.Some? && owner.value in s.tasks then
        if retry then released.(tasks := s.tasks[owner.value := Looking])
        else LeaveTask(released, owner.value, S.Failed)
      else released
    case Send(a) =>
      s.(tasks := s.tasks[a := InFlight],
         trace := s.trace + [Sent(a, EntryAt(s.live.value, a).value.safeReplay)])
    case Return(a, status) =>
      s.(live := Some(SetStatus(s.live.value, a, status)), tasks := s.tasks[a := Closing],
         trace := s.trace + [Closed(a, status)])
    case Fault(a, retry) => if retry then s.(tasks := s.tasks[a := Looking]) else LeaveTask(s, a, S.Failed)
    case Conclude(a, record) => LeaveTask(s, a, record)
    case Cancel(a, opening) => if opening then s.(tasks := s.tasks - {a}) else LeaveTask(s, a, S.Interrupted)
    case Crash(committed) =>
      s.(live := None, saving := None, tasks := map[],
         durable := if committed then s.saving.value.copy else s.durable)
    case Resume(dryRun) =>
      var live := Resumed(s.durable);
      s.(live := Some(live), saving := None, tasks := map[], dryRun := dryRun, accepting := !AnyInDoubt(live))
    case Reconcile(a, completed) =>
      s.(durable := SetRecord(SetStatus(s.durable, a, if completed then Reconciled else Prepared),
                              a, if completed then S.Completed else S.Pending),
         trace := if completed then s.trace else s.trace + [Denied(a)])
  }

  function Perform(s: System, act: Action): System {
    if Enabled(s, act) then Do(s, act) else s
  }

  function RunOf(s: System, acts: seq<Action>): System {
    if acts == [] then s else Perform(RunOf(s, acts[..|acts| - 1]), acts[|acts| - 1])
  }

  /** A freshly created run, saved once with an empty journal. */
  function Initial(addresses: set<Address>, dryRun: bool): System {
    var snap := Snapshot(map a | a in addresses :: S.Pending, []);
    System(Some(snap), snap, None, map[], true, dryRun, [])
  }

  // ----- the invariant -----------------------------------------------------------------------

  /** What a snapshot may say about an address, given what is known of its dispatches. */
  ghost predicate Fits(snap: Snapshot, a: Address, k: Knowledge) {
    match EntryAt(snap, a)
    case None => k == Untouched
    case Some(e) =>
      match e.status
      case Prepared => MayDispatch(k, e.safeReplay)
      case WouldDispatch => MayDispatch(k, e.safeReplay)
      case NotDone => k == KnownNotDone
      case Succeeded => k == KnownDone
      case _ => true
  }

  ghost predicate SnapOk(snap: Snapshot, trace: seq<Event>) {
    && OnePerAddress(snap.journal)
    && (forall a :: Fits(snap, a, Known(trace, a)))
    && (forall a :: EntryAt(snap, a).Some? ==> a in snap.records)
    && (forall a :: EntryAt(snap, a).Some? && EntryAt(snap, a).value.status == Reconciled ==>
          a in snap.records && snap.records[a] == S.Completed)
  }

  ghost predicate SaysDispatched(snap: Snapshot, a: Address) {
    EntryAt(snap, a).Some? && EntryAt(snap, a).value.status == Dispatched
  }

  /** What each point of a task guarantees about its journal entry. */
  ghost predicate PointOk(s: System, a: Address, p: Point)
    requires s.live.Some?
  {
    var e := EntryAt(s.live.value, a);
    && a in s.live.value.records && s.live.value.records[a] == S.Running
    && (p in {Preparing, Marking} ==> e.Some? && e.value.status in {Prepared, WouldDispatch})
    && (p in {Announcing, Armed} ==>
          SaysDispatched(s.live.value, a) && MayDispatch(Known(s.trace, a), e.value.safeReplay))
    && (p == Announcing && Owns(s, a) ==> SaysDispatched(s.saving.value.copy, a))
    && (p == Armed ==> SaysDispatched(s.durable, a) && (s.saving.Some? ==> SaysDispatched(s.saving.value.copy, a)))
    && (p == InFlight ==> SaysDispatched(s.live.value, a) && Known(s.trace, a) == Unresolved)
    && (Owns(s, a) ==> AwaitsSave(p))
  }

  ghost predicate Inv(s: System) {
    && Justified(s.trace)
    && SnapOk(s.durable, s.trace)
    && (s.live.Some? ==> SnapOk(s.live.value, s.trace))
    && (s.saving.Some? ==> s.live.Some? && SnapOk(s.saving.value.copy, s.trace))
    && (s.live.None? ==> s.tasks == map[])
    && (s.live.Some? ==> forall a :: a in s.tasks ==> PointOk(s, a, s.tasks[a]))
    && (s.saving.Some? && s.saving.value.owner.Some? ==> s.saving.value.owner.value in s.tasks)
  }
}
