/** Every action keeps the journal invariant, so no run dispatches an effect it may not repeat. */
module EffectSafety {
  import opened Options
  import opened EffectJournal
  import S = Scheduler

  lemma KnownExtend(trace: seq<Event>, e: Event, b: Address)
    ensures Known(trace + [e], b) ==
            if e.a != b then Known(trace, b)
            else match e
              case Sent(_, _) => Unresolved
              case Closed(_, status) =>
                if status == Succeeded then KnownDone else if status == NotDone then KnownNotDone else Unresolved
              case Denied(_) => UserDenied
  {
    assert (trace + [e])[..|trace|] == trace;
  }

  lemma JustifiedExtend(trace: seq<Event>, e: Event)
    requires Justified(trace)
    requires e.Sent? ==> MayDispatch(Known(trace, e.a), e.safeReplay)
    requires e.Closed? ==> Known(trace, e.a) == Unresolved
    ensures Justified(trace + [e])
  {
    var longer := trace + [e];
    forall i | 0 <= i < |longer| ensures JustifiedAt(longer, i) {
      assert i < |trace| ==> JustifiedAt(trace, i);
      assert longer[..i] == trace[..i];
    }
  }

  lemma RecordKeepsSnap(snap: Snapshot, trace: seq<Event>, a: Address, record: S.Status)
    requires SnapOk(snap, trace)
    requires a in snap.records && snap.records[a] != S.Completed
    ensures SnapOk(SetRecord(snap, a, record), trace)
    ensures forall b :: EntryAt(SetRecord(snap, a, record), b) == EntryAt(snap, b)
  {
    var after := SetRecord(snap, a, record);
    assert forall b :: EntryAt(after, b) == EntryAt(snap, b);
    assert forall b :: Fits(snap, b, Known(trace, b)) ==> Fits(after, b, Known(trace, b));
  }

  lemma StatusKeepsSnap(snap: Snapshot, trace: seq<Event>, a: Address, status: EffectStatus)
    requires SnapOk(snap, trace) && EntryAt(snap, a).Some? && status != Reconciled
    requires Fits(SetStatus(snap, a, status), a, Known(trace, a))
    ensures SnapOk(SetStatus(snap, a, status), trace)
    ensures forall b :: b != a ==> EntryAt(SetStatus(snap, a, status), b) == EntryAt(snap, b)
    ensures EntryAt(SetStatus(snap, a, status), a) == Some(EntryAt(snap, a).value.(status := status))
  {
    var after := SetStatus(snap, a, status);
    forall b ensures EntryAt(after, b) == if b == a then Some(EntryAt(snap, a).value.(status := status)) else EntryAt(snap, b) {
      EntryAfterSet(snap, a, status, b);
    }
    EntryAfterSet(snap, a, status, a);
    forall b ensures Fits(after, b, Known(trace, b)) {
      if b != a { assert Fits(snap, b, Known(trace, b)); }
    }
  }

  lemma AppendKeepsSnap(snap: Snapshot, trace: seq<Event>, e: Entry)
    requires SnapOk(snap, trace) && EntryAt(snap, e.address).None? && e.status in {Prepared, WouldDispatch}
    requires e.address in snap.records
    ensures SnapOk(snap.(journal := snap.journal + [e]), trace)
    ensures forall b :: EntryAt(snap.(journal := snap.journal + [e]), b) == if b == e.address then Some(e) else EntryAt(snap, b)
  {
    var after := snap.(journal := snap.journal + [e]);
    forall b ensures EntryAt(after, b) == if b == e.address then Some(e) else EntryAt(snap, b) {
      EntryAfterAppend(snap, e, b);
    }
    EntryAfterAppend(snap, e, e.address);
    forall b ensures Fits(after, b, Known(trace, b)) {
      assert Fits(snap, b, Known(trace, b));
    }
  }

  /** A task leaving the table takes nothing the others rely on with it. */
  lemma LeavingKeepsInv(s: System, a: Address, record: S.Status)
    requires Inv(s) && s.live.Some? && a in s.tasks && !Owns(s, a)
    ensures Inv(LeaveTask(s, a, record))
  {
    var after := LeaveTask(s, a, record);
    RecordKeepsSnap(s.live.value, s.trace, a, record);
    forall b | b in after.tasks ensures PointOk(after, b, after.tasks[b]) {
      assert PointOk(s, b, s.tasks[b]);
    }
  }

  lemma MarkingKeepsInv(s: System, a: Address)
    requires Inv(s) && s.live.Some? && a in s.tasks && !Owns(s, a) && EntryAt(s.live.value, a).Some?
    requires MayDispatch(Known(s.trace, a), EntryAt(s.live.value, a).value.safeReplay)
    ensures Inv(s.(live := Some(SetStatus(s.live.value, a, Dispatched)), tasks := s.tasks[a := Announcing]))
  {
    var after := s.(live := Some(SetStatus(s.live.value, a, Dispatched)), tasks := s.tasks[a := Announcing]);
    EntryAfterSet(s.live.value, a, Dispatched, a);
    StatusKeepsSnap(s.live.value, s.trace, a, Dispatched);
    forall b | b in after.tasks ensures PointOk(after, b, after.tasks[b]) {
      assert PointOk(s, b, s.tasks[b]);
    }
  }

  /** A task's point holds as long as nothing it speaks of changes. */
  lemma PointCarries(s: System, after: System, b: Address, p: Point)
    requires s.live.Some? && after.live.Some? && PointOk(s, b, p)
    requires EntryAt(after.live.value, b) == EntryAt(s.live.value, b) && after.live.value.records == s.live.value.records
    requires after.durable == s.durable && after.saving == s.saving && Known(after.trace, b) == Known(s.trace, b)
    ensures PointOk(after, b, p)
  {
  }

  function Appended(s: System, a: Address, e: Entry): System
    requires s.live.Some?
  {
    s.(live := Some(s.live.value.(journal := s.live.value.journal + [e])), tasks := s.tasks[a := Preparing])
  }

  lemma AppendingKeepsPoint(s: System, a: Address, e: Entry, b: Address)
    requires Inv(s) && Working(s, a, Looking) && e.address == a && EntryAt(s.live.value, a).None?
    requires e.status in {Prepared, WouldDispatch} && b in Appended(s, a, e).tasks
    ensures PointOk(Appended(s, a, e), b, Appended(s, a, e).tasks[b])
  {
    EntryAfterAppend(s.live.value, e, b);
    assert PointOk(s, b, s.tasks[b]);
    if b != a { PointCarries(s, Appended(s, a, e), b, s.tasks[b]); }
  }

  lemma AppendingKeepsInv(s: System, a: Address, e: Entry)
    requires Inv(s) && Working(s, a, Looking) && e.address == a && EntryAt(s.live.value, a).None?
    requires e.status in {Prepared, WouldDispatch}
    ensures Inv(Appended(s, a, e))
  {
    assert PointOk(s, a, Looking);
    AppendKeepsSnap(s.live.value, s.trace, e);
    forall b | b in Appended(s, a, e).tasks ensures PointOk(Appended(s, a, e), b, Appended(s, a, e).tasks[b]) {
      AppendingKeepsPoint(s, a, e, b);
    }
  }

  /** A dry run rewinds a closed entry it may replay, and dispatches nothing. */
  lemma RewindKeepsInv(s: System, a: Address)
    requires Inv(s) && Working(s, a, Looking) && EntryAt(s.live.value, a).Some?
    requires MayDispatch(Known(s.trace, a), EntryAt(s.live.value, a).value.safeReplay)
    ensures Inv(s.(live := Some(SetStatus(s.live.value, a, Prepared))))
  {
    var after := s.(live := Some(SetStatus(s.live.value, a, Prepared)));
    EntryAfterSet(s.live.value, a, Prepared, a);
    StatusKeepsSnap(s.live.value, s.trace, a, Prepared);
    forall b | b in after.tasks ensures PointOk(after, b, after.tasks[b]) {
      assert PointOk(s, b, s.tasks[b]);
    }
  }

  lemma LookUpKeepsInv(s: System, a: Address, call: Call, safeReplay: bool)
    requires Inv(s) && Working(s, a, Looking)
    ensures Inv(LookedUp(s, a, call, safeReplay))
  {
    var live := s.live.value;
    assert PointOk(s, a, Looking);
    assert Fits(live, a, Known(s.trace, a));
    match Consultation(s, a, call, safeReplay)
    case Refuse => LeavingKeepsInv(s, a, S.Failed);
    case Mismatch => LeavingKeepsInv(s, a, S.Failed);
    case Doubt => LeavingKeepsInv(s, a, S.InDoubt);
    case Append(e) => AppendingKeepsInv(s, a, e);
    case Reuse =>
      var e := EntryAt(live, a).value;
      if !s.dryRun {
        MarkingKeepsInv(s, a);
      } else if e.status == NotDone {
        RewindKeepsInv(s, a);
        LeavingKeepsInv(s.(live := Some(SetStatus(live, a, Prepared))), a, S.Completed);
      } else {
        LeavingKeepsInv(s, a, S.Completed);
      }
  }

  lemma SendKeepsInv(s: System, a: Address)
    requires Inv(s) && Enabled(s, Send(a))
    ensures Inv(Do(s, Send(a)))
  {
    var after := Do(s, Send(a));
    var e := Sent(a, EntryAt(s.live.value, a).value.safeReplay);
    assert PointOk(s, a, Armed);
    JustifiedExtend(s.trace, e);
    forall b ensures Known(after.trace, b) == if b == a then Unresolved else Known(s.trace, b) {
      KnownExtend(s.trace, e, b);
    }
    forall b | b in after.tasks ensures PointOk(after, b, after.tasks[b]) {
      assert PointOk(s, b, s.tasks[b]);
    }
    TraceKeepsSnap(s.durable, s.trace, after.trace, a);
    TraceKeepsSnap(s.live.value, s.trace, after.trace, a);
    if s.saving.Some? { TraceKeepsSnap(s.saving.value.copy, s.trace, after.trace, a); }
  }

  lemma TraceKeepsSnap(snap: Snapshot, trace: seq<Event>, longer: seq<Event>, a: Address)
    requires SnapOk(snap, trace)
    requires forall b :: b != a ==> Known(longer, b) == Known(trace, b)
    requires Fits(snap, a, Known(longer, a))
    ensures SnapOk(snap, longer)
  {
    forall b ensures Fits(snap, b, Known(longer, b)) {
      assert Fits(snap, b, Known(trace, b));
    }
  }

  lemma ReturnKnown(s: System, a: Address, status: EffectStatus)
    requires Inv(s) && Enabled(s, Return(a, status))
    ensures var after := Do(s, Return(a, status));
            && Justified(after.trace) && (forall b :: b != a ==> Known(after.trace, b) == Known(s.trace, b))
            && (status == Succeeded ==> Known(after.trace, a) == KnownDone)
            && (status == NotDone ==> Known(after.trace, a) == KnownNotDone)
  {
    var e := Closed(a, status);
    assert PointOk(s, a, InFlight);
    JustifiedExtend(s.trace, e);
    forall b ensures b != a ==> Known(s.trace + [e], b) == Known(s.trace, b) {
      KnownExtend(s.trace, e, b);
    }
    KnownExtend(s.trace, e, a);
  }

  lemma ReturnKeepsSnaps(s: System, a: Address, status: EffectStatus)
    requires Inv(s) && Enabled(s, Return(a, status))
    ensures var after := Do(s, Return(a, status));
            && SnapOk(after.durable, after.trace) && SnapOk(after.live.value, after.trace)
            && (after.saving.Some? ==> SnapOk(after.saving.value.copy, after.trace))
  {
    var longer := Do(s, Return(a, status)).trace;
    assert PointOk(s, a, InFlight);
    assert Fits(s.durable, a, Unresolved) && (s.saving.Some? ==> Fits(s.saving.value.copy, a, Unresolved));
    ReturnKnown(s, a, status);
    TraceKeepsSnap(s.durable, s.trace, longer, a);
    if s.saving.Some? { TraceKeepsSnap(s.saving.value.copy, s.trace, longer, a); }
    ResultKeepsSnap(s.live.value, s.trace, longer, a, status);
  }

  lemma ReturnKeepsInv(s: System, a: Address, status: EffectStatus)
    requires Inv(s) && Enabled(s, Return(a, status))
    ensures Inv(Do(s, Return(a, status)))
  {
    var after := Do(s, Return(a, status));
    assert PointOk(s, a, InFlight);
    ReturnKnown(s, a, status);
    ReturnKeepsSnaps(s, a, status);
    ResultKeepsSnap(s.live.value, s.trace, after.trace, a, status);
    forall b | b in after.tasks ensures PointOk(after, b, after.tasks[b]) {
      if b != a { PointCarries(s, after, b, s.tasks[b]); }
    }
  }

  lemma ResultKeepsSnap(snap: Snapshot, trace: seq<Event>, longer: seq<Event>, a: Address, status: EffectStatus)
    requires SnapOk(snap, trace) && EntryAt(snap, a).Some? && status in {Succeeded, NotDone, Unclear}
    requires forall b :: b != a ==> Known(longer, b) == Known(trace, b)
    requires status == Succeeded ==> Known(longer, a) == KnownDone
    requires status == NotDone ==> Known(longer, a) == KnownNotDone
    ensures SnapOk(SetStatus(snap, a, status), longer)
    ensures forall b :: b != a ==> EntryAt(SetStatus(snap, a, status), b) == EntryAt(snap, b)
    ensures EntryAt(SetStatus(snap, a, status), a) == Some(EntryAt(snap, a).value.(status := status))
  {
    var after := SetStatus(snap, a, status);
    EntryAfterSet(snap, a, status, a);
    forall b ensures b != a ==> EntryAt(after, b) == EntryAt(snap, b) {
      EntryAfterSet(snap, a, status, b);
    }
    forall b ensures Fits(after, b, Known(longer, b)) {
      assert Fits(snap, b, Known(trace, b));
    }
  }

  lemma DecideKeepsInv(s: System, a: Address, record: S.Status)
    requires Inv(s) && s.live.Some? && a in s.live.value.records && s.live.value.records[a] == S.Pending && a !in s.tasks
    ensures Inv(s.(live := Some(SetRecord(s.live.value, a, record))))
  {
    var decided := s.(live := Some(SetRecord(s.live.value, a, record)));
    RecordKeepsSnap(s.live.value, s.trace, a, record);
    forall b | b in s.tasks ensures PointOk(decided, b, s.tasks[b]) {
      assert PointOk(s, b, s.tasks[b]);
    }
  }

  lemma StartKeepsInv(s: System, a: Address, record: S.Status)
    requires Inv(s) && s.live.Some? && a in s.live.value.records && s.live.value.records[a] == S.Pending && a !in s.tasks
    ensures Inv(s.(live := Some(SetRecord(s.live.value, a, record))))
    ensures Inv(s.(live := Some(SetRecord(s.live.value, a, S.Running)), tasks := s.tasks[a := Looking]))
  {
    var started := s.(live := Some(SetRecord(s.live.value, a, S.Running)), tasks := s.tasks[a := Looking]);
    DecideKeepsInv(s, a, record);
    RecordKeepsSnap(s.live.value, s.trace, a, S.Running);
    forall b | b in started.tasks ensures PointOk(started, b, started.tasks[b]) {
      if b != a { assert PointOk(s, b, s.tasks[b]); }
    }
  }

  lemma SavingKeepsInv(s: System, act: Action)
    requires Inv(s) && Enabled(s, act) && (act.TakeCopy? || act.Commit?)
    ensures Inv(Do(s, act))
  {
    var after := Do(s, act);
    forall b | b in after.tasks ensures PointOk(after, b, after.tasks[b]) {
      assert PointOk(s, b, s.tasks[b]);
    }
  }

  lemma ReleaseKeepsInv(s: System)
    requires Inv(s) && s.saving.Some?
    ensures Inv(s.(saving := None))
  {
    var after := s.(saving := None);
    forall b | b in after.tasks ensures PointOk(after, b, after.tasks[b]) {
      assert PointOk(s, b, s.tasks[b]);
    }
  }

  lemma RetryKeepsInv(s: System, a: Address)
    requires Inv(s) && s.live.Some? && a in s.tasks && !Owns(s, a)
    ensures Inv(s.(tasks := s.tasks[a := Looking]))
    ensures Inv(s.(tasks := s.tasks - {a}))
  {
    var again, gone := s.(tasks := s.tasks[a := Looking]), s.(tasks := s.tasks - {a});
    forall b | b in s.tasks ensures PointOk(again, b, again.tasks[b]) && (b != a ==> PointOk(gone, b, gone.tasks[b])) {
      assert PointOk(s, b, s.tasks[b]);
    }
  }

  lemma FailSaveKeepsInv(s: System, retry: bool)
    requires Inv(s) && s.live.Some? && s.saving.Some?
    ensures Inv(Do(s, FailSave(retry)))
  {
    var owner := s.saving.value.owner;
    var released := s.(saving := None);
    ReleaseKeepsInv(s);
    if owner.Some? && owner.value in s.tasks {
      if retry { RetryKeepsInv(released, owner.value); } else { LeavingKeepsInv(released, owner.value, S.Failed); }
    }
  }

  // ----- restart -------------------------------------------------------------------------

  lemma FindSame(j0: seq<Entry>, j1: seq<Entry>, a: Address)
    requires |j0| == |j1| && forall i :: 0 <= i < |j0| ==> j0[i].address == j1[i].address
    ensures Find(j0, a) == Find(j1, a)
  {
  }

  /** After a resume nothing is merely dispatched, and every other entry says what it said. */
  lemma ResumedEntry(snap: Snapshot, a: Address)
    ensures EntryAt(Resumed(snap), a) ==
            match EntryAt(snap, a)
            case None => None
            case Some(e) => Some(if e.status == Dispatched then e.(status := Unclear) else e)
  {
    FindSame(snap.journal, ResumedJournal(snap.journal), a);
  }

  lemma ResumedKeepsSnap(snap: Snapshot, trace: seq<Event>)
    requires SnapOk(snap, trace)
    ensures SnapOk(Resumed(snap), trace)
  {
    var after := Resumed(snap);
    forall a ensures Fits(after, a, Known(trace, a)) {
      ResumedEntry(snap, a);
      assert Fits(snap, a, Known(trace, a));
    }
    forall a | EntryAt(after, a).Some? ensures a in after.records {
      ResumedEntry(snap, a);
    }
    forall a | EntryAt(after, a).Some? && EntryAt(after, a).value.status == Reconciled
      ensures after.records[a] == S.Completed
    {
      ResumedEntry(snap, a);
      if SentEntry(snap.journal, a) { SentIsNewest(snap.journal, a); }
    }
  }

  lemma SentIsNewest(journal: seq<Entry>, a: Address)
    requires OnePerAddress(journal) && SentEntry(journal, a)
    ensures Find(journal, a) >= 0 && journal[Find(journal, a)].status == Dispatched
  {
    var e :| e in journal && e.address == a && e.status == Dispatched;
    var k :| 0 <= k < |journal| && journal[k] == e;
    if Find(journal, a) != k { assert false; }
  }

  lemma ReconcileKeepsInv(s: System, a: Address, completed: bool)
    requires Inv(s) && Enabled(s, Reconcile(a, completed))
    ensures Inv(Do(s, Reconcile(a, completed)))
  {
    var after := Do(s, Reconcile(a, completed));
    var status := if completed then Reconciled else Prepared;
    forall b ensures EntryAt(after.durable, b) ==
                     if b == a then Some(EntryAt(s.durable, a).value.(status := status)) else EntryAt(s.durable, b) {
      EntryAfterSet(s.durable, a, status, b);
    }
    EntryAfterSet(s.durable, a, status, a);
    if !completed {
      JustifiedExtend(s.trace, Denied(a));
    }
    forall b ensures Fits(after.durable, b, Known(after.trace, b)) {
      assert Fits(s.durable, b, Known(s.trace, b));
      if !completed { KnownExtend(s.trace, Denied(a), b); }
    }
  }

  /** The journal invariant survives every action of every kind. */
  lemma ActionKeepsInv(s: System, act: Action)
    requires Inv(s)
    ensures Inv(Perform(s, act))
  {
    if Enabled(s, act) {
      match act
      case Start(a) => StartKeepsInv(s, a, S.Running);
      case Decide(a, record) => StartKeepsInv(s, a, record);
      case LookUp(a, call, safeReplay) => LookUpKeepsInv(s, a, call, safeReplay);
      case Mark(a) =>
        assert PointOk(s, a, Marking) && Fits(s.live.value, a, Known(s.trace, a));
        MarkingKeepsInv(s, a);
      case TakeCopy(_) => SavingKeepsInv(s, act);
      case Commit => SavingKeepsInv(s, act);
      case FailSave(retry) => FailSaveKeepsInv(s, retry);
      case Send(a) => SendKeepsInv(s, a);
      case Return(a, status) => ReturnKeepsInv(s, a, status);
      case Fault(a, retry) => if retry { RetryKeepsInv(s, a); } else { LeavingKeepsInv(s, a, S.Failed); }
      case Conclude(a, record) => LeavingKeepsInv(s, a, record);
      case Cancel(a, opening) => if opening { RetryKeepsInv(s, a); } else { LeavingKeepsInv(s, a, S.Interrupted); }
      case Crash(_) =>
      case Resume(_) => ResumedKeepsSnap(s.durable, s.trace);
      case Reconcile(a, completed) => ReconcileKeepsInv(s, a, completed);
    }
  }

  lemma InitialInv(addresses: set<Address>, dryRun: bool)
    ensures Inv(Initial(addresses, dryRun))
  {
  }

  lemma {:induction false} RunKeepsInv(s: System, acts: seq<Action>)
    requires Inv(s)
    ensures Inv(RunOf(s, acts))
  {
    if acts != [] {
      RunKeepsInv(s, acts[..|acts| - 1]);
      ActionKeepsInv(RunOf(s, acts[..|acts| - 1]), acts[|acts| - 1]);
    }
  }
}
