/** What the journal protocol promises over whole runs. */
module EffectTheorems {
  import opened Options
  import opened EffectJournal
  import opened EffectSafety
  import S = Scheduler

  function Trace(addresses: set<Address>, dryRun: bool, acts: seq<Action>): seq<Event> {
    RunOf(Initial(addresses, dryRun), acts).trace
  }

  ghost predicate NeverSafeReplay(trace: seq<Event>, a: Address) {
    forall i :: 0 <= i < |trace| && trace[i].Sent? && trace[i].a == a ==> !trace[i].safeReplay
  }

  /** Over any number of crashes, cancellations, retries and resumes, an effect without safe
      replay is dispatched at most once more than the user has declared it undone. */
  lemma AtMostOneDispatch(addresses: set<Address>, dryRun: bool, acts: seq<Action>, a: Address)
    requires NeverSafeReplay(Trace(addresses, dryRun, acts), a)
    ensures Count(Trace(addresses, dryRun, acts), a) <= 1 + Denials(Trace(addresses, dryRun, acts), a)
  {
    InitialInv(addresses, dryRun);
    RunKeepsInv(Initial(addresses, dryRun), acts);
    UnsafeCount(Trace(addresses, dryRun, acts), a);
  }

  lemma {:induction false} DoneStays(trace: seq<Event>, i: nat, j: nat, a: Address)
    requires Justified(trace) && i < j <= |trace| && trace[i] == Closed(a, Succeeded)
    requires forall k :: i < k < j ==> trace[k] != Denied(a)
    ensures Known(trace[..j], a) == KnownDone
  {
    assert trace[..j][..j - 1] == trace[..j - 1];
    if j > i + 1 {
      DoneStays(trace, i, j - 1, a);
      assert JustifiedAt(trace, j - 1);
    }
  }

  /** A performed receipt is a no-replay boundary, even for effects with safe replay: only the
      user's statement that the effect did not happen reopens the address. */
  lemma PerformedIsFinal(addresses: set<Address>, dryRun: bool, acts: seq<Action>, i: nat, j: nat, a: Address)
    requires i < j < |Trace(addresses, dryRun, acts)|
    requires Trace(addresses, dryRun, acts)[i] == Closed(a, Succeeded)
    requires Trace(addresses, dryRun, acts)[j].Sent? && Trace(addresses, dryRun, acts)[j].a == a
    ensures exists k :: i < k < j && Trace(addresses, dryRun, acts)[k] == Denied(a)
  {
    var trace := Trace(addresses, dryRun, acts);
    InitialInv(addresses, dryRun);
    RunKeepsInv(Initial(addresses, dryRun), acts);
    assert JustifiedAt(trace, j);
    if forall k :: i < k < j ==> trace[k] != Denied(a) {
      DoneStays(trace, i, j, a);
      assert false;
    }
  }

  /** Write-ahead: when the tool is about to be called, memory, the durable checkpoint and any
      checkpoint still being written all say `dispatched`. */
  lemma WriteAhead(addresses: set<Address>, dryRun: bool, acts: seq<Action>, a: Address)
    requires Enabled(RunOf(Initial(addresses, dryRun), acts), Send(a))
    ensures var s := RunOf(Initial(addresses, dryRun), acts);
            && SaysDispatched(s.live.value, a) && SaysDispatched(s.durable, a)
            && (s.saving.Some? ==> SaysDispatched(s.saving.value.copy, a))
  {
    InitialInv(addresses, dryRun);
    RunKeepsInv(Initial(addresses, dryRun), acts);
    var s := RunOf(Initial(addresses, dryRun), acts);
    assert PointOk(s, a, s.tasks[a]);
  }

  /** One more action of a run. */
  lemma RunSnoc(s: System, acts: seq<Action>, act: Action)
    ensures RunOf(s, acts + [act]) == Perform(RunOf(s, acts), act)
  {
    assert (acts + [act])[..|acts|] == acts;
  }

  /** A tool step that consults an empty journal, up to its dispatch: the entry is saved prepared,
      marked, saved dispatched. */
  function ToPrepared(a: Address, call: Call): seq<Action> {
    [LookUp(a, call, false)] + [TakeCopy(Some(a))] + [Commit]
  }

  function ToDispatch(a: Address, call: Call): seq<Action> {
    ToPrepared(a, call) + [Mark(a)] + [TakeCopy(Some(a))] + [Commit]
  }

  /** A process with one task, and what it shares with the outside. */
  function Lone(a: Address, snap: Snapshot, durable: Snapshot, p: Point, accepting: bool, trace: seq<Event>): System {
    System(Some(snap), durable, None, map[a := p], accepting, false, trace)
  }

  function NoEntry(a: Address, record: S.Status): Snapshot {
    Snapshot(map[a := record], [])
  }

  function OneEntry(a: Address, record: S.Status, call: Call, status: EffectStatus): Snapshot {
    Snapshot(map[a := record], [Entry(a, call, false, status)])
  }

  lemma PreparedReached(a: Address, call: Call, record: S.Status, durable: Snapshot, accepting: bool, trace: seq<Event>)
    ensures var prepared := OneEntry(a, record, call, Prepared);
            RunOf(Lone(a, NoEntry(a, record), durable, Looking, accepting, trace), ToPrepared(a, call))
            == Lone(a, prepared, prepared, Marking, accepting, trace)
  {
    var s := Lone(a, NoEntry(a, record), durable, Looking, accepting, trace);
    RunSnoc(s, [], LookUp(a, call, false));
    assert [] + [LookUp(a, call, false)] == [LookUp(a, call, false)];
    assert [] + [Entry(a, call, false, Prepared)] == [Entry(a, call, false, Prepared)];
    SavedAfter(s, [LookUp(a, call, false)], a, OneEntry(a, record, call, Prepared), durable, Preparing, accepting, trace);
  }

  /** Copying and committing makes memory durable and moves the task that waits for it. */
  lemma SavedAfter(s: System, acts: seq<Action>, a: Address, snap: Snapshot, durable: Snapshot, p: Point, accepting: bool, trace: seq<Event>)
    requires RunOf(s, acts) == Lone(a, snap, durable, p, accepting, trace) && AwaitsSave(p)
    ensures RunOf(s, acts + [TakeCopy(Some(a))] + [Commit]) == Lone(a, snap, snap, AfterSave(p), accepting, trace)
  {
    RunSnoc(s, acts, TakeCopy(Some(a)));
    RunSnoc(s, acts + [TakeCopy(Some(a))], Commit);
    CopyTaken(a, snap, durable, p, accepting, trace);
    CopyWritten(a, snap, durable, p, accepting, trace);
  }

  lemma CopyTaken(a: Address, snap: Snapshot, durable: Snapshot, p: Point, accepting: bool, trace: seq<Event>)
    requires AwaitsSave(p)
    ensures var s := Lone(a, snap, durable, p, accepting, trace);
            Perform(s, TakeCopy(Some(a))) == s.(saving := Some(Save(Some(a), snap)))
  {
  }

  lemma CopyWritten(a: Address, snap: Snapshot, durable: Snapshot, p: Point, accepting: bool, trace: seq<Event>)
    ensures var s := Lone(a, snap, durable, p, accepting, trace);
            Perform(s.(saving := Some(Save(Some(a), snap))), Commit) == Lone(a, snap, snap, AfterSave(p), accepting, trace)
  {
    assert map[a := p][a := AfterSave(p)] == map[a := AfterSave(p)];
  }

  lemma ArmedReached(a: Address, call: Call, record: S.Status, durable: Snapshot, accepting: bool, trace: seq<Event>)
    ensures var dispatched := OneEntry(a, record, call, Dispatched);
            RunOf(Lone(a, NoEntry(a, record), durable, Looking, accepting, trace), ToDispatch(a, call))
            == Lone(a, dispatched, dispatched, Armed, accepting, trace)
  {
    var s := Lone(a, NoEntry(a, record), durable, Looking, accepting, trace);
    PreparedReached(a, call, record, durable, accepting, trace);
    RunSnoc(s, ToPrepared(a, call), Mark(a));
    Marked(a, record, Entry(a, call, false, Prepared));
    SavedAfter(s, ToPrepared(a, call) + [Mark(a)], a, OneEntry(a, record, call, Dispatched), OneEntry(a, record, call, Prepared), Announcing, accepting, trace);
  }

  lemma SentReached(a: Address, call: Call, record: S.Status, durable: Snapshot, accepting: bool, trace: seq<Event>)
    ensures var s, dispatched := Lone(a, NoEntry(a, record), durable, Looking, accepting, trace), OneEntry(a, record, call, Dispatched);
            && Enabled(RunOf(s, ToDispatch(a, call)), Send(a))
            && RunOf(s, ToDispatch(a, call) + [Send(a)]) == Lone(a, dispatched, dispatched, InFlight, accepting, trace + [Sent(a, false)])
  {
    ArmedReached(a, call, record, durable, accepting, trace);
    Marked(a, record, Entry(a, call, false, Prepared));
    RunSnoc(Lone(a, NoEntry(a, record), durable, Looking, accepting, trace), ToDispatch(a, call), Send(a));
  }

  lemma {:induction false} RunConcat(s: System, first: seq<Action>, later: seq<Action>)
    ensures RunOf(s, first + later) == RunOf(RunOf(s, first), later)
  {
    if later == [] {
      assert first + later == first;
    } else {
      var last := |later| - 1;
      RunConcat(s, first, later[..last]);
      assert first + later == first + later[..last] + [later[last]];
      RunSnoc(s, first + later[..last], later[last]);
    }
  }

  lemma StartReached(a: Address)
    ensures RunOf(Initial({a}, false), [Start(a)]) == Lone(a, NoEntry(a, S.Running), NoEntry(a, S.Pending), Looking, true, [])
  {
    var s := Initial({a}, false);
    InitialIs(a);
    TaskStarts(a, NoEntry(a, S.Pending), []);
    RunSnoc(s, [], Start(a));
    assert [] + [Start(a)] == [Start(a)];
  }

  /** A process without a task. */
  function Idle(snap: Snapshot, durable: Snapshot, trace: seq<Event>): System {
    System(Some(snap), durable, None, map[], true, false, trace)
  }

  lemma InitialIs(a: Address)
    ensures Initial({a}, false) == Idle(NoEntry(a, S.Pending), NoEntry(a, S.Pending), [])
  {
    assert Initial({a}, false).durable.records == map[a := S.Pending];
  }

  lemma TaskStarts(a: Address, durable: Snapshot, trace: seq<Event>)
    ensures Perform(Idle(NoEntry(a, S.Pending), durable, trace), Start(a)) == Lone(a, NoEntry(a, S.Running), durable, Looking, true, trace)
  {
    assert map[a := S.Pending][a := S.Running] == map[a := S.Running];
    assert map[][a := Looking] == map[a := Looking];
  }

  /** Dispatches do happen: this run enables one, and after it the effect is in flight and nothing else
      is in doubt or dispatched. */
  lemma DispatchReachable(a: Address, call: Call)
    ensures Enabled(RunOf(Initial({a}, false), [Start(a)] + ToDispatch(a, call)), Send(a))
    ensures var s := RunOf(Initial({a}, false), [Start(a)] + (ToDispatch(a, call) + [Send(a)]));
            && Working(s, a, InFlight) && s.saving.None? && s.trace == [Sent(a, false)]
            && !AnyInDoubt(s.live.value) && forall b :: b != a ==> !SaysDispatched(s.live.value, b)
  {
    StartReached(a);
    SentReached(a, call, S.Running, NoEntry(a, S.Pending), true, []);
    RunConcat(Initial({a}, false), [Start(a)], ToDispatch(a, call));
    RunConcat(Initial({a}, false), [Start(a)], ToDispatch(a, call) + [Send(a)]);
    Marked(a, S.Running, Entry(a, call, false, Prepared));
    assert [] + [Sent(a, false)] == [Sent(a, false)];
  }

  lemma Marked(a: Address, record: S.Status, e: Entry)
    requires e.address == a
    ensures var snap := Snapshot(map[a := record], [e]);
            && EntryAt(snap, a) == Some(e) && (forall b :: b != a ==> EntryAt(snap, b) == None)
            && SetStatus(snap, a, Dispatched) == Snapshot(map[a := record], [e.(status := Dispatched)])
    ensures EntryAt(Snapshot(map[a := record], [e.(status := Dispatched)]), a) == Some(e.(status := Dispatched))
    ensures forall b :: b != a ==> EntryAt(Snapshot(map[a := record], [e.(status := Dispatched)]), b) == None
  {
  }

  /** Every reachable checkpoint holds one entry per address, has a record for every entry, and a
      step about to consult the journal never finds a reconciled entry. */
  lemma JournalShape(addresses: set<Address>, dryRun: bool, acts: seq<Action>)
    ensures var s := RunOf(Initial(addresses, dryRun), acts);
            && OnePerAddress(s.durable.journal)
            && (forall a :: EntryAt(s.durable, a).Some? ==> a in s.durable.records)
            && (forall a :: Working(s, a, Looking) && EntryAt(s.live.value, a).Some? ==>
                  EntryAt(s.live.value, a).value.status != Reconciled)
  {
    InitialInv(addresses, dryRun);
    RunKeepsInv(Initial(addresses, dryRun), acts);
    var s := RunOf(Initial(addresses, dryRun), acts);
    forall a | Working(s, a, Looking) && EntryAt(s.live.value, a).Some?
      ensures EntryAt(s.live.value, a).value.status != Reconciled
    {
      assert PointOk(s, a, Looking);
    }
  }

  predicate Restarts(act: Action) {
    act.Crash? || act.Resume?
  }

  ghost predicate HaltedBy(s: System) {
    s.live.Some? && !s.accepting && s.tasks == map[]
  }

  lemma {:induction false} HaltedRunSendsNothing(s: System, acts: seq<Action>)
    requires HaltedBy(s) && forall i :: 0 <= i < |acts| ==> !Restarts(acts[i])
    ensures HaltedBy(RunOf(s, acts)) && RunOf(s, acts).trace == s.trace
  {
    if acts != [] {
      HaltedRunSendsNothing(s, acts[..|acts| - 1]);
    }
  }

  /** A process that died with a dispatch of `a` unanswered in the checkpoint is resumed in doubt,
      and that resumed process dispatches nothing at all, whatever happens in it. */
  lemma UnansweredDispatchHaltsResume(addresses: set<Address>, dryRun: bool, acts: seq<Action>, a: Address, again: bool, later: seq<Action>)
    requires var s := RunOf(Initial(addresses, dryRun), acts);
             s.live.None? && SaysDispatched(s.durable, a)
    requires forall i :: 0 <= i < |later| ==> !Restarts(later[i])
    ensures var s := RunOf(Initial(addresses, dryRun), acts);
            var resumed := Do(s, Resume(again));
            && a in resumed.live.value.records && resumed.live.value.records[a] == S.InDoubt
            && EntryAt(resumed.live.value, a).value.status == Unclear
            && RunOf(resumed, later).trace == s.trace
  {
    InitialInv(addresses, dryRun);
    RunKeepsInv(Initial(addresses, dryRun), acts);
    var s := RunOf(Initial(addresses, dryRun), acts);
    var k := Find(s.durable.journal, a);
    assert s.durable.journal[k] in s.durable.journal;
    assert SentEntry(s.durable.journal, a);
    ResumedEntry(s.durable, a);
    var live := Resumed(s.durable);
    assert live.records[a] == S.InDoubt;
    HaltedRunSendsNothing(Do(s, Resume(again)), later);
  }

  lemma NewestIs(journal: seq<Entry>, a: Address, e: Entry)
    requires OnePerAddress(journal) && e in journal && e.address == a
    ensures Find(journal, a) >= 0 && journal[Find(journal, a)] == e
  {
    var k :| 0 <= k < |journal| && journal[k] == e;
    if Find(journal, a) != k { assert false; }
  }

  /** Exactly which records a resume leaves unable to run and unable to finish: those that were
      ready or running while their effect was already closed. */
  lemma StuckAfterResumeIff(snap: Snapshot, trace: seq<Event>, a: Address)
    requires SnapOk(snap, trace) && a in snap.records
    ensures Resumed(snap).records[a] in {S.Ready, S.Running} <==>
            && snap.records[a] in {S.Ready, S.Running}
            && EntryAt(snap, a).Some? && EntryAt(snap, a).value.status in {Unclear, Succeeded, NotDone}
  {
    var after := ResumedJournal(snap.journal);
    FindSame(snap.journal, after, a);
    if SentEntry(snap.journal, a) {
      SentIsNewest(snap.journal, a);
    }
    if EntryAt(snap, a).Some? {
      var k := Find(snap.journal, a);
      assert snap.journal[k] in snap.journal && after[k] in after;
    }
    if ClosesRecord(after, a) {
      var e :| e in after && e.address == a && e.status in {Dispatched, Unclear, Succeeded, NotDone};
      NewestIs(after, a, e);
    }
  }

  /** The process dies after the closed entry is durable and before the step's record is. */
  function DieAfterClosing(s: System, a: Address, dryRun: bool): System {
    var closed := Perform(s, Return(a, Unclear));
    var saved := Perform(Perform(closed, TakeCopy(Some(a))), Commit);
    Perform(Perform(saved, Crash(false)), Resume(dryRun))
  }

  lemma DeathResult(s: System, a: Address, dryRun: bool)
    requires Working(s, a, InFlight) && s.saving.None? && EntryAt(s.live.value, a).Some?
    ensures var after := DieAfterClosing(s, a, dryRun);
            var live := Resumed(SetStatus(s.live.value, a, Unclear));
            && after.live == Some(live) && after.trace == s.trace + [Closed(a, Unclear)]
            && after.accepting == !AnyInDoubt(live)
  {
    var copy := SetStatus(s.live.value, a, Unclear);
    var closed := Do(s, Return(a, Unclear));
    assert closed.live == Some(copy) && closed.tasks[a] == Closing;
    var copied := Do(closed, TakeCopy(Some(a)));
    assert copied.saving == Some(Save(Some(a), copy)) && copied.live == Some(copy);
    var saved := Do(copied, Commit);
    assert saved.durable == copy && saved.saving.None? && saved.live.Some?;
    var dead := Do(saved, Crash(false));
    assert dead.live.None? && dead.durable == copy && dead.trace == s.trace + [Closed(a, Unclear)];
    assert DieAfterClosing(s, a, dryRun) == Do(dead, Resume(dryRun));
  }

  lemma ClosedUnclearStaysRunning(snap: Snapshot, trace: seq<Event>, a: Address)
    requires SnapOk(snap, trace) && SaysDispatched(snap, a) && snap.records[a] == S.Running
    ensures var after := Resumed(SetStatus(snap, a, Unclear));
            && a in after.records && after.records[a] == S.Running
            && (!AnyInDoubt(snap) && (forall b :: b != a ==> !SaysDispatched(snap, b)) ==> !AnyInDoubt(after))
  {
    var closed := SetStatus(snap, a, Unclear);
    forall b ensures SentEntry(closed.journal, b) ==> b != a && SaysDispatched(snap, b) {
      EntryAfterSet(snap, a, Unclear, b);
      if SentEntry(closed.journal, b) { SentIsNewest(closed.journal, b); }
    }
    EntryAfterSet(snap, a, Unclear, a);
    assert ClosesRecord(ResumedJournal(closed.journal), a) by {
      var k := Find(closed.journal, a);
      assert ResumedJournal(closed.journal)[k] in ResumedJournal(closed.journal);
    }
  }

  /** Whenever a called tool answers "unclear" and the process then dies, the resume leaves the
      step's record running, and with no other doubt around it does not halt. */
  lemma UnclearEffectHides(s: System, a: Address, dryRun: bool)
    requires Inv(s) && Working(s, a, InFlight) && s.saving.None?
    ensures var after := DieAfterClosing(s, a, dryRun);
            && after.live.Some? && a in after.live.value.records && after.live.value.records[a] == S.Running
            && Known(after.trace, a) == Unresolved
            && (!AnyInDoubt(s.live.value) && (forall b :: b != a ==> !SaysDispatched(s.live.value, b)) ==> after.accepting)
  {
    assert PointOk(s, a, InFlight);
    DeathResult(s, a, dryRun);
    ClosedUnclearStaysRunning(s.live.value, s.trace, a);
    KnownExtend(s.trace, Closed(a, Unclear), a);
  }
}
