/** A run that ends while tasks of its scheduler are still alive, and the next start of that run. */
module Leftovers {
  import opened Options
  import opened EffectJournal
  import opened EffectSafety
  import opened EffectTheorems
  import S = Scheduler

  /** The handler of a cancelled run: what is ready or running is marked interrupted, in memory. */
  function CutShort(snap: Snapshot): Snapshot {
    snap.(records := map a | a in snap.records :: if snap.records[a] in {S.Ready, S.Running} then S.Interrupted else snap.records[a])
  }

  /** The run ends; its last checkpoint may fail. Tasks that nobody waited for go on, and the memory
      they work on with them. */
  function EndRun(s: System, saved: bool): System
    requires s.live.Some?
  {
    var memory := CutShort(s.live.value);
    s.(live := Some(memory), durable := if saved then memory else s.durable, saving := None, accepting := false)
  }

  /** What is left of one start, and the process that may take the run up again. They have the
      durable checkpoint in common, and the world. */
  datatype Pair = Pair(left: System, now: System)

  datatype Move = Left(act: Action) | Now(act: Action)

  /** Only tasks still act for a run that has ended. */
  predicate OfTask(act: Action) {
    !act.Start? && !act.Decide? && !act.Resume? && !act.Reconcile? && act != TakeCopy(None)
  }

  function Shared(s: System, from: System): System {
    s.(durable := from.durable, trace := from.trace)
  }

  function MoveOf(p: Pair, m: Move): Pair {
    match m
    case Left(act) =>
      var left := if OfTask(act) then Perform(p.left, act) else p.left;
      Pair(left, Shared(p.now, left))
    case Now(act) =>
      var now := Perform(p.now, act);
      Pair(Shared(p.left, now), now)
  }

  function Moves(p: Pair, moves: seq<Move>): Pair {
    if moves == [] then p else MoveOf(Moves(p, moves[..|moves| - 1]), moves[|moves| - 1])
  }

  /** A run has ended, and nobody has taken it up yet. */
  function Ended(s: System): Pair {
    Pair(s, s.(live := None, saving := None, tasks := map[]))
  }

  // ----- without tasks left ---------------------------------------------------------------------

  ghost predicate Quiet(p: Pair) {
    && p.left.tasks == map[] && p.left.saving.None?
    && p.left.durable == p.now.durable && p.left.trace == p.now.trace && Inv(p.now)
  }

  lemma QuietMove(p: Pair, m: Move)
    requires Quiet(p)
    ensures Quiet(MoveOf(p, m))
  {
    match m
    case Left(act) => assert Shared(p.now, p.left) == p.now;
    case Now(act) => ActionKeepsInv(p.now, act);
  }

  lemma {:induction false} QuietMoves(p: Pair, moves: seq<Move>)
    requires Quiet(p)
    ensures Quiet(Moves(p, moves))
  {
    if moves != [] {
      QuietMoves(p, moves[..|moves| - 1]);
      QuietMove(Moves(p, moves[..|moves| - 1]), moves[|moves| - 1]);
    }
  }

  lemma CutShortKeepsSnap(snap: Snapshot, trace: seq<Event>)
    requires SnapOk(snap, trace)
    ensures SnapOk(CutShort(snap), trace)
  {
    var after := CutShort(snap);
    assert forall a :: EntryAt(after, a) == EntryAt(snap, a);
    assert forall a :: Fits(snap, a, Known(trace, a)) ==> Fits(after, a, Known(trace, a));
  }

  /** If no task is left when a run ends, later starts of it keep the bound, whatever happens. */
  lemma NoTaskLeftKeepsBound(addresses: set<Address>, dryRun: bool, acts: seq<Action>, saved: bool, moves: seq<Move>, a: Address)
    requires var s := RunOf(Initial(addresses, dryRun), acts); s.live.Some? && s.tasks == map[]
    requires var trace := Moves(Ended(EndRun(RunOf(Initial(addresses, dryRun), acts), saved)), moves).now.trace;
             NeverSafeReplay(trace, a)
    ensures var trace := Moves(Ended(EndRun(RunOf(Initial(addresses, dryRun), acts), saved)), moves).now.trace;
            Count(trace, a) <= 1 + Denials(trace, a)
  {
    var s := RunOf(Initial(addresses, dryRun), acts);
    InitialInv(addresses, dryRun);
    RunKeepsInv(Initial(addresses, dryRun), acts);
    CutShortKeepsSnap(s.live.value, s.trace);
    var p := Ended(EndRun(s, saved));
    QuietMoves(p, moves);
    UnsafeCount(Moves(p, moves).now.trace, a);
  }

  // ----- with a task left --------------------------------------------------------------------------

  function Lefts(acts: seq<Action>): (r: seq<Move>)
    ensures |r| == |acts|
  {
    seq(|acts|, k requires 0 <= k < |acts| => Left(acts[k]))
  }

  function Nows(acts: seq<Action>): (r: seq<Move>)
    ensures |r| == |acts|
  {
    seq(|acts|, k requires 0 <= k < |acts| => Now(acts[k]))
  }

  lemma {:induction false} OnlyNow(p: Pair, acts: seq<Action>)
    requires p.left == Shared(p.left, p.now)
    ensures Moves(p, Nows(acts)) == Pair(Shared(p.left, RunOf(p.now, acts)), RunOf(p.now, acts))
  {
    if acts != [] {
      OnlyNow(p, acts[..|acts| - 1]);
      assert Nows(acts)[..|acts| - 1] == Nows(acts[..|acts| - 1]);
    }
  }

  lemma {:induction false} OnlyLeft(p: Pair, acts: seq<Action>)
    requires p.now == Shared(p.now, p.left) && forall k :: 0 <= k < |acts| ==> OfTask(acts[k])
    ensures Moves(p, Lefts(acts)) == Pair(RunOf(p.left, acts), Shared(p.now, RunOf(p.left, acts)))
  {
    if acts != [] {
      OnlyLeft(p, acts[..|acts| - 1]);
      assert Lefts(acts)[..|acts| - 1] == Lefts(acts[..|acts| - 1]);
    }
  }

  lemma {:induction false} MovesConcat(p: Pair, first: seq<Move>, later: seq<Move>)
    ensures Moves(p, first + later) == Moves(Moves(p, first), later)
  {
    if later == [] {
      assert first + later == first;
    } else {
      var last := |later| - 1;
      MovesConcat(p, first, later[..last]);
      assert (first + later)[..|first + later| - 1] == first + later[..last];
    }
  }

  function Sending(a: Address, call: Call): seq<Action> {
    ToDispatch(a, call) + [Send(a)]
  }

  /** A step of a run has started and is about to consult the journal when the run is cancelled. */
  function LeftLooking(a: Address): System {
    StartReached(a);
    EndRun(RunOf(Initial({a}, false), [Start(a)]), true)
  }

  /** The next start of the run takes the step up and dispatches it; then the task left does. */
  function BothSend(a: Address, call: Call): seq<Move> {
    Nows([Resume(false)] + [Start(a)] + Sending(a, call)) + Lefts(Sending(a, call))
  }

  lemma LeftLookingIs(a: Address)
    ensures LeftLooking(a) == Lone(a, NoEntry(a, S.Interrupted), NoEntry(a, S.Interrupted), Looking, false, [])
  {
    StartReached(a);
    assert CutShort(NoEntry(a, S.Running)).records == map[a := S.Interrupted];
  }

  lemma ResumedStarts(a: Address)
    ensures var s := Ended(LeftLooking(a)).now;
            RunOf(s, [Resume(false)] + [Start(a)])
            == Lone(a, NoEntry(a, S.Running), NoEntry(a, S.Interrupted), Looking, true, [])
  {
    var s := Ended(LeftLooking(a)).now;
    LeftLookingIs(a);
    ResumesIdle(a, s);
    TaskStarts(a, NoEntry(a, S.Interrupted), []);
    RunSnoc(s, [], Resume(false));
    assert [] + [Resume(false)] == [Resume(false)];
    RunSnoc(s, [Resume(false)], Start(a));
  }

  lemma ResumesIdle(a: Address, s: System)
    requires s.live.None? && s.durable == NoEntry(a, S.Interrupted) && s.trace == []
    ensures Perform(s, Resume(false)) == Idle(NoEntry(a, S.Pending), NoEntry(a, S.Interrupted), [])
  {
    ResumedPending(a);
  }

  lemma ResumedPending(a: Address)
    ensures Resumed(NoEntry(a, S.Interrupted)) == NoEntry(a, S.Pending) && !AnyInDoubt(NoEntry(a, S.Pending))
  {
    assert ResumedJournal([]) == [];
    assert Resumed(NoEntry(a, S.Interrupted)).records == map[a := S.Pending];
  }

  lemma NowSends(a: Address, call: Call)
    ensures var dispatched := OneEntry(a, S.Running, call, Dispatched);
            Moves(Ended(LeftLooking(a)), Nows([Resume(false)] + [Start(a)] + Sending(a, call)))
            == Pair(Lone(a, NoEntry(a, S.Interrupted), dispatched, Looking, false, [Sent(a, false)]),
                    Lone(a, dispatched, dispatched, InFlight, true, [Sent(a, false)]))
  {
    var p := Ended(LeftLooking(a));
    LeftLookingIs(a);
    ResumedStarts(a);
    SentReached(a, call, S.Running, NoEntry(a, S.Interrupted), true, []);
    RunConcat(p.now, [Resume(false)] + [Start(a)], Sending(a, call));
    assert [] + [Sent(a, false)] == [Sent(a, false)];
    OnlyNow(p, [Resume(false)] + [Start(a)] + Sending(a, call));
  }

  lemma OfTasks(a: Address, call: Call)
    ensures forall k :: 0 <= k < |Sending(a, call)| ==> OfTask(Sending(a, call)[k])
  {
  }

  /** With a task left the bound fails: one effect, no safe replay, nobody denied it, two dispatches. */
  lemma LeftTaskSendsTwice(a: Address, call: Call)
    ensures RunOf(Initial({a}, false), [Start(a)]).tasks == map[a := Looking]
    ensures var trace := Moves(Ended(LeftLooking(a)), BothSend(a, call)).now.trace;
            NeverSafeReplay(trace, a) && Count(trace, a) == 2 && Denials(trace, a) == 0
  {
    StartReached(a);
    NowSends(a, call);
    var p := Moves(Ended(LeftLooking(a)), Nows([Resume(false)] + [Start(a)] + Sending(a, call)));
    MovesConcat(Ended(LeftLooking(a)), Nows([Resume(false)] + [Start(a)] + Sending(a, call)), Lefts(Sending(a, call)));
    OfTasks(a, call);
    OnlyLeft(p, Sending(a, call));
    SentReached(a, call, S.Interrupted, OneEntry(a, S.Running, call, Dispatched), false, [Sent(a, false)]);
    TwoSent(a);
  }

  lemma TwoSent(a: Address)
    ensures var trace := [Sent(a, false)] + [Sent(a, false)]; Count(trace, a) == 2 && Denials(trace, a) == 0
  {
    var one := [Sent(a, false)];
    assert one[..0] == [] && (one + one)[..1] == one;
    assert Count(one, a) == 1 && Denials(one, a) == 0;
  }
}
