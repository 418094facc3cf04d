/** The workflow runner's graph scheduler: repeated passes over the step list, an
    exclusive-or-bounded-parallel selection, and an abort path.

    Steps are named by their position in the list. A running step finishes at any
    await of the scheduler, so `Await` may complete any set of running steps; every
    postcondition of `GraphRun.Run` therefore holds for every interleaving. */
module Scheduler {

  datatype Status =
    | Pending | Ready | Running
    | Completed | Skipped | Failed | Blocked | Interrupted | InDoubt

  predicate Terminal(s: Status) {
    s !in {Pending, Ready, Running}
  }

  predicate Success(s: Status) {
    s == Completed || s == Skipped
  }

  datatype Record = Record(status: Status, output: int, blockedBy: seq<nat>)

  datatype Step = Step(needs: seq<nat>, requiresSuccess: bool, hasWhen: bool, failsWorkflow: bool, exclusive: bool)

  datatype Condition = Holds | Fails | Unevaluable

  /** How one executed step ends when nobody cancels it. */
  datatype Result = Output(value: int) | Error | Doubtful

  type View = map<nat, Record>

  /** Conditions and executions read only the records of a step's ancestors. */
  datatype Graph = Graph(steps: seq<Step>, condition: (nat, View) -> Condition, execute: (nat, View) -> Result)

  datatype OnFailure = FailRun | AbortItem | Collect

  predicate WellFormed(g: Graph) {
    forall i, d :: 0 <= i < |g.steps| && d in g.steps[i].needs ==> d < |g.steps|
  }

  /** Every step is listed after its needs. The compiler rejects cycles but keeps the author's order. */
  ghost predicate Topological(g: Graph) {
    forall i, d :: 0 <= i < |g.steps| && d in g.steps[i].needs ==> d < i
  }

  function Ancestors(g: Graph, i: nat): set<nat>
    requires i < |g.steps|
  {
    (set d | d in g.steps[i].needs) +
    (set d, a | d in g.steps[i].needs && d < i && a in Ancestors(g, d) :: a)
  }

  function ViewOf(g: Graph, i: nat, recs: seq<Record>): View
    requires i < |g.steps|
  {
    map a | a in Ancestors(g, i) && a < |recs| :: recs[a]
  }

  // ----- one step's verdict --------------------------------------------------

  function FailedNeeds(needs: seq<nat>, recs: seq<Record>): seq<nat>
    requires forall d :: d in needs ==> d < |recs|
  {
    if needs == [] then []
    else
      assert needs[0] in needs && forall d :: d in needs[1..] ==> d in needs;
      (if Success(recs[needs[0]].status) then [] else [needs[0]]) + FailedNeeds(needs[1..], recs)
  }

  predicate NeedsTerminal(g: Graph, i: nat, recs: seq<Record>)
    requires i < |g.steps|
  {
    forall d :: d in g.steps[i].needs ==> d < |recs| && Terminal(recs[d].status)
  }

  datatype Verdict = BlockedBy(failed: seq<nat>) | CannotTell | Skip | Execute

  function Judge(g: Graph, i: nat, recs: seq<Record>): Verdict
    requires i < |g.steps|
    requires forall d :: d in g.steps[i].needs ==> d < |recs|
  {
    var failed := FailedNeeds(g.steps[i].needs, recs);
    if g.steps[i].requiresSuccess && failed != [] then BlockedBy(failed)
    else if !g.steps[i].hasWhen then Execute
    else match g.condition(i, ViewOf(g, i, recs))
      case Holds => Execute
      case Fails => Skip
      case Unevaluable => CannotTell
  }

  function Recorded(r: Result): Record {
    match r
    case Output(v) => Record(Completed, v, [])
    case Error => Record(Failed, 0, [])
    case Doubtful => Record(InDoubt, 0, [])
  }

  /** The record a verdict writes, given what an execution would write. */
  function Written(v: Verdict, executed: Record): Record {
    match v
    case BlockedBy(failed) => Record(Blocked, 0, failed)
    case CannotTell => Record(Failed, 0, [])
    case Skip => Record(Skipped, 0, [])
    case Execute => executed
  }

  function Executed(g: Graph, i: nat, recs: seq<Record>): Record
    requires i < |g.steps|
  {
    Recorded(g.execute(i, ViewOf(g, i, recs)))
  }

  // ----- the reference run: the list, one step at a time ----------------------

  function Sequential(g: Graph, init: seq<Record>, k: nat): (r: seq<Record>)
    requires WellFormed(g) && |init| == |g.steps| && k <= |init|
    ensures |r| == k
  {
    if k == 0 then []
    else
      var done := Sequential(g, init, k - 1);
      var recs := done + init[k - 1..];
      done + [if Terminal(init[k - 1].status) then init[k - 1]
              else Written(Judge(g, k - 1, recs), Executed(g, k - 1, recs))]
  }

  function Final(g: Graph, init: seq<Record>): (r: seq<Record>)
    requires WellFormed(g) && |init| == |g.steps|
    ensures |r| == |init|
  {
    Sequential(g, init, |init|)
  }

  lemma {:induction false} SequentialPrefix(g: Graph, init: seq<Record>, j: nat, k: nat)
    requires WellFormed(g) && |init| == |g.steps| && j <= k <= |init|
    ensures Sequential(g, init, j) == Sequential(g, init, k)[..j]
  {
    if j < k {
      SequentialPrefix(g, init, j, k - 1);
      assert Sequential(g, init, k)[..k - 1] == Sequential(g, init, k - 1);
    }
  }

  lemma {:induction false} AncestorsEarlier(g: Graph, i: nat)
    requires Topological(g) && i < |g.steps|
    ensures forall a :: a in Ancestors(g, i) ==> a < i
  {
    forall d | d in g.steps[i].needs && d < i ensures forall a :: a in Ancestors(g, d) ==> a < d {
      AncestorsEarlier(g, d);
    }
  }

  lemma {:induction false} FailedNeedsAgree(needs: seq<nat>, r0: seq<Record>, r1: seq<Record>)
    requires forall d :: d in needs ==> d < |r0| && d < |r1| && r0[d] == r1[d]
    ensures FailedNeeds(needs, r0) == FailedNeeds(needs, r1)
  {
    if needs != [] {
      assert needs[0] in needs && forall d :: d in needs[1..] ==> d in needs;
      FailedNeedsAgree(needs[1..], r0, r1);
    }
  }

  /** Records that agree on a step's ancestors give it the same verdict and the same outcome. */
  lemma JudgeAgree(g: Graph, i: nat, r0: seq<Record>, r1: seq<Record>)
    requires WellFormed(g) && i < |g.steps| && |r0| == |r1| == |g.steps|
    requires forall a :: a in Ancestors(g, i) && a < |r0| ==> r0[a] == r1[a]
    ensures Judge(g, i, r0) == Judge(g, i, r1)
    ensures Executed(g, i, r0) == Executed(g, i, r1)
  {
    FailedNeedsAgree(g.steps[i].needs, r0, r1);
    assert ViewOf(g, i, r0) == ViewOf(g, i, r1);
  }

  /** The reference run is a fixed point of its own rule. */
  lemma FinalAt(g: Graph, init: seq<Record>, i: nat)
    requires WellFormed(g) && Topological(g) && |init| == |g.steps| && i < |init|
    ensures Final(g, init)[i] ==
            if Terminal(init[i].status) then init[i]
            else Written(Judge(g, i, Final(g, init)), Executed(g, i, Final(g, init)))
  {
    var fin := Final(g, init);
    SequentialPrefix(g, init, i + 1, |init|);
    SequentialPrefix(g, init, i, |init|);
    var recs := Sequential(g, init, i) + init[i..];
    assert fin[i] == fin[..i + 1][i] == Sequential(g, init, i + 1)[i];
    AncestorsEarlier(g, i);
    forall a | a in Ancestors(g, i) && a < |recs| ensures recs[a] == fin[a] {
      assert fin[..i][a] == fin[a];
    }
    JudgeAgree(g, i, recs, fin);
  }

  // ----- what a run keeps ------------------------------------------------------

  /** Entry of a fresh run and of a resume with no stuck record. */
  ghost predicate Settled(recs: seq<Record>) {
    forall i :: 0 <= i < |recs| ==> recs[i].status == Pending || Terminal(recs[i].status)
  }

  /** A record leaves `Pending` only when its needs are terminal. */
  ghost predicate NeedsMet(g: Graph, recs: seq<Record>)
    requires |recs| == |g.steps|
  {
    forall i :: 0 <= i < |recs| && recs[i].status != Pending ==> NeedsTerminal(g, i, recs)
  }

  /** The reference run executes step `i`. */
  ghost predicate Elected(g: Graph, init: seq<Record>, i: nat)
    requires WellFormed(g) && |init| == |g.steps| && i < |init|
  {
    !Terminal(init[i].status) && Judge(g, i, Final(g, init)) == Execute
  }

  /** Everything decided so far is what the reference run decides. */
  ghost predicate Faithful(g: Graph, init: seq<Record>, recs: seq<Record>)
    requires WellFormed(g) && |init| == |g.steps| == |recs|
  {
    forall i :: 0 <= i < |recs| ==>
      && (Terminal(recs[i].status) ==> recs[i] == Final(g, init)[i])
      && (recs[i].status in {Ready, Running} ==> Elected(g, init, i))
      && (Terminal(init[i].status) ==> recs[i] == init[i])
  }

  ghost predicate Deterministic(g: Graph, init: seq<Record>)
    requires |init| == |g.steps|
  {
    WellFormed(g) && Topological(g) && Settled(init) && NeedsMet(g, init)
  }

  lemma {:induction false} AncestorsTerminal(g: Graph, recs: seq<Record>, i: nat)
    requires WellFormed(g) && Topological(g) && |recs| == |g.steps| && i < |recs|
    requires NeedsMet(g, recs) && NeedsTerminal(g, i, recs)
    ensures forall a :: a in Ancestors(g, i) ==> a < |recs| && Terminal(recs[a].status)
  {
    forall d | d in g.steps[i].needs && d < i
      ensures forall a :: a in Ancestors(g, d) ==> a < |recs| && Terminal(recs[a].status)
    {
      AncestorsTerminal(g, recs, d);
    }
  }

  /** Judged against the live records, a step whose needs are terminal gets the reference verdict. */
  lemma JudgedFaithfully(g: Graph, init: seq<Record>, recs: seq<Record>, i: nat)
    requires |init| == |g.steps| == |recs| && Deterministic(g, init)
    requires NeedsMet(g, recs) && Faithful(g, init, recs) && i < |recs| && NeedsTerminal(g, i, recs)
    ensures Judge(g, i, recs) == Judge(g, i, Final(g, init))
    ensures Executed(g, i, recs) == Executed(g, i, Final(g, init))
  {
    AncestorsTerminal(g, recs, i);
    JudgeAgree(g, i, recs, Final(g, init));
  }

  // ----- a pass while nothing runs ----------------------------------------------

  /** The records after the first `k` list positions of a pass during which no task runs. */
  ghost function QuietPass(g: Graph, recs: seq<Record>, k: nat): (r: seq<Record>)
    requires WellFormed(g) && |recs| == |g.steps| && k <= |recs|
    ensures |r| == |recs|
  {
    if k == 0 then recs
    else
      var before := QuietPass(g, recs, k - 1);
      if before[k - 1].status == Pending && NeedsTerminal(g, k - 1, before)
      then before[k - 1 := Written(Judge(g, k - 1, before), Record(Ready, 0, []))]
      else before
  }

  /** The scheduler has nothing to start, nothing to wait for, and work left over. */
  ghost predicate Stalled(recs: seq<Record>) {
    && (forall i :: 0 <= i < |recs| ==> recs[i].status != Ready)
    && (exists i :: 0 <= i < |recs| && !Terminal(recs[i].status))
  }

  ghost predicate PassErrors(g: Graph, recs: seq<Record>)
    requires WellFormed(g) && |recs| == |g.steps|
  {
    exists i :: 0 <= i < |recs| && recs[i].status == Pending && QuietPass(g, recs, |recs|)[i].status == Failed
  }

  lemma {:induction false} QuietPassUntouched(g: Graph, recs: seq<Record>, k: nat, i: nat)
    requires WellFormed(g) && |recs| == |g.steps| && k <= i < |recs|
    ensures QuietPass(g, recs, k)[i] == recs[i]
  {
    if k > 0 {
      QuietPassUntouched(g, recs, k - 1, i);
    }
  }

  /** What a pass makes of step `i` is decided at its own place in the list. */
  lemma {:induction false} QuietPassAt(g: Graph, recs: seq<Record>, k: nat, i: nat)
    requires WellFormed(g) && |recs| == |g.steps| && i < k <= |recs|
    ensures QuietPass(g, recs, k)[i] ==
            if recs[i].status == Pending && NeedsTerminal(g, i, QuietPass(g, recs, i))
            then Written(Judge(g, i, QuietPass(g, recs, i)), Record(Ready, 0, []))
            else recs[i]
  {
    if i < k - 1 {
      QuietPassAt(g, recs, k - 1, i);
    } else {
      QuietPassUntouched(g, recs, k - 1, i);
    }
  }

  /** The compiler accepts exactly the graphs without cycles. */
  ghost predicate Acyclic(g: Graph) {
    exists rank: nat -> nat :: Ranks(g, rank)
  }

  ghost predicate Ranks(g: Graph, rank: nat -> nat) {
    forall i: nat, d: nat :: i < |g.steps| && d in g.steps[i].needs ==> rank(d) < rank(i)
  }

  /** A step that can become terminal without being executed. */
  predicate Avoidable(s: Step) {
    s.hasWhen || (s.requiresSuccess && s.needs != [])
  }

  /** Step `i` is listed before its need `d`, and `d` may be decided without an execution. */
  ghost predicate LateNeed(g: Graph, i: nat, d: nat) {
    i < d < |g.steps| && d in g.steps[i].needs && Avoidable(g.steps[d])
  }

  ghost predicate HasLateNeed(g: Graph) {
    exists i: nat, d: nat :: LateNeed(g, i, d)
  }

  /** From a step left waiting, follow unfinished needs down to one that was finished too late. */
  lemma {:induction false} FindLateNeed(g: Graph, rank: nat -> nat, recs: seq<Record>, i: nat)
    requires WellFormed(g) && Ranks(g, rank) && |recs| == |g.steps| && NoneRunning(recs) && i < |recs|
    requires Stalled(QuietPass(g, recs, |recs|)) && QuietPass(g, recs, |recs|)[i].status == Pending
    ensures HasLateNeed(g)
    decreases rank(i)
  {
    var after := QuietPass(g, recs, |recs|);
    QuietPassAt(g, recs, |recs|, i);
    var d :| d in g.steps[i].needs && !Terminal(QuietPass(g, recs, i)[d].status);
    QuietPassStatuses(g, recs, |recs|);
    if after[d].status == Pending {
      FindLateNeed(g, rank, recs, d);
    } else {
      QuietPassAt(g, recs, |recs|, d);
      if d < i { QuietPassAt(g, recs, i, d); }
      if d >= i { QuietPassUntouched(g, recs, i, d); }
      NothingFails(g.steps[d].needs, QuietPass(g, recs, d));
      assert LateNeed(g, i, d);
    }
  }

  lemma NothingFails(needs: seq<nat>, recs: seq<Record>)
    requires forall d :: d in needs ==> d < |recs|
    ensures needs == [] ==> FailedNeeds(needs, recs) == []
  {
  }

  /** A pass that starts nothing, waits for nothing and leaves work over needs a step listed before a
      need of its own that was skipped, blocked or failed unexecuted. */
  lemma StallNeedsLateNeed(g: Graph, recs: seq<Record>)
    requires WellFormed(g) && Acyclic(g) && |recs| == |g.steps| && NoneRunning(recs)
    requires Stalled(QuietPass(g, recs, |recs|))
    ensures HasLateNeed(g)
  {
    var rank: nat -> nat :| Ranks(g, rank);
    var i :| 0 <= i < |recs| && !Terminal(QuietPass(g, recs, |recs|)[i].status);
    QuietPassStatuses(g, recs, |recs|);
    FindLateNeed(g, rank, recs, i);
  }

  lemma TopologicalIsAcyclic(g: Graph)
    requires WellFormed(g) && Topological(g)
    ensures Acyclic(g) && !HasLateNeed(g)
  {
    assert Ranks(g, n => n);
  }

  function Fresh(n: nat): seq<Record> {
    seq(n, i => Record(Pending, 0, []))
  }

  /** `false` for every condition: the pass skips a step exactly when its needs were skipped before it. */
  lemma {:induction false} AllSkipped(g: Graph, k: nat)
    requires WellFormed(g) && k <= |g.steps|
    requires forall i :: 0 <= i < |g.steps| ==> g.steps[i].hasWhen
    requires forall i, v :: g.condition(i, v) == Fails
    ensures forall i :: 0 <= i < |g.steps| ==> QuietPass(g, Fresh(|g.steps|), k)[i].status in {Pending, Skipped}
    ensures forall i :: 0 <= i < |g.steps| && QuietPass(g, Fresh(|g.steps|), k)[i].status == Skipped ==>
              i < k && forall d :: d in g.steps[i].needs ==> d < i
  {
    if k > 0 {
      AllSkipped(g, k - 1);
      var before := QuietPass(g, Fresh(|g.steps|), k - 1);
      if NeedsTerminal(g, k - 1, before) {
        NoneFailed(g.steps[k - 1].needs, before);
      }
    }
  }

  lemma {:induction false} NoneFailed(needs: seq<nat>, recs: seq<Record>)
    requires forall d :: d in needs ==> d < |recs| && recs[d].status == Skipped
    ensures FailedNeeds(needs, recs) == []
  {
    if needs != [] {
      assert needs[0] in needs && forall d :: d in needs[1..] ==> d in needs;
      NoneFailed(needs[1..], recs);
    }
  }

  /** Where every step carries a condition, some choice of conditions stalls the first pass of a
      fresh run if and only if the list is not topological. */
  lemma FirstPassStallsIff(g: Graph)
    requires WellFormed(g)
    requires forall i :: 0 <= i < |g.steps| ==> g.steps[i].hasWhen
    ensures !Topological(g) <==>
            exists c: (nat, View) -> Condition ::
              Stalled(QuietPass(g.(condition := c), Fresh(|g.steps|), |g.steps|))
              && !PassErrors(g.(condition := c), Fresh(|g.steps|))
  {
    var n := |g.steps|;
    if Topological(g) {
      forall c: (nat, View) -> Condition
        ensures !Stalled(QuietPass(g.(condition := c), Fresh(n), n))
      {
        TopologicalNeverStalls(g.(condition := c), Fresh(n));
      }
    } else {
      var c: (nat, View) -> Condition := (i, v) => Fails;
      var h := g.(condition := c);
      assert WellFormed(h);
      AllSkipped(h, n);
      var i, d :| 0 <= i < n && d in g.steps[i].needs && d >= i;
      assert h.steps[i].needs == g.steps[i].needs;
      assert !Terminal(QuietPass(h, Fresh(n), n)[i].status);
      assert Stalled(QuietPass(h, Fresh(n), n)) && !PassErrors(h, Fresh(n));
    }
  }

  ghost predicate NoneRunning(recs: seq<Record>) {
    forall i :: 0 <= i < |recs| ==> recs[i].status != Running
  }

  /** On a topological list a quiet pass over records none of which is running never stalls. */
  lemma TopologicalNeverStalls(g: Graph, recs: seq<Record>)
    requires WellFormed(g) && Topological(g) && |recs| == |g.steps| && NoneRunning(recs)
    ensures !Stalled(QuietPass(g, recs, |recs|))
  {
    TopologicalIsAcyclic(g);
    if Stalled(QuietPass(g, recs, |recs|)) { StallNeedsLateNeed(g, recs); }
  }

  lemma {:induction false} QuietPassStatuses(g: Graph, recs: seq<Record>, k: nat)
    requires WellFormed(g) && |recs| == |g.steps| && k <= |recs| && NoneRunning(recs)
    ensures forall i :: 0 <= i < |recs| ==>
              QuietPass(g, recs, k)[i].status in {Pending, Ready} || Terminal(QuietPass(g, recs, k)[i].status)
  {
    if k > 0 {
      QuietPassStatuses(g, recs, k - 1);
    }
  }
}
