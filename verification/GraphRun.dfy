/** `WorkflowRunner._run_graph` as the loop it is: pass, abort check, selection,
    wait for a first completion, join the batch. */
module GraphRun {
  import opened Scheduler

  // ----- the abort flag over one batch of finished tasks -------------------------

  predicate ExecutionAborts(g: Graph, onFailure: OnFailure, i: nat)
    requires i < |g.steps|
  {
    onFailure == AbortItem || (onFailure == FailRun && g.steps[i].failsWorkflow)
  }

  /** The flag after joining the first `k` tasks of `order`: each failed task overwrites it. */
  function FatalAfter(g: Graph, onFailure: OnFailure, recs: seq<Record>, order: seq<nat>, k: nat): bool
    requires |recs| == |g.steps| && k <= |order| && forall j :: 0 <= j < |order| ==> order[j] < |recs|
  {
    if k == 0 then false
    else if recs[order[k - 1]].status == Failed then ExecutionAborts(g, onFailure, order[k - 1])
    else FatalAfter(g, onFailure, recs, order, k - 1)
  }

  ghost predicate AbortingFailure(g: Graph, onFailure: OnFailure, recs: seq<Record>, i: nat)
    requires |recs| == |g.steps| && i < |recs|
  {
    recs[i].status == Failed && ExecutionAborts(g, onFailure, i)
  }

  ghost predicate ToleratedFailure(g: Graph, onFailure: OnFailure, recs: seq<Record>, i: nat)
    requires |recs| == |g.steps| && i < |recs|
  {
    recs[i].status == Failed && !ExecutionAborts(g, onFailure, i)
  }

  /** Where the join order meets its last failed task, or -1. */
  function LastFailure(recs: seq<Record>, order: seq<nat>, n: nat): (k: int)
    requires n <= |order| && forall j :: 0 <= j < |order| ==> order[j] < |recs|
    ensures -1 <= k < n
    ensures k >= 0 ==> recs[order[k]].status == Failed
    ensures forall j :: k < j < n ==> recs[order[j]].status != Failed
  {
    if n == 0 then -1
    else if recs[order[n - 1]].status == Failed then n - 1
    else LastFailure(recs, order, n - 1)
  }

  /** Joined in this order, the batch aborts exactly when its last failure is an aborting one. */
  lemma {:induction false} FatalAfterIff(g: Graph, onFailure: OnFailure, recs: seq<Record>, order: seq<nat>, n: nat)
    requires |recs| == |g.steps| && n <= |order| && forall k :: 0 <= k < |order| ==> order[k] < |recs|
    ensures FatalAfter(g, onFailure, recs, order, n) <==>
            var k := LastFailure(recs, order, n);
            k >= 0 && ExecutionAborts(g, onFailure, order[k])
  {
    if n > 0 && recs[order[n - 1]].status != Failed {
      FatalAfterIff(g, onFailure, recs, order, n - 1);
    }
  }

  /** Every task of the batch, each once. */
  ghost predicate Enumerates(order: seq<nat>, batch: set<nat>) {
    && (forall k :: 0 <= k < |order| ==> order[k] in batch)
    && (forall i :: i in batch ==> i in order)
    && (forall j, k :: 0 <= j < k < |order| ==> order[j] != order[k])
  }

  lemma EnumeratesSnoc(order: seq<nat>, batch: set<nat>, i: nat)
    requires Enumerates(order, batch) && i !in batch
    ensures Enumerates(order + [i], batch + {i})
  {
    var longer := order + [i];
    assert longer[|order|] == i;
    forall j | j in batch ensures j in longer { assert j in order; }
  }

  lemma {:induction false} SomeOrder(batch: set<nat>) returns (order: seq<nat>)
    ensures Enumerates(order, batch)
    decreases batch
  {
    if batch == {} {
      order := [];
    } else {
      var i :| i in batch;
      var rest := SomeOrder(batch - {i});
      EnumeratesSnoc(rest, batch - {i}, i);
      order := rest + [i];
      assert batch - {i} + {i} == batch;
    }
  }

  ghost predicate SomeAborts(g: Graph, onFailure: OnFailure, recs: seq<Record>, batch: set<nat>)
    requires |recs| == |g.steps| && forall i :: i in batch ==> i < |recs|
  {
    exists i :: i in batch && AbortingFailure(g, onFailure, recs, i)
  }

  ghost predicate SomeTolerated(g: Graph, onFailure: OnFailure, recs: seq<Record>, batch: set<nat>)
    requires |recs| == |g.steps| && forall i :: i in batch ==> i < |recs|
  {
    exists i :: i in batch && ToleratedFailure(g, onFailure, recs, i)
  }

  lemma UnmixedBatchKeepsAbort(g: Graph, onFailure: OnFailure, recs: seq<Record>, batch: set<nat>, order: seq<nat>)
    requires |recs| == |g.steps| && forall i :: i in batch ==> i < |recs|
    requires Enumerates(order, batch)
    requires !SomeTolerated(g, onFailure, recs, batch)
    ensures FatalAfter(g, onFailure, recs, order, |order|) <==> SomeAborts(g, onFailure, recs, batch)
  {
    FatalAfterIff(g, onFailure, recs, order, |order|);
    if SomeAborts(g, onFailure, recs, batch) {
      var i :| i in batch && AbortingFailure(g, onFailure, recs, i);
      assert i in order;
      assert order[LastFailure(recs, order, |order|)] in batch;
    }
  }

  lemma MixedBatchCanLoseAbort(g: Graph, onFailure: OnFailure, recs: seq<Record>, batch: set<nat>) returns (order: seq<nat>)
    requires |recs| == |g.steps| && forall i :: i in batch ==> i < |recs|
    requires SomeTolerated(g, onFailure, recs, batch)
    ensures Enumerates(order, batch) && !FatalAfter(g, onFailure, recs, order, |order|)
  {
    var mild :| mild in batch && ToleratedFailure(g, onFailure, recs, mild);
    var others := SomeOrder(batch - {mild});
    EnumeratesSnoc(others, batch - {mild}, mild);
    order := others + [mild];
    assert batch - {mild} + {mild} == batch;
  }

  /** A finished batch is a set, so its join order is arbitrary. Every order aborts as it
      should exactly when the batch does not mix an aborting failure with a tolerated one. */
  lemma AbortNeverLostIff(g: Graph, onFailure: OnFailure, recs: seq<Record>, batch: set<nat>)
    requires |recs| == |g.steps| && forall i :: i in batch ==> i < |recs|
    ensures
      (forall order :: Enumerates(order, batch) ==>
         (FatalAfter(g, onFailure, recs, order, |order|) <==> SomeAborts(g, onFailure, recs, batch)))
      <==> !(SomeAborts(g, onFailure, recs, batch) && SomeTolerated(g, onFailure, recs, batch))
  {
    if SomeTolerated(g, onFailure, recs, batch) {
      var order := MixedBatchCanLoseAbort(g, onFailure, recs, batch);
      if !SomeAborts(g, onFailure, recs, batch) {
        forall order | Enumerates(order, batch) ensures !FatalAfter(g, onFailure, recs, order, |order|) {
          FatalAfterIff(g, onFailure, recs, order, |order|);
        }
      }
    } else {
      forall order | Enumerates(order, batch)
        ensures FatalAfter(g, onFailure, recs, order, |order|) <==> SomeAborts(g, onFailure, recs, batch)
      {
        UnmixedBatchKeepsAbort(g, onFailure, recs, batch, order);
      }
    }
  }

  /** The arbitrary order in which a set of finished tasks is iterated. */
  method Arrange(batch: set<nat>) returns (order: seq<nat>)
    ensures Enumerates(order, batch)
  {
    order := [];
    var rest := batch;
    while rest != {}
      invariant rest <= batch && Enumerates(order, batch - rest)
      decreases rest
    {
      var i :| i in rest;
      EnumeratesSnoc(order, batch - rest, i);
      assert batch - rest + {i} == batch - (rest - {i});
      rest, order := rest - {i}, order + [i];
    }
    assert batch - rest == batch;
  }

  // ----- what the running tasks may do to the records -----------------------------

  /** Some running steps have finished, each reading only its ancestors' records. */
  ghost predicate Progressed(g: Graph, before: seq<Record>, after: seq<Record>, running: set<nat>) {
    && |before| == |after| == |g.steps|
    && forall i :: 0 <= i < |before| ==>
         after[i] == before[i]
         || (i in running && before[i].status == Running && after[i] == Executed(g, i, before))
  }

  /** One list position has been decided by the pass. */
  ghost predicate Decided(g: Graph, before: seq<Record>, after: seq<Record>, i: nat)
    requires WellFormed(g) && |before| == |g.steps| && i < |before|
  {
    && before[i].status == Pending && NeedsTerminal(g, i, before)
    && after == before[i := Written(Judge(g, i, before), Record(Ready, 0, []))]
  }

  ghost predicate Sound(g: Graph, init: seq<Record>, recs: seq<Record>, running: set<nat>) {
    && WellFormed(g) && |init| == |g.steps| == |recs|
    && (Deterministic(g, init) ==>
          && NeedsMet(g, recs) && Faithful(g, init, recs)
          && forall i :: i in running ==> i < |recs| && Elected(g, init, i))
  }

  /** Every task has a record that left `Ready`; every running record of a settled entry has a task. */
  ghost predicate Owned(init: seq<Record>, recs: seq<Record>, running: set<nat>, opening: set<nat>) {
    && opening <= running
    && (forall i :: i in running ==> i < |recs| && (recs[i].status == Running || Terminal(recs[i].status)))
    && (forall i :: i in opening ==> recs[i].status == Running)
    && (Settled(init) ==> forall i :: 0 <= i < |recs| && recs[i].status == Running ==> i in running)
    && |init| == |recs|
    && (forall i :: 0 <= i < |init| && init[i].status == Running ==> i !in running && recs[i].status == Running)
  }

  /** The reference run contains a failure that the failure policy turns into an abort. A failed
      condition consults only the step's own policy, an execution also how failures are handled. */
  ghost predicate Aborts(g: Graph, init: seq<Record>, onFailure: OnFailure)
    requires WellFormed(g) && |init| == |g.steps|
  {
    exists i :: 0 <= i < |init| && AbortsAt(g, init, onFailure, i)
  }

  ghost predicate AbortsAt(g: Graph, init: seq<Record>, onFailure: OnFailure, i: nat)
    requires WellFormed(g) && |init| == |g.steps| && i < |init|
  {
    var fin := Final(g, init);
    fin[i].status == Failed && !Terminal(init[i].status)
    && if Judge(g, i, fin) == CannotTell then g.steps[i].failsWorkflow else ExecutionAborts(g, onFailure, i)
  }

  lemma FatalIsAbort(g: Graph, init: seq<Record>, onFailure: OnFailure, recs: seq<Record>, running: set<nat>, order: seq<nat>)
    requires Sound(g, init, recs, running) && Deterministic(g, init)
    requires forall k :: 0 <= k < |order| ==> order[k] in running && order[k] < |recs| && Terminal(recs[order[k]].status)
    requires FatalAfter(g, onFailure, recs, order, |order|)
    ensures Aborts(g, init, onFailure)
  {
    FatalAfterIff(g, onFailure, recs, order, |order|);
    var i := order[LastFailure(recs, order, |order|)];
    assert Elected(g, init, i) && recs[i] == Final(g, init)[i];
    assert AbortsAt(g, init, onFailure, i);
  }

  lemma EntrySound(g: Graph, init: seq<Record>)
    requires WellFormed(g) && |init| == |g.steps|
    ensures Sound(g, init, init, {})
  {
    if Deterministic(g, init) {
      forall i | 0 <= i < |init| && Terminal(init[i].status) ensures init[i] == Final(g, init)[i] {
        FinalAt(g, init, i);
      }
    }
  }

  /** A pending step whose condition could not be evaluated has just failed. */
  ghost predicate FailsUndecided(before: seq<Record>, after: seq<Record>, i: nat) {
    i < |before| == |after| && before[i].status == Pending && after[i].status == Failed
  }

  lemma ProgressKeepsSound(g: Graph, init: seq<Record>, before: seq<Record>, after: seq<Record>, running: set<nat>)
    requires Sound(g, init, before, running) && Progressed(g, before, after, running)
    ensures Sound(g, init, after, running)
  {
    if Deterministic(g, init) {
      forall i | 0 <= i < |after| && after[i] != before[i] ensures after[i] == Final(g, init)[i] {
        JudgedFaithfully(g, init, before, i);
        FinalAt(g, init, i);
      }
    }
  }

  lemma DecisionKeepsSound(g: Graph, init: seq<Record>, before: seq<Record>, after: seq<Record>, i: nat, running: set<nat>)
    requires Sound(g, init, before, running) && i < |before| && Decided(g, before, after, i)
    ensures Sound(g, init, after, running)
  {
    if Deterministic(g, init) {
      JudgedFaithfully(g, init, before, i);
      FinalAt(g, init, i);
    }
  }

  // ----- termination measure ---------------------------------------------------------

  function Weight(recs: seq<Record>, running: set<nat>, i: nat): nat
    requires i < |recs|
  {
    if recs[i].status == Pending then 3
    else if i in running then 1
    else if recs[i].status == Ready then 2
    else 0
  }

  function Work(recs: seq<Record>, running: set<nat>, k: nat): nat
    requires k <= |recs|
  {
    if k == 0 then 0 else Weight(recs, running, k - 1) + Work(recs, running, k - 1)
  }

  ghost predicate Lighter(r0: seq<Record>, run0: set<nat>, r1: seq<Record>, run1: set<nat>) {
    |r0| == |r1| && forall i :: 0 <= i < |r0| ==> Weight(r1, run1, i) <= Weight(r0, run0, i)
  }

  lemma {:induction false} WorkShrinks(r0: seq<Record>, run0: set<nat>, r1: seq<Record>, run1: set<nat>, k: nat)
    requires k <= |r0| && Lighter(r0, run0, r1, run1)
    ensures Work(r1, run1, k) <= Work(r0, run0, k)
    ensures (exists i :: 0 <= i < k && Weight(r1, run1, i) < Weight(r0, run0, i)) ==> Work(r1, run1, k) < Work(r0, run0, k)
  {
    if k > 0 {
      WorkShrinks(r0, run0, r1, run1, k - 1);
    }
  }

  lemma DecisionDescends(g: Graph, start: seq<Record>, before: seq<Record>, decided: seq<Record>, after: seq<Record>, k: nat, running: set<nat>)
    requires WellFormed(g) && |before| == |g.steps| && k < |before|
    requires Decided(g, before, decided, k) && Progressed(g, decided, after, running)
    requires Lighter(start, running, before, running)
    ensures Lighter(start, running, after, running)
    ensures forall i: nat :: FailsUndecided(start, before, i) ==> FailsUndecided(start, after, i)
    ensures decided[k].status == Failed ==> FailsUndecided(start, after, k)
  {
    assert Weight(before, running, k) == 3;
  }

  function Elements(s: seq<nat>): set<nat> {
    set i | i in s
  }

  lemma {:induction false} DistinctAtMost(s: seq<nat>)
    ensures |Elements(s)| <= |s|
  {
    if s != [] {
      DistinctAtMost(s[1..]);
      assert s == [s[0]] + s[1..];
      assert Elements(s) == {s[0]} + Elements(s[1..]);
    }
  }

  function MarkRunning(recs: seq<Record>, started: set<nat>): (r: seq<Record>)
    ensures |r| == |recs|
    ensures forall i :: 0 <= i < |recs| ==> r[i] == if i in started then Record(Running, 0, []) else recs[i]
  {
    seq(|recs|, i requires 0 <= i < |recs| => if i in started then Record(Running, 0, []) else recs[i])
  }

  lemma StartKeepsSound(g: Graph, init: seq<Record>, recs: seq<Record>, running: set<nat>, opening: set<nat>, started: set<nat>)
    requires Sound(g, init, recs, running) && Owned(init, recs, running, opening)
    requires forall i :: i in started ==> i < |recs| && recs[i].status == Ready
    ensures Sound(g, init, MarkRunning(recs, started), running + started)
    ensures Owned(init, MarkRunning(recs, started), running + started, opening + started)
    ensures Lighter(recs, running, MarkRunning(recs, started), running + started)
  {
  }

  lemma JoinKeepsSound(g: Graph, init: seq<Record>, recs: seq<Record>, running: set<nat>, opening: set<nat>, i: nat)
    requires Sound(g, init, recs, running) && Owned(init, recs, running, opening)
    requires i in running && Terminal(recs[i].status)
    ensures Sound(g, init, recs, running - {i}) && Owned(init, recs, running - {i}, opening)
    ensures |running - {i}| < |running|
  {
  }

  function Finish(g: Graph, recs: seq<Record>, finished: set<nat>): (r: seq<Record>)
    requires |recs| == |g.steps|
    ensures |r| == |recs|
    ensures forall i :: 0 <= i < |recs| ==>
              r[i] == if i in finished && recs[i].status == Running then Executed(g, i, recs) else recs[i]
    ensures forall i :: 0 <= i < |recs| && i in finished && recs[i].status == Running ==> Terminal(r[i].status)
  {
    seq(|recs|, i requires 0 <= i < |recs| =>
          if i in finished && recs[i].status == Running then Executed(g, i, recs) else recs[i])
  }

  lemma FinishKeepsSound(g: Graph, init: seq<Record>, recs: seq<Record>, running: set<nat>, opening: set<nat>, finished: set<nat>)
    requires Sound(g, init, recs, running) && Owned(init, recs, running, opening) && finished <= running - opening
    ensures Progressed(g, recs, Finish(g, recs, finished), running)
    ensures Sound(g, init, Finish(g, recs, finished), running)
    ensures Owned(init, Finish(g, recs, finished), running, opening)
    ensures Lighter(recs, running, Finish(g, recs, finished), running)
  {
    ProgressKeepsSound(g, init, recs, Finish(g, recs, finished), running);
  }

  lemma JoinLightens(recs: seq<Record>, running: set<nat>, done: set<nat>)
    requires done <= running && done != {}
    requires forall i :: i in done ==> i < |recs| && Terminal(recs[i].status)
    ensures Lighter(recs, running, recs, running - done)
    ensures exists i :: 0 <= i < |recs| && Weight(recs, running - done, i) < Weight(recs, running, i)
  {
    var i :| i in done;
    assert Weight(recs, running - done, i) < Weight(recs, running, i);
  }

  // ----- selection --------------------------------------------------------------------

  function ReadySteps(recs: seq<Record>, from: nat): (r: seq<nat>)
    requires from <= |recs|
    ensures forall i :: i in r <==> from <= i < |recs| && recs[i].status == Ready
    decreases |recs| - from
  {
    if from == |recs| then []
    else (if recs[from].status == Ready then [from] else []) + ReadySteps(recs, from + 1)
  }

  function FirstExclusive(g: Graph, ready: seq<nat>): (r: seq<nat>)
    requires forall i :: i in ready ==> i < |g.steps|
    ensures |r| <= 1 && (forall i :: i in r ==> i in ready && g.steps[i].exclusive)
    ensures r == [] ==> forall i :: i in ready ==> !g.steps[i].exclusive
  {
    if ready == [] then []
    else
      assert ready[0] in ready && forall i :: i in ready[1..] ==> i in ready;
      if g.steps[ready[0]].exclusive then [ready[0]] else FirstExclusive(g, ready[1..])
  }

  function Selected(g: Graph, ready: seq<nat>, maxParallel: nat, running: nat): (r: seq<nat>)
    requires forall i :: i in ready ==> i < |g.steps|
    ensures forall i :: i in r ==> i in ready
    ensures |r| + running <= maxParallel || r == []
    ensures running == 0 && maxParallel > 0 && ready != [] ==> r != []
    ensures forall i :: i in r && g.steps[i].exclusive ==> r == [i] && running == 0
  {
    if ready != [] && maxParallel > running then
      var exclusive := FirstExclusive(g, ready);
      if exclusive != [] then (if running == 0 then exclusive else [])
      else if maxParallel - running <= |ready| then ready[..maxParallel - running]
      else ready
    else []
  }

  function Chosen(g: Graph, recs: seq<Record>, maxParallel: nat, running: nat): set<nat>
    requires |recs| == |g.steps|
  {
    Elements(Selected(g, ReadySteps(recs, 0), maxParallel, running))
  }

  lemma ChosenFits(g: Graph, recs: seq<Record>, maxParallel: nat, running: set<nat>)
    requires |recs| == |g.steps| && |running| <= maxParallel && maxParallel > 0
    ensures var started := Chosen(g, recs, maxParallel, |running|);
            && |running + started| <= maxParallel
            && (forall i :: i in started ==> i < |recs| && recs[i].status == Ready)
            && (running + started == {} ==>
                  MarkRunning(recs, started) == recs && forall i :: 0 <= i < |recs| ==> recs[i].status != Ready)
  {
    var ready := ReadySteps(recs, 0);
    var selected := Selected(g, ready, maxParallel, |running|);
    var started := Chosen(g, recs, maxParallel, |running|);
    DistinctAtMost(selected);
    assert |running + started| <= |running| + |started|;
    if selected == [] {
      assert started == {} && running + started == running;
      assert MarkRunning(recs, started) == recs;
      if running == {} && ready != [] { assert false; }
      if i :| 0 <= i < |recs| && recs[i].status == Ready { assert i in ready; }
    } else {
      assert selected[0] in started;
    }
  }

  // ----- one iteration ------------------------------------------------------------------

  ghost predicate StallsAtOnce(g: Graph, recs: seq<Record>)
    requires WellFormed(g) && |recs| == |g.steps|
  {
    Stalled(QuietPass(g, recs, |recs|)) && !PassErrors(g, recs)
  }

  /** Nothing was started and nothing runs: without a late need that means everything is terminal. */
  lemma QuietEnd(g: Graph, init: seq<Record>, start: seq<Record>, recs: seq<Record>, opening: set<nat>)
    requires WellFormed(g) && |init| == |start| == |g.steps|
    requires Owned(init, start, {}, opening) && recs == QuietPass(g, start, |start|)
    requires forall i :: 0 <= i < |recs| ==> recs[i].status != Ready
    ensures Settled(init) && Acyclic(g) && !HasLateNeed(g) ==> forall i :: 0 <= i < |recs| ==> Terminal(recs[i].status)
  {
    if Settled(init) && Acyclic(g) && Stalled(recs) {
      StallNeedsLateNeed(g, start);
    }
  }

  lemma AllDone(g: Graph, init: seq<Record>, recs: seq<Record>)
    requires Sound(g, init, recs, {})
    requires forall i :: 0 <= i < |recs| ==> Terminal(recs[i].status)
    ensures Deterministic(g, init) ==> recs == Final(g, init)
  {
  }

  lemma HarvestShrinks(before: seq<Record>, running: set<nat>, after: seq<Record>, done: set<nat>)
    requires Lighter(before, running, after, running)
    requires done <= running && done != {} && forall i :: i in done ==> i < |after| && Terminal(after[i].status)
    ensures Work(after, running - done, |after|) < Work(before, running, |before|)
  {
    WorkShrinks(before, running, after, running, |before|);
    JoinLightens(after, running, done);
    WorkShrinks(after, running, after, running - done, |before|);
  }

  // ----- the abort path -----------------------------------------------------------------

  function Gathered(g: Graph, recs: seq<Record>, cancellable: set<nat>, raced: set<nat>): (r: seq<Record>)
    requires |recs| == |g.steps|
    ensures |r| == |recs|
    ensures forall i :: 0 <= i < |recs| ==>
              r[i] == if i !in cancellable || recs[i].status != Running then recs[i]
                      else if i in raced then Executed(g, i, recs) else Record(Interrupted, 0, [])
  {
    seq(|recs|, i requires 0 <= i < |recs| =>
          if i !in cancellable || recs[i].status != Running then recs[i]
          else if i in raced then Executed(g, i, recs) else Record(Interrupted, 0, []))
  }

  /** What the abort path leaves in record `i`. */
  ghost predicate StoppedAs(g: Graph, before: seq<Record>, running: set<nat>, opening: set<nat>, after: seq<Record>, i: nat)
    requires |before| == |g.steps| == |after| && i < |before|
  {
    match before[i].status
    case Pending | Ready => after[i] == Record(Blocked, 0, [])
    case Running =>
      if i in running && i !in opening
      then after[i] == Record(Interrupted, 0, []) || after[i] == Executed(g, i, before)
      else after[i] == before[i]
    case _ => after[i] == before[i]
  }

  /** What cancelling and gathering the tasks leaves in record `i`. */
  ghost predicate GatheredAs(g: Graph, before: seq<Record>, running: set<nat>, opening: set<nat>, after: seq<Record>, i: nat)
    requires |before| == |g.steps| == |after| && i < |before|
  {
    if before[i].status == Running && i in running && i !in opening
    then after[i] == Record(Interrupted, 0, []) || after[i] == Executed(g, i, before)
    else after[i] == before[i]
  }

  /** The records of a run cancelled with no task left: a running one was in its opening checkpoint,
      and whatever is decided is the reference's or cut short. */
  ghost predicate LeftBy(g: Graph, init: seq<Record>, recs: seq<Record>, opening: set<nat>) {
    && |recs| == |init| == |g.steps|
    && (Settled(init) ==> forall i :: 0 <= i < |recs| && recs[i].status == Running ==> i in opening)
    && (Deterministic(g, init) ==> forall i :: 0 <= i < |recs| ==>
          recs[i].status in {Pending, Ready} || CutShort(recs[i], Final(g, init)[i]))
  }

  /** Some unstarted records of a gathered run are blocked already, the others still as they were. */
  lemma PartlyStopped(g: Graph, before: seq<Record>, running: set<nat>, opening: set<nat>, gathered: seq<Record>, after: seq<Record>, i: nat)
    requires |before| == |g.steps| == |gathered| == |after| && i < |after| && GatheredAs(g, before, running, opening, gathered, i)
    ensures gathered[i].status in {Pending, Ready} && after[i] == Record(Blocked, 0, []) ==>
              StoppedAs(g, before, running, opening, after, i)
    ensures after[i] == gathered[i] ==> GatheredAs(g, before, running, opening, after, i)
    ensures after[i] == gathered[i] && gathered[i].status !in {Pending, Ready} ==>
              StoppedAs(g, before, running, opening, after, i)
  {
    if before[i].status == Running && i in running && i !in opening {
      assert Executed(g, i, before).status in {Completed, Failed, InDoubt};
    }
  }

  lemma CancelledRun(g: Graph, init: seq<Record>, before: seq<Record>, running: set<nat>, opening: set<nat>, after: seq<Record>)
    requires Sound(g, init, before, running) && Owned(init, before, running, opening) && |after| == |before|
    requires forall i :: 0 <= i < |before| ==>
               StoppedAs(g, before, running, opening, after, i) || GatheredAs(g, before, running, opening, after, i)
    ensures LeftBy(g, init, after, opening)
  {
    forall i | 0 <= i < |after| && Settled(init) && after[i].status == Running ensures i in opening {
      assert StoppedAs(g, before, running, opening, after, i) || GatheredAs(g, before, running, opening, after, i);
    }
    if Deterministic(g, init) {
      forall i | 0 <= i < |after| ensures after[i].status in {Pending, Ready} || CutShort(after[i], Final(g, init)[i]) {
        assert StoppedAs(g, before, running, opening, after, i) || GatheredAs(g, before, running, opening, after, i);
        if before[i].status == Running {
          JudgedFaithfully(g, init, before, i);
          FinalAt(g, init, i);
        }
      }
    }
  }

  /** A record of a stopped run: the reference record, or a mark that the step was cut short. */
  ghost predicate CutShort(r: Record, reference: Record) {
    r == reference || r.status in {Running, Interrupted} || r == Record(Blocked, 0, [])
  }

  lemma StoppedRun(g: Graph, init: seq<Record>, before: seq<Record>, running: set<nat>, opening: set<nat>, after: seq<Record>)
    requires Sound(g, init, before, running) && Owned(init, before, running, opening) && |after| == |before|
    requires forall i :: 0 <= i < |before| ==> StoppedAs(g, before, running, opening, after, i)
    ensures Settled(init) ==> forall i :: 0 <= i < |after| ==> (!Terminal(after[i].status) <==> i in opening)
    ensures Deterministic(g, init) ==> forall i :: 0 <= i < |after| ==> CutShort(after[i], Final(g, init)[i])
  {
    forall i | 0 <= i < |after| && Settled(init) ensures !Terminal(after[i].status) <==> i in opening {
      assert StoppedAs(g, before, running, opening, after, i);
    }
    if Deterministic(g, init) {
      forall i | 0 <= i < |after| ensures CutShort(after[i], Final(g, init)[i]) {
        assert StoppedAs(g, before, running, opening, after, i);
        if before[i].status == Running {
          JudgedFaithfully(g, init, before, i);
          FinalAt(g, init, i);
        }
      }
    }
  }

  function FailUnfinished(recs: seq<Record>): (r: seq<Record>)
    ensures |r| == |recs|
  {
    seq(|recs|, i requires 0 <= i < |recs| =>
          if Terminal(recs[i].status) then recs[i] else Record(Failed, 0, []))
  }

  // ----- the loop -----------------------------------------------------------------------

  /** The await of the scheduler at which it is cancelled. */
  datatype Where = InPass | InWait | InAbort

  datatype Outcome = Finished | Stopped | Impossible | Cancelled(at: Where)

  /** What an outcome says of the records and the tasks left. */
  ghost predicate Explains(g: Graph, init: seq<Record>, onFailure: OnFailure, outcome: Outcome, recs: seq<Record>, running: set<nat>, opening: set<nat>)
    requires WellFormed(g) && |init| == |g.steps|
  {
    && |recs| == |init|
    && match outcome
       case Finished =>
         && NoneRunning(init) && (forall i :: 0 <= i < |recs| ==> Terminal(recs[i].status))
         && (Deterministic(g, init) ==> recs == Final(g, init))
       case Impossible => !Settled(init) || !Acyclic(g) || HasLateNeed(g)
       case Stopped =>
         && running == {}
         && (Settled(init) ==> forall i :: 0 <= i < |recs| ==> (!Terminal(recs[i].status) <==> i in opening))
         && (Deterministic(g, init) ==>
               Aborts(g, init, onFailure) && forall i :: 0 <= i < |recs| ==> CutShort(recs[i], Final(g, init)[i]))
       case Cancelled(InPass) => Sound(g, init, recs, running) && Owned(init, recs, running, opening)
       case Cancelled(_) => running == {} && LeftBy(g, init, recs, opening)
  }

  /** After any cancellation every record is not decided yet, the reference's, or cut short. Tasks left
      behind can only turn running records into the reference's. */
  lemma CancelledRecords(g: Graph, init: seq<Record>, onFailure: OnFailure, at: Where, recs: seq<Record>, running: set<nat>, opening: set<nat>)
    requires |init| == |g.steps| && Deterministic(g, init)
    requires Explains(g, init, onFailure, Cancelled(at), recs, running, opening)
    ensures forall i :: 0 <= i < |recs| ==> recs[i].status in {Pending, Ready} || CutShort(recs[i], Final(g, init)[i])
  {
  }

  // ----- a task left behind, concretely -----------------------------------------------------

  /** Two independent unconditional steps. */
  function TwoSteps(): Graph {
    var step := Step([], true, false, true, false);
    Graph([step, step], (i, view) => Holds, (i, view) => Output(i))
  }

  /** What one fresh run of `TwoSteps` comes to: its first pass readies both steps, both are started, and
      the second is joined. Cancelled in the event of the next pass, it leaves the first one's task, with
      its record still running; and that task goes on to complete the step. */
  lemma TaskLeft()
    ensures var g, init := TwoSteps(), Fresh(2);
            var ready := QuietPass(g, init, 2);
            var joined := Finish(g, MarkRunning(ready, Chosen(g, ready, 2, 0)), {1});
            && Deterministic(g, init) && Chosen(g, ready, 2, 0) - {1} == {0} && joined[0].status == Running
            && Explains(g, init, FailRun, Cancelled(InPass), joined, {0}, {})
            && Finish(g, joined, {0}) == Final(g, init)
  {
    TwoStepsPass();
    TwoStepsJoined();
    TwoStepsFinal();
    TwoStepsSound();
  }

  lemma TwoStepsJoined()
    ensures var ready := [Record(Ready, 0, []), Record(Ready, 0, [])];
            && Finish(TwoSteps(), MarkRunning(ready, {0, 1}), {1}) == [Record(Running, 0, []), Record(Completed, 1, [])]
            && Finish(TwoSteps(), [Record(Running, 0, []), Record(Completed, 1, [])], {0}) == [Record(Completed, 0, []), Record(Completed, 1, [])]
  {
  }

  lemma TwoStepsFinal()
    ensures var g, init := TwoSteps(), Fresh(2);
            && Deterministic(g, init) && Final(g, init) == [Record(Completed, 0, []), Record(Completed, 1, [])]
            && Elected(g, init, 0) && Elected(g, init, 1)
  {
    var g, init := TwoSteps(), Fresh(2);
    assert Settled(init) && Topological(g);
    FinalAt(g, init, 0);
    FinalAt(g, init, 1);
    assert FailedNeeds([], Final(g, init)) == [];
  }

  /** Where no step needs another, any mixture of reference records and elected tasks is sound. */
  lemma UnneedingSound(g: Graph, init: seq<Record>, recs: seq<Record>, running: set<nat>)
    requires |init| == |g.steps| == |recs| && Deterministic(g, init)
    requires forall i :: 0 <= i < |g.steps| ==> g.steps[i].needs == [] && !Terminal(init[i].status)
    requires forall i :: 0 <= i < |recs| && Terminal(recs[i].status) ==> recs[i] == Final(g, init)[i]
    requires forall i :: 0 <= i < |recs| && recs[i].status in {Ready, Running} ==> Elected(g, init, i)
    requires forall i :: i in running ==> i < |recs| && Elected(g, init, i)
    ensures Sound(g, init, recs, running)
  {
  }

  lemma TwoStepsSound()
    ensures Deterministic(TwoSteps(), Fresh(2))
    ensures Explains(TwoSteps(), Fresh(2), FailRun, Cancelled(InPass), [Record(Running, 0, []), Record(Completed, 1, [])], {0}, {})
  {
    TwoStepsFinal();
    UnneedingSound(TwoSteps(), Fresh(2), [Record(Running, 0, []), Record(Completed, 1, [])], {0});
  }

  lemma TwoStepsPass()
    ensures var g, init := TwoSteps(), Fresh(2);
            && QuietPass(g, init, 2) == [Record(Ready, 0, []), Record(Ready, 0, [])]
            && Chosen(g, QuietPass(g, init, 2), 2, 0) == {0, 1}
  {
    var g, ready := TwoSteps(), [Record(Ready, 0, []), Record(Ready, 0, [])];
    TwoStepsReady();
    assert ReadySteps(ready, 2) == [] && ReadySteps(ready, 1) == [1] && ReadySteps(ready, 0) == [0, 1];
    assert [0, 1][1..] == [1] && [1][1..] == [];
    assert FirstExclusive(g, []) == [] && FirstExclusive(g, [1]) == [] && FirstExclusive(g, [0, 1]) == [];
    assert Selected(g, [0, 1], 2, 0) == [0, 1];
  }

  lemma TwoStepsReady()
    ensures QuietPass(TwoSteps(), Fresh(2), 2) == [Record(Ready, 0, []), Record(Ready, 0, [])]
  {
    var g, init := TwoSteps(), Fresh(2);
    assert Judge(g, 0, init) == Execute;
    assert QuietPass(g, init, 1) == [Record(Ready, 0, []), Record(Pending, 0, [])];
  }

  class GraphRun {
    const graph: Graph
    const maxParallel: nat
    const onFailure: OnFailure
    ghost const init: seq<Record>
    var records: seq<Record>
    /** Tasks not yet joined; a task may still be here after its record is terminal. */
    var running: set<nat>
    /** Tasks still inside the checkpoint that opens an execution. */
    var opening: set<nat>
    var fatal: bool

    ghost predicate Valid()
      reads `records, `running, `opening
    {
      && maxParallel > 0 && |running| <= maxParallel && WellFormed(graph) && |records| == |graph.steps| == |init|
      && Sound(graph, init, records, running)
      && Owned(init, records, running, opening)
    }

    constructor (graph: Graph, records: seq<Record>, maxParallel: nat, onFailure: OnFailure)
      requires WellFormed(graph) && |records| == |graph.steps| && maxParallel > 0
      ensures Valid() && running == {} && !fatal
      ensures this.graph == graph && this.records == records == init && this.onFailure == onFailure
    {
      this.graph, this.maxParallel, this.onFailure := graph, maxParallel, onFailure;
      this.records, this.init := records, records;
      running, opening, fatal := {}, {}, false;
      new;
      EntrySound(graph, records);
    }

    /** One await of the scheduler: opening checkpoints settle and running steps finish, in any number. */
    method Await()
      requires Valid()
      modifies this`records, this`opening
      ensures Valid() && opening <= old(opening)
      ensures Progressed(graph, old(records), records, running) && Lighter(old(records), running, records, running)
      ensures running == {} ==> records == old(records)
    {
      var settled: set<nat> :| settled <= opening;
      opening := opening - settled;
      var finished: set<nat> :| finished <= running - opening;
      FinishKeepsSound(graph, init, records, running, opening, finished);
      records := Finish(graph, records, finished);
    }

    /** Decide one pending step whose needs are terminal, then await the event and the checkpoint. */
    method DecideStep(k: nat) returns (ghost decided: seq<Record>)
      requires Valid() && k < |records| && records[k].status == Pending && NeedsTerminal(graph, k, records)
      modifies this`records, this`opening, this`fatal
      ensures Valid() && opening <= old(opening)
      ensures Decided(graph, old(records), decided, k) && Progressed(graph, decided, records, running)
      ensures running == {} ==> records == decided
      ensures fatal == (old(fatal) || (decided[k].status == Failed && graph.steps[k].failsWorkflow))
      ensures fatal && !old(fatal) && Deterministic(graph, init) ==> Aborts(graph, init, onFailure)
    {
      ghost var before := records;
      var verdict := Judge(graph, k, records);
      records := records[k := Written(verdict, Record(Ready, 0, []))];
      decided := records;
      DecisionKeepsSound(graph, init, before, records, k, running);
      Await();
      fatal := fatal || (verdict == CannotTell && graph.steps[k].failsWorkflow);
      if Deterministic(graph, init) {
        JudgedFaithfully(graph, init, before, k);
        FinalAt(graph, init, k);
        assert fatal && !old(fatal) ==> AbortsAt(graph, init, onFailure, k);
      }
    }

    /** The event that opens a pass. */
    method Announce(cancellable: bool) returns (cut: bool)
      requires Valid()
      modifies this`records, this`opening
      ensures Valid() && opening <= old(opening) && (cut ==> cancellable)
      ensures Progressed(graph, old(records), records, running) && Lighter(old(records), running, records, running)
      ensures running == {} ==> records == old(records)
    {
      Await();
      var cancelled: bool := *;
      return cancellable && cancelled;
    }

    /** A pass that began with `start`, and with the abort flag as `was`, has come to list position `k`. */
    ghost predicate Passing(start: seq<Record>, was: bool, k: nat)
      reads `records, `running, `fatal
    {
      && WellFormed(graph) && |records| == |start| == |graph.steps| == |init| && k <= |start|
      && (running == {} ==> records == QuietPass(graph, start, k))
      && Lighter(start, running, records, running) && (was ==> fatal)
      && (fatal && !was ==> exists i: nat :: FailsUndecided(start, records, i))
      && (fatal && !was && Deterministic(graph, init) ==> Aborts(graph, init, onFailure))
    }

    /** The pass looks at list position `k`. */
    method Visit(k: nat, cancellable: bool, ghost start: seq<Record>, ghost was: bool) returns (cut: bool)
      requires Valid() && Passing(start, was, k) && k < |records|
      modifies this`records, this`opening, this`fatal
      ensures Valid() && opening <= old(opening) && Passing(start, was, k + 1) && (cut ==> cancellable)
    {
      if records[k].status == Pending && NeedsTerminal(graph, k, records) {
        ghost var before := records;
        ghost var decided := DecideStep(k);
        DecisionDescends(graph, start, before, decided, records, k, running);
        var cancelled: bool := *;
        return cancellable && cancelled;
      }
      return false;
    }

    /** One pass. A cancellation while an event or a checkpoint is awaited leaves it there, and leaves
        every task to itself. */
    method Pass(cancellable: bool) returns (cut: bool)
      requires Valid()
      modifies this`records, this`opening, this`fatal
      ensures Valid() && opening <= old(opening) && (cut ==> cancellable)
      ensures running == {} && !cut ==> records == QuietPass(graph, old(records), |old(records)|)
      ensures Lighter(old(records), running, records, running)
      ensures fatal && !old(fatal) && Deterministic(graph, init) ==> Aborts(graph, init, onFailure)
      ensures fatal && !old(fatal) ==> exists i: nat :: FailsUndecided(old(records), records, i)
      ensures old(fatal) ==> fatal
    {
      ghost var start, was := records, fatal;
      cut := Announce(cancellable);
      if cut { return; }
      for k := 0 to |records|
        invariant Valid() && opening <= old(opening) && Passing(start, was, k)
      {
        cut := Visit(k, cancellable, start, was);
        if cut { return; }
      }
      return false;
    }

    /** Create tasks for the selection. Each new task marks its record running before any completion can be seen. */
    method StartSelected()
      requires Valid()
      modifies this`records, this`running, this`opening
      ensures Valid()
      ensures old(running) <= running && Lighter(old(records), old(running), records, running)
      ensures running == {} ==> records == old(records) && forall i :: 0 <= i < |records| ==> records[i].status != Ready
      ensures running == old(running) + Chosen(graph, old(records), maxParallel, |old(running)|)
      ensures (forall i :: 0 <= i < |records| ==> old(records)[i].status != Ready) ==> running == old(running)
    {
      var started := Chosen(graph, records, maxParallel, |running|);
      ChosenFits(graph, records, maxParallel, running);
      StartKeepsSound(graph, init, records, running, opening, started);
      records := MarkRunning(records, started);
      running, opening := running + started, opening + started;
    }

    /** Wait until a nonempty batch of tasks is done. */
    method WaitFirst() returns (done: set<nat>)
      requires Valid() && running != {}
      modifies this`records, this`opening
      ensures Valid() && done != {} && done <= running
      ensures forall i :: i in done ==> Terminal(records[i].status)
      ensures Lighter(old(records), running, records, running)
    {
      assert running <= running;
      done :| done <= running && done != {};
      opening := opening - done;
      FinishKeepsSound(graph, init, records, running, opening, done);
      records := Finish(graph, records, done);
    }

    method JoinOne(i: nat)
      requires Valid() && i in running && Terminal(records[i].status)
      modifies this`running, this`fatal
      ensures Valid() && running == old(running) - {i}
      ensures fatal == if records[i].status == Failed then ExecutionAborts(graph, onFailure, i) else old(fatal)
    {
      JoinKeepsSound(graph, init, records, running, opening, i);
      running := running - {i};
      if records[i].status == Failed {
        fatal := ExecutionAborts(graph, onFailure, i);
      }
    }

    /** Join the finished batch in whatever order its set yields. */
    method Join(done: set<nat>) returns (order: seq<nat>)
      requires Valid() && !fatal && done <= running
      requires forall i :: i in done ==> Terminal(records[i].status)
      modifies this`running, this`fatal
      ensures Valid() && running == old(running) - done
      ensures Enumerates(order, done) && fatal == FatalAfter(graph, onFailure, records, order, |order|)
    {
      order := Arrange(done);
      for k := 0 to |order|
        invariant Valid() && running <= old(running)
        invariant forall j :: k <= j < |order| ==> order[j] in running
        invariant forall j :: 0 <= j < k ==> order[j] !in running
        invariant forall i :: i in old(running) && i !in done ==> i in running
        invariant fatal == FatalAfter(graph, onFailure, records, order, k)
      {
        JoinOne(order[k]);
      }
    }

    /** Wait for a batch and join it. */
    method Harvest()
      requires Valid() && !fatal && running != {}
      modifies this`records, this`running, this`opening, this`fatal
      ensures Valid() && running < old(running)
      ensures Work(records, running, |records|) < Work(old(records), old(running), |old(records)|)
      ensures fatal && Deterministic(graph, init) ==> Aborts(graph, init, onFailure)
    {
      ghost var start, tasks := records, running;
      Await();
      WorkShrinks(start, tasks, records, tasks, |start|);
      ghost var before := records;
      var done := WaitFirst();
      ghost var after := records;
      var order := Join(done);
      if fatal && Deterministic(graph, init) {
        FatalIsAbort(graph, init, onFailure, records, tasks, order);
      }
      HarvestShrinks(before, tasks, after, done);
    }

    /** Cancel every task and wait for all of them. A task cancelled inside its opening checkpoint
        never reaches the code that marks it interrupted. */
    method CancelTasks()
      requires Valid()
      modifies this`records, this`running
      ensures |records| == |old(records)| && running == {}
      ensures forall i :: 0 <= i < |records| ==> GatheredAs(graph, old(records), old(running), opening, records, i)
    {
      var raced: set<nat> :| raced <= running - opening;
      records := Gathered(graph, records, running - opening, raced);
      running := {};
    }

    /** The abort path: cancel and gather the tasks, then block whatever has not started, one awaited
        event at a time. */
    method Stop(cancellable: bool) returns (cut: bool)
      requires Valid()
      modifies this`records, this`running
      ensures |records| == |old(records)| && running == {} && (cut ==> cancellable)
      ensures forall i :: 0 <= i < |records| ==>
                StoppedAs(graph, old(records), old(running), opening, records, i)
                || (cut && GatheredAs(graph, old(records), old(running), opening, records, i))
    {
      ghost var before, tasks := records, running;
      CancelTasks();
      ghost var gathered := records;
      for k := 0 to |records|
        invariant |records| == |gathered| && running == {}
        invariant forall i :: 0 <= i < |gathered| ==>
                    records[i] == if i < k && gathered[i].status in {Pending, Ready} then Record(Blocked, 0, []) else gathered[i]
      {
        var cancelled: bool := *;
        if cancellable && cancelled {
          forall i | 0 <= i < |records|
            ensures StoppedAs(graph, before, tasks, opening, records, i) || GatheredAs(graph, before, tasks, opening, records, i)
          {
            PartlyStopped(graph, before, tasks, opening, gathered, records, i);
          }
          return true;
        }
        if records[k].status in {Pending, Ready} {
          records := records[k := Record(Blocked, 0, [])];
        }
      }
      forall i | 0 <= i < |records| ensures StoppedAs(graph, before, tasks, opening, records, i) {
        PartlyStopped(graph, before, tasks, opening, gathered, records, i);
      }
      return false;
    }

    method Abort(cancellable: bool) returns (outcome: Outcome)
      requires Valid() && (Deterministic(graph, init) ==> Aborts(graph, init, onFailure))
      modifies this`records, this`running
      ensures outcome in {Stopped, Cancelled(InAbort)} && (outcome.Cancelled? ==> cancellable)
      ensures Explains(graph, init, onFailure, outcome, records, running, opening)
    {
      ghost var before, tasks := records, running;
      var cut := Stop(cancellable);
      if cut {
        CancelledRun(graph, init, before, tasks, opening, records);
        return Cancelled(InAbort);
      }
      StoppedRun(graph, init, before, tasks, opening, records);
      return Stopped;
    }

    /** Cancelled while waiting, after any progress of the tasks. */
    method CancelWait()
      requires Valid()
      modifies this`records, this`running, this`opening
      ensures Explains(graph, init, onFailure, Cancelled(InWait), records, running, opening)
    {
      Await();
      ghost var before, tasks := records, running;
      CancelTasks();
      CancelledRun(graph, init, before, tasks, opening, records);
    }

    /** Nothing runs and nothing can start. */
    method Conclude(ghost start: seq<Record>) returns (outcome: Outcome)
      requires Valid() && running == {} && |start| == |records|
      requires Owned(init, start, {}, opening) && records == QuietPass(graph, start, |start|)
      requires forall i :: 0 <= i < |records| ==> records[i].status != Ready
      modifies this`records
      ensures outcome in {Finished, Impossible} && Explains(graph, init, onFailure, outcome, records, running, opening)
      ensures outcome == (if exists i :: 0 <= i < |records| && !Terminal(old(records)[i].status) then Impossible else Finished)
      ensures records == if outcome == Impossible then FailUnfinished(old(records)) else old(records)
    {
      QuietEnd(graph, init, start, records, opening);
      if exists i :: 0 <= i < |records| && !Terminal(records[i].status) {
        records := FailUnfinished(records);
        return Impossible;
      }
      AllDone(graph, init, records);
      return Finished;
    }

    /** A pass, and what it calls for: nothing yet, or an end. */
    method Iterate(cancellable: bool) returns (ended: bool, outcome: Outcome)
      requires Valid() && (fatal && Deterministic(graph, init) ==> Aborts(graph, init, onFailure))
      modifies this`records, this`running, this`opening, this`fatal
      ensures fatal && Deterministic(graph, init) ==> Aborts(graph, init, onFailure)
      ensures ended ==> Explains(graph, init, onFailure, outcome, records, running, opening) && (outcome.Cancelled? ==> cancellable)
      ensures ended && outcome == Cancelled(InPass) ==> running == old(running)
      ensures !ended ==> Valid() && Work(records, running, |records|) < Work(old(records), old(running), |old(records)|)
      ensures old(AtEntry()) && StallsAtOnce(graph, init) ==>
                ended && (outcome == Impossible || outcome.Cancelled?)
    {
      ghost var recs0, run0 := records, running;
      var cut := Pass(cancellable);
      if cut { return true, Cancelled(InPass); }
      ghost var recs1 := records;
      if fatal {
        outcome := Abort(cancellable);
        return true, outcome;
      }
      ended, outcome := Proceed(recs0, recs1, cancellable);
      if !ended { WorkShrinks(recs0, run0, recs1, run0, |recs0|); }
    }

    /** After a pass without an abort: start what may start, then end, be cancelled, or wait. */
    method Proceed(ghost start: seq<Record>, ghost passed: seq<Record>, cancellable: bool) returns (ended: bool, outcome: Outcome)
      requires Valid() && !fatal && passed == records && |start| == |records|
      requires running == {} ==> Owned(init, start, {}, opening) && records == QuietPass(graph, start, |start|)
      modifies this`records, this`running, this`opening, this`fatal
      ensures fatal && Deterministic(graph, init) ==> Aborts(graph, init, onFailure)
      ensures ended ==> Explains(graph, init, onFailure, outcome, records, running, opening) && (outcome.Cancelled? ==> cancellable)
      ensures ended ==> !outcome.Stopped? && outcome != Cancelled(InPass)
      ensures !ended ==> Valid() && Work(records, running, |records|) < Work(passed, old(running), |passed|)
      ensures old(running) == {} && Stalled(passed) ==> ended && outcome == Impossible
    {
      ghost var tasks := running;
      StartSelected();
      WorkShrinks(passed, tasks, records, running, |passed|);
      if running == {} {
        outcome := Conclude(start);
        return true, outcome;
      }
      ended := Wait(cancellable);
      outcome := Cancelled(InWait);
    }

    /** Something runs: its first batch is joined, or the wait is cancelled. */
    method Wait(cancellable: bool) returns (cut: bool)
      requires Valid() && !fatal && running != {}
      modifies this`records, this`running, this`opening, this`fatal
      ensures fatal && Deterministic(graph, init) ==> Aborts(graph, init, onFailure)
      ensures cut ==> cancellable && Explains(graph, init, onFailure, Cancelled(InWait), records, running, opening)
      ensures !cut ==> Valid() && Work(records, running, |records|) < Work(old(records), old(running), |old(records)|)
    {
      var cancelled: bool := *;
      if cancellable && cancelled {
        CancelWait();
        return true;
      }
      Harvest();
      return false;
    }

    /** Every interleaving, every parallel limit: the run ends. Entered with pending-or-terminal
        records, it reports an impossible state only if some step is listed before a need of its own
        that can be decided unexecuted. Unless the failure policy stops it or somebody cancels it, it
        ends with the records of the one-step-at-a-time run. A cancellation while tasks are awaited
        waits for all of them; a cancelled run leaves a task, unawaited, exactly when it was cancelled in a
        pass while tasks were running, and then it leaves the tasks that were running, `atPass`, all of them. */
    method Run(cancellable: bool) returns (outcome: Outcome, ghost atPass: set<nat>)
      requires Valid() && AtEntry()
      modifies this
      ensures Explains(graph, init, onFailure, outcome, records, running, opening) && (outcome.Cancelled? ==> cancellable)
      ensures Deterministic(graph, init) && !Aborts(graph, init, onFailure) ==> outcome == Finished || outcome.Cancelled?
      ensures StallsAtOnce(graph, init) ==> outcome == Impossible || outcome.Cancelled?
      ensures outcome == Cancelled(InPass) ==> running == atPass
      ensures outcome.Cancelled? ==> (running != {} <==> outcome == Cancelled(InPass) && atPass != {})
    {
      var ended := false;
      outcome, atPass := Finished, {};
      while !ended
        invariant fatal && Deterministic(graph, init) ==> Aborts(graph, init, onFailure)
        invariant !ended ==> Valid() && (AtEntry() || !StallsAtOnce(graph, init))
        invariant ended ==> Explains(graph, init, onFailure, outcome, records, running, opening)
        invariant ended ==> (outcome.Cancelled? ==> cancellable) && (StallsAtOnce(graph, init) ==> outcome == Impossible || outcome.Cancelled?)
        invariant ended && outcome == Cancelled(InPass) ==> running == atPass
        decreases !ended, Work(records, running, |records|)
      {
        atPass := running;
        ended, outcome := Iterate(cancellable);
      }
      if Deterministic(graph, init) { TopologicalIsAcyclic(graph); }
    }

    ghost predicate AtEntry()
      reads `records, `running, `fatal
    {
      records == init && running == {} && !fatal
    }
  }
}
