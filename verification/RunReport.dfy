/** A whole workflow run: the top-level graph, the items its foreach steps leave, the status it reports,
    and what the next start makes of a doubtful effect. */
module RunReport {
  import opened Options
  import opened Scheduler
  import opened Foreach
  import G = GraphRun

  datatype RunStatus = RunInDoubt | RunFailed | RunInterrupted | RunCompletedWithErrors | RunCompleted

  /** A foreach step: its collection as a function of the records it may read, its limits, its body,
      and what stands for its output. */
  datatype Nest = Nest(elements: View -> seq<Element>, maximum: nat, limit: nat, body: Body, steps: nat, collect: bool, output: View -> int)

  /** The top-level graph; the steps in `nests` are foreach steps, the others tools, models and agents,
      executed as `tools` says. */
  datatype Workflow = Workflow(tools: Graph, nests: map<nat, Nest>, maxParallel: nat)

  // ----- what a foreach step amounts to ------------------------------------------------------

  /** The reference run of the body for element `k`. */
  function Reference(n: Nest, elements: seq<Element>, k: nat): seq<Record>
    requires k < |elements| && elements[k].key.Some?
  {
    var g := n.body(elements[k].key.value, elements[k].source);
    if WellFormed(g) && |g.steps| == n.steps then Final(g, Blank(n.steps)) else []
  }

  /** The collection is acceptable and, where failures are not collected, no item fails. */
  predicate Succeeds(n: Nest, elements: seq<Element>) {
    && !Refused(elements, n.maximum)
    && (n.collect || forall k: nat :: k < |elements| && elements[k].key.Some? ==> !AnyFailed(Reference(n, elements, k)))
  }

  /** The graph the scheduler runs: a foreach step completes or fails, and is never itself in doubt. */
  function Top(w: Workflow): Graph {
    w.tools.(execute := (i, view) => if i in w.nests then NestResult(w.nests[i], view) else w.tools.execute(i, view))
  }

  lemma TopExecutes(w: Workflow, i: nat, recs: seq<Record>)
    requires i < |w.tools.steps|
    ensures var view := ViewOf(Top(w), i, recs);
            Executed(Top(w), i, recs) == Recorded(if i in w.nests then NestResult(w.nests[i], view) else w.tools.execute(i, view))
  {
  }

  function NestResult(n: Nest, view: View): Result {
    if Succeeds(n, n.elements(view)) then Output(n.output(view)) else Error
  }

  ghost predicate BodyOk(n: Nest) {
    n.limit > 0 && forall key, source :: IsBody(n, n.body(key, source))
  }

  ghost predicate IsBody(n: Nest, g: Graph) {
    WellFormed(g) && |g.steps| == n.steps && Predictable(g, n.collect, Blank(n.steps))
  }

  ghost predicate Modelled(w: Workflow) {
    w.maxParallel > 0 && forall f :: f in w.nests ==> f < |w.tools.steps| && BodyOk(w.nests[f])
  }

  // ----- doubt ------------------------------------------------------------------------------------

  ghost predicate Holding(records: seq<Record>, statuses: set<Status>) {
    exists k :: 0 <= k < |records| && records[k].status in statuses
  }

  ghost predicate DoubtIn(items: seq<Item>) {
    exists p :: 0 <= p < |items| && Holding(items[p].children, {InDoubt})
  }

  /** What the start of a run looks at: every record, nested ones too. */
  ghost predicate AnyDoubt(top: seq<Record>, items: seq<seq<Item>>) {
    Holding(top, {InDoubt}) || exists f :: 0 <= f < |items| && DoubtIn(items[f])
  }

  /** The run executes step `i`, which is no foreach step, and its effect ends in doubt. */
  ghost predicate ToolDoubts(w: Workflow, init: seq<Record>, i: nat)
    requires |init| == |w.tools.steps| && WellFormed(Top(w))
  {
    && i < |init| && i !in w.nests && Elected(Top(w), init, i)
    && w.tools.execute(i, ViewOf(Top(w), i, Final(Top(w), init))) == Doubtful
  }

  ghost function ElementsOf(w: Workflow, init: seq<Record>, f: nat): seq<Element>
    requires |init| == |w.tools.steps| && WellFormed(Top(w)) && f in w.nests && f < |init|
  {
    w.nests[f].elements(ViewOf(Top(w), f, Final(Top(w), init)))
  }

  ghost predicate SomeToolDoubts(w: Workflow, init: seq<Record>)
    requires |init| == |w.tools.steps| && WellFormed(Top(w))
  {
    exists i: nat :: ToolDoubts(w, init, i)
  }

  ghost predicate FreshStart(w: Workflow, init: seq<Record>) {
    && |init| == |Top(w).steps| && Deterministic(Top(w), init) && !G.Aborts(Top(w), init, FailRun)
    && Modelled(w) && !Holding(init, {InDoubt})
  }

  /** A top-level record ends in doubt exactly when a tool's execution does. */
  lemma TopDoubtIff(w: Workflow, init: seq<Record>)
    requires FreshStart(w, init)
    ensures Holding(Final(Top(w), init), {InDoubt}) <==> SomeToolDoubts(w, init)
  {
    var fin := Final(Top(w), init);
    if Holding(fin, {InDoubt}) {
      var i :| 0 <= i < |fin| && fin[i].status == InDoubt;
      FinalAt(Top(w), init, i);
      TopExecutes(w, i, fin);
      assert ToolDoubts(w, init, i);
    }
    if SomeToolDoubts(w, init) {
      var i: nat :| ToolDoubts(w, init, i);
      FinalAt(Top(w), init, i);
      TopExecutes(w, i, fin);
      assert fin[i].status == InDoubt;
    }
  }

  /** An executed foreach step is completed exactly when it succeeds, whatever its items hold. */
  lemma NestRecord(w: Workflow, init: seq<Record>, f: nat)
    requires FreshStart(w, init) && f in w.nests && Elected(Top(w), init, f)
    ensures Final(Top(w), init)[f].status == (if Succeeds(w.nests[f], ElementsOf(w, init, f)) then Completed else Failed)
  {
    FinalAt(Top(w), init, f);
    TopExecutes(w, f, Final(Top(w), init));
  }

  // ----- reporting ----------------------------------------------------------------------------------

  /** The status a finished run reports, from its top-level records. */
  ghost function ReportedStatus(g: Graph, top: seq<Record>): RunStatus
    requires |top| == |g.steps|
  {
    if Holding(top, {InDoubt}) then RunInDoubt
    else if exists k :: 0 <= k < |top| && top[k].status == Failed && g.steps[k].failsWorkflow then RunFailed
    else if Holding(top, {Interrupted}) then RunInterrupted
    else if Holding(top, {Failed, Blocked}) then RunCompletedWithErrors
    else RunCompleted
  }

  method Contains(records: seq<Record>, statuses: set<Status>) returns (found: bool)
    ensures found <==> Holding(records, statuses)
  {
    for k := 0 to |records|
      invariant forall j :: 0 <= j < k ==> records[j].status !in statuses
    {
      if records[k].status in statuses { return true; }
    }
    return false;
  }

  method Report(g: Graph, top: seq<Record>) returns (status: RunStatus)
    requires |top| == |g.steps|
    ensures status == ReportedStatus(g, top)
  {
    var doubt := Contains(top, {InDoubt});
    if doubt { return RunInDoubt; }
    for k := 0 to |top|
      invariant forall j :: 0 <= j < k ==> !(top[j].status == Failed && g.steps[j].failsWorkflow)
    {
      if top[k].status == Failed && g.steps[k].failsWorkflow { return RunFailed; }
    }
    var interrupted := Contains(top, {Interrupted});
    if interrupted { return RunInterrupted; }
    var errors := Contains(top, {Failed, Blocked});
    return if errors then RunCompletedWithErrors else RunCompleted;
  }

  method HasDoubt(top: seq<Record>, items: seq<seq<Item>>) returns (found: bool)
    ensures found <==> AnyDoubt(top, items)
  {
    found := Contains(top, {InDoubt});
    if found { return; }
    for f := 0 to |items|
      invariant forall e :: 0 <= e < f ==> !DoubtIn(items[e])
    {
      for p := 0 to |items[f]|
        invariant forall q :: 0 <= q < p ==> !Holding(items[f][q].children, {InDoubt})
      {
        var here := Contains(items[f][p].children, {InDoubt});
        if here { return true; }
      }
    }
    return false;
  }

  // ----- the items of one foreach step --------------------------------------------------------------

  /** The items are those of a first execution of the step. */
  ghost predicate ItemsOf(n: Nest, elements: seq<Element>, items: seq<Item>) {
    && (DoubtIn(items) ==> SomeElementDoubts(n, elements))
    && (Succeeds(n, elements) && SomeElementDoubts(n, elements) ==> DoubtIn(items))
  }

  ghost predicate SomeElementDoubts(n: Nest, elements: seq<Element>) {
    exists k: nat :: k < |elements| && ElementDoubts(n, elements, k)
  }

  ghost predicate ElementDoubts(n: Nest, elements: seq<Element>, k: nat)
    requires k < |elements|
  {
    elements[k].key.Some? && Holding(Reference(n, elements, k), {InDoubt})
  }

  /** Doubt in an item comes from the reference run of its body, however the item ended. */
  lemma DoubtIsReferenced(n: Nest, elements: seq<Element>, item: Item, k: nat)
    requires BodyOk(n) && ComesFrom(n.body, n.collect, n.steps, elements, item, k) && Holding(item.children, {InDoubt})
    ensures ElementDoubts(n, elements, k)
  {
    var before := NewItem(elements, k, n.steps);
    assert IsBody(n, n.body(before.key, before.source));
    var j :| 0 <= j < |item.children| && item.children[j].status == InDoubt;
    assert Reference(n, elements, k)[j].status == InDoubt;
  }

  /** A completed element's record is done, or done with errors, with the reference run's records. */
  lemma CompletedHolds(n: Nest, elements: seq<Element>, item: Item, k: nat)
    requires BodyOk(n) && k < |elements| && elements[k].key.Some?
    requires EndsAs(n.body, n.collect, NewItem(elements, k, n.steps), item)
    ensures item.children == Reference(n, elements, k) && item.status != Active
    ensures !AnyFailed(Reference(n, elements, k)) ==> item.status == Done
  {
    assert IsBody(n, n.body(elements[k].key.value, elements[k].source));
  }

  method ExecuteNest(n: Nest, elements: seq<Element>, maxParallel: nat) returns (items: seq<Item>, completed: bool)
    requires BodyOk(n) && maxParallel > 0
    ensures completed <==> Succeeds(n, elements)
    ensures ItemsOf(n, elements, items)
  {
    assert forall key, source :: IsBody(n, n.body(key, source)) ==> WellFormed(n.body(key, source));
    var run := new ForeachRun(n.body, n.steps, n.collect, maxParallel, []);
    var out;
    ghost var positions, before, stuck;
    out, positions, before, stuck := run.Execute(elements, n.maximum, n.limit, false);
    items, completed := run.items, out.Some?;
    ExecutedNest(n, elements, before, items, positions, stuck, completed);
  }

  lemma ExecutedNest(n: Nest, elements: seq<Element>, before: seq<Item>, items: seq<Item>, positions: seq<nat>, stuck: set<nat>, completed: bool)
    requires BodyOk(n) && Planned(elements, [], before, positions, n.steps)
    requires Settles(n.body, n.collect, before, items, Foreach.Chosen(positions), stuck)
    requires Refused(elements, n.maximum) ==> !completed
    requires !completed ==> Refused(elements, n.maximum) || (!n.collect && SomeEndsBadly(n.body, n.collect, before, items, Foreach.Chosen(positions)))
    requires completed ==> AllWell(n, elements, before, items, positions)
    ensures completed <==> Succeeds(n, elements)
    ensures ItemsOf(n, elements, items)
  {
    DoubtOfElements(n, elements, before, items, positions, stuck);
    if completed {
      WellIsReferenced(n, elements, before, items, positions);
    } else if !Refused(elements, n.maximum) {
      BadFails(n, elements, before, items, positions);
    }
  }

  ghost predicate AllWell(n: Nest, elements: seq<Element>, before: seq<Item>, items: seq<Item>, positions: seq<nat>) {
    && |positions| == |elements|
    && forall k :: 0 <= k < |positions| ==>
         && positions[k] < |before| && positions[k] < |items|
         && (Finished(before[positions[k]].status) || EndsWell(n.body, n.collect, before[positions[k]], items[positions[k]]))
  }

  lemma DoubtOfElements(n: Nest, elements: seq<Element>, before: seq<Item>, items: seq<Item>, positions: seq<nat>, stuck: set<nat>)
    requires BodyOk(n) && Planned(elements, [], before, positions, n.steps)
    requires Settles(n.body, n.collect, before, items, Foreach.Chosen(positions), stuck)
    ensures DoubtIn(items) ==> SomeElementDoubts(n, elements)
  {
    if p :| 0 <= p < |items| && Holding(items[p].children, {InDoubt}) {
      var k := FirstRunFrom(n.body, n.collect, n.steps, elements, before, items, positions, stuck, p);
      DoubtIsReferenced(n, elements, items[p], k);
    }
  }

  lemma WellIsReferenced(n: Nest, elements: seq<Element>, before: seq<Item>, items: seq<Item>, positions: seq<nat>)
    requires BodyOk(n) && Planned(elements, [], before, positions, n.steps) && !Refused(elements, n.maximum)
    requires AllWell(n, elements, before, items, positions)
    ensures Succeeds(n, elements) && (SomeElementDoubts(n, elements) ==> DoubtIn(items))
  {
    forall k: nat | k < |elements|
      ensures elements[k].key.Some? && EndsWell(n.body, n.collect, NewItem(elements, k, n.steps), items[positions[k]])
      ensures items[positions[k]].children == Reference(n, elements, k)
    {
      FirstRunAt(elements, before, positions, n.steps, k);
      CompletedHolds(n, elements, items[positions[k]], k);
    }
  }

  lemma BadFails(n: Nest, elements: seq<Element>, before: seq<Item>, items: seq<Item>, positions: seq<nat>)
    requires BodyOk(n) && Planned(elements, [], before, positions, n.steps)
    requires !n.collect && SomeEndsBadly(n.body, n.collect, before, items, Foreach.Chosen(positions))
    ensures !Succeeds(n, elements)
  {
    var p :| p in Foreach.Chosen(positions) && p < |items| && EndsAs(n.body, n.collect, before[p], items[p]) && items[p].status in {Failing, Active};
    var k := NewIs(elements, before[p], n.steps);
    CompletedHolds(n, elements, items[p], k);
  }

  // ----- a run, and the next start --------------------------------------------------------------------

  /** Some executed foreach step's bodies hold doubt; with `completed`, one that completes. */
  ghost predicate SomeNestDoubts(w: Workflow, init: seq<Record>, completed: bool)
    requires |init| == |w.tools.steps| && WellFormed(Top(w)) && Modelled(w)
  {
    exists f: nat :: NestDoubts(w, init, f, completed)
  }

  ghost predicate NestDoubts(w: Workflow, init: seq<Record>, f: nat, completed: bool)
    requires |init| == |w.tools.steps| && WellFormed(Top(w)) && Modelled(w)
  {
    && f in w.nests && Elected(Top(w), init, f) && SomeElementDoubts(w.nests[f], ElementsOf(w, init, f))
    && (completed ==> Succeeds(w.nests[f], ElementsOf(w, init, f)))
  }

  /** The items after the foreach steps up to `n`: those of a first execution where one was due. */
  ghost predicate ItemsLeft(w: Workflow, init: seq<Record>, before: seq<seq<Item>>, items: seq<seq<Item>>, n: nat)
    requires FreshStart(w, init)
  {
    && n <= |items| == |before| == |init|
    && forall f: nat :: f < |items| ==> LeftAt(w, init, before[f], items[f], f, n)
  }

  ghost predicate LeftAt(w: Workflow, init: seq<Record>, before: seq<Item>, left: seq<Item>, f: nat, n: nat)
    requires FreshStart(w, init) && f < |init|
  {
    if f < n && f in w.nests && Elected(Top(w), init, f) then ItemsOf(w.nests[f], ElementsOf(w, init, f), left) else left == before
  }

  ghost predicate SomeItemDoubts(items: seq<seq<Item>>) {
    exists f :: 0 <= f < |items| && DoubtIn(items[f])
  }

  lemma ItemsDoubt(w: Workflow, init: seq<Record>, before: seq<seq<Item>>, items: seq<seq<Item>>)
    requires FreshStart(w, init) && ItemsLeft(w, init, before, items, |items|) && !SomeItemDoubts(before)
    ensures SomeItemDoubts(items) ==> SomeNestDoubts(w, init, false)
    ensures SomeNestDoubts(w, init, true) ==> SomeItemDoubts(items)
  {
    if f :| 0 <= f < |items| && DoubtIn(items[f]) {
      assert LeftAt(w, init, before[f], items[f], f, |items|);
      assert NestDoubts(w, init, f, false);
    }
    if f: nat :| NestDoubts(w, init, f, true) {
      assert LeftAt(w, init, before[f], items[f], f, |items|);
      assert DoubtIn(items[f]);
    }
  }

  /** A step that has not been decided has no items yet. */
  predicate ItemsReady(init: seq<Record>, items: seq<seq<Item>>) {
    |items| == |init| && forall f :: 0 <= f < |init| && !Terminal(init[f].status) ==> items[f] == []
  }

  lemma LeftStep(w: Workflow, init: seq<Record>, before: seq<seq<Item>>, items: seq<seq<Item>>, f: nat)
    requires FreshStart(w, init) && ItemsLeft(w, init, before, items, f) && f < |items|
    requires !(f in w.nests && Elected(Top(w), init, f))
    ensures ItemsLeft(w, init, before, items, f + 1)
  {
    forall e: nat | e < |items| ensures LeftAt(w, init, before[e], items[e], e, f + 1) {
      assert LeftAt(w, init, before[e], items[e], e, f);
    }
  }

  lemma LeftExecuted(w: Workflow, init: seq<Record>, before: seq<seq<Item>>, items: seq<seq<Item>>, f: nat, left: seq<Item>)
    requires FreshStart(w, init) && ItemsLeft(w, init, before, items, f) && f < |items|
    requires f in w.nests && Elected(Top(w), init, f) && ItemsOf(w.nests[f], ElementsOf(w, init, f), left)
    ensures ItemsLeft(w, init, before, items[f := left], f + 1)
  {
    forall e: nat | e < |items| ensures LeftAt(w, init, before[e], items[f := left][e], e, f + 1) {
      assert LeftAt(w, init, before[e], items[e], e, f);
    }
  }

  /** The reference run leaves nothing undecided, so from its end it has nothing left to do. */
  lemma FinalRestarts(w: Workflow, init: seq<Record>)
    requires FreshStart(w, init) && !Holding(Final(Top(w), init), {InDoubt})
    ensures FreshStart(w, Final(Top(w), init)) && Final(Top(w), Final(Top(w), init)) == Final(Top(w), init)
    ensures forall f :: 0 <= f < |init| ==> Terminal(Final(Top(w), init)[f].status)
  {
    var g, fin := Top(w), Final(Top(w), init);
    forall i | 0 <= i < |fin| ensures Terminal(fin[i].status) { FinalAt(g, init, i); }
    forall i | 0 <= i < |fin| ensures Final(g, fin)[i] == fin[i] { FinalAt(g, fin, i); }
  }

  class WorkflowRunner {
    const workflow: Workflow
    var records: seq<Record>
    /** Per top-level step, the item records of a foreach step. */
    var items: seq<seq<Item>>

    constructor (workflow: Workflow, records: seq<Record>)
      requires |records| == |workflow.tools.steps|
      ensures this.workflow == workflow && this.records == records && ItemsReady(records, items) && !SomeItemDoubts(items)
    {
      this.workflow, this.records := workflow, records;
      items := seq(|records|, _ => []);
    }

    /** Execute the foreach steps that the run elected. Their bodies read only the records of earlier
        steps, which no longer change, so when this happens makes no difference. */
    method ExecuteNests(init: seq<Record>)
      requires FreshStart(workflow, init) && records == Final(Top(workflow), init) && ItemsReady(init, items)
      modifies this`items
      ensures ItemsLeft(workflow, init, old(items), items, |items|)
    {
      ghost var before := items;
      for f := 0 to |records|
        invariant ItemsLeft(workflow, init, before, items, f)
      {
        if f in workflow.nests && !Terminal(init[f].status) && Judge(Top(workflow), f, records) == Execute {
          var n := workflow.nests[f];
          var left, completed := ExecuteNest(n, n.elements(ViewOf(Top(workflow), f, records)), workflow.maxParallel);
          LeftExecuted(workflow, init, before, items, f, left);
          items := items[f := left];
        } else {
          LeftStep(workflow, init, before, items, f);
        }
      }
    }

    /** One start of a run. If any record holds doubt, nested ones included, it halts at once as in
        doubt. Otherwise the run ends with the reference records; every executed foreach step is
        completed or failed, never in doubt; and the status reported is in doubt exactly when the
        execution of some other step was, whatever the items hold. */
    method Start() returns (status: RunStatus)
      requires |records| == |items| == |workflow.tools.steps|
      requires AnyDoubt(records, items) || (FreshStart(workflow, records) && ItemsReady(records, items))
      modifies this
      ensures |records| == |items| == |workflow.tools.steps|
      ensures old(AnyDoubt(records, items)) ==> status == RunInDoubt && records == old(records) && items == old(items)
      ensures !old(AnyDoubt(records, items)) ==>
                && records == Final(Top(workflow), old(records)) && ItemsLeft(workflow, old(records), old(items), items, |items|)
                && status == ReportedStatus(Top(workflow), records)
                && (status == RunInDoubt <==> SomeToolDoubts(workflow, old(records)))
    {
      var doubt := HasDoubt(records, items);
      if doubt { return RunInDoubt; }
      var init := records;
      var run := new G.GraphRun(Top(workflow), records, workflow.maxParallel, FailRun);
      var outcome;
      ghost var tasks;
      outcome, tasks := run.Run(false);
      records := run.records;
      ExecuteNests(init);
      TopDoubtIff(workflow, init);
      status := Report(Top(workflow), records);
    }

    /** The same run started twice. The first start reports doubt exactly when a tool's execution was
        doubtful. The second finds the doubt that items hold as well, and halts on it; without any doubt
        it changes nothing and reports the same again. */
    method StartTwice() returns (first: RunStatus, second: RunStatus)
      requires FreshStart(workflow, records) && ItemsReady(records, items) && !SomeItemDoubts(items)
      modifies this
      ensures |records| == |workflow.tools.steps| && records == Final(Top(workflow), old(records))
      ensures first == ReportedStatus(Top(workflow), records) && (first == RunInDoubt <==> SomeToolDoubts(workflow, old(records)))
      ensures SomeToolDoubts(workflow, old(records)) || SomeNestDoubts(workflow, old(records), true) ==> second == RunInDoubt
      ensures second == RunInDoubt ==> SomeToolDoubts(workflow, old(records)) || SomeNestDoubts(workflow, old(records), false)
      ensures second != RunInDoubt ==> second == first
    {
      ghost var init, before := records, items;
      first := Start();
      TopDoubtIff(workflow, init);
      ItemsDoubt(workflow, init, before, items);
      ghost var doubt := AnyDoubt(records, items);
      if !doubt { FinalRestarts(workflow, init); }
      ghost var between := records;
      second := Start();
      if !doubt { TopDoubtIff(workflow, between); }
    }
  }

  // ----- a doubtful item in a completed run, concretely ---------------------------------------------

  const OneStep: seq<Step> := [Step([], true, false, true, false)]

  function Doing(r: Result): Graph {
    Graph(OneStep, (i, view) => Condition.Holds, (i, view) => r)
  }

  /** A one-step graph that needs nothing: its reference run is what the step's execution comes to. */
  lemma OneStepEnds(g: Graph, r: Result)
    requires g.steps == OneStep && g.execute(0, map[]) == r
    ensures var init := Blank(1);
            && WellFormed(g) && Deterministic(g, init) && Final(g, init) == [Recorded(r)] && Elected(g, init, 0)
            && ViewOf(g, 0, Final(g, init)) == map[]
  {
    var init := Blank(1);
    assert WellFormed(g) && Topological(g) && Settled(init);
    assert Sequential(g, init, 0) + init[0..] == init;
    assert FailedNeeds([], init) == [] && FailedNeeds([], Final(g, init)) == [];
    assert ViewOf(g, 0, init) == map[];
    assert Judge(g, 0, init) == Execute && Executed(g, 0, init) == Recorded(r);
    assert Sequential(g, init, 1) == [Recorded(r)];
  }

  lemma OneStepNeverAborts(g: Graph, r: Result, onFailure: OnFailure)
    requires g.steps == OneStep && g.execute(0, map[]) == r && r != Error
    ensures WellFormed(g) && !G.Aborts(g, Blank(1), onFailure)
  {
    OneStepEnds(g, r);
  }

  /** One foreach step over one element, whose body is one tool step with a doubtful effect. */
  function DoubtfulNest(): Nest {
    Nest(view => [Element(7, Some(1))], 10, 1, (key, source) => Doing(Doubtful), 1, true, view => 0)
  }

  function DoubtfulWorkflow(): Workflow {
    Workflow(Doing(Error), map[0 := DoubtfulNest()], 1)
  }

  lemma DoubtfulNestSucceeds(view: View)
    ensures BodyOk(DoubtfulNest())
    ensures Succeeds(DoubtfulNest(), DoubtfulNest().elements(view)) && SomeElementDoubts(DoubtfulNest(), DoubtfulNest().elements(view))
  {
    var n, elements := DoubtfulNest(), DoubtfulNest().elements(view);
    OneStepEnds(Doing(Doubtful), Doubtful);
    OneStepNeverAborts(Doing(Doubtful), Doubtful, Collect);
    assert forall key, source :: IsBody(n, n.body(key, source));
    assert !BadKey(elements, 0);
    assert Reference(n, elements, 0) == [Record(InDoubt, 0, [])];
    assert Reference(n, elements, 0)[0].status == InDoubt;
    assert ElementDoubts(n, elements, 0);
  }

  lemma DoubtfulWorkflowStarts()
    ensures FreshStart(DoubtfulWorkflow(), Blank(1)) && Elected(Top(DoubtfulWorkflow()), Blank(1), 0)
    ensures Final(Top(DoubtfulWorkflow()), Blank(1)) == [Record(Completed, 0, [])]
  {
    var w := DoubtfulWorkflow();
    DoubtfulNestSucceeds(map[]);
    assert NestResult(w.nests[0], map[]) == Output(0);
    OneStepEnds(Top(w), Output(0));
    OneStepNeverAborts(Top(w), Output(0), FailRun);
  }

  /** Its foreach step completes and its run holds no doubtful tool, but a doubtful item. */
  lemma HiddenDoubt()
    ensures var w, init := DoubtfulWorkflow(), Blank(1);
            && FreshStart(w, init) && !SomeToolDoubts(w, init) && SomeNestDoubts(w, init, true)
            && ReportedStatus(Top(w), Final(Top(w), init)) == RunCompleted
  {
    var w, init := DoubtfulWorkflow(), Blank(1);
    DoubtfulWorkflowStarts();
    TopDoubtIff(w, init);
    OneCompleted(Top(w));
    DoubtfulNestDoubts(w);
  }

  lemma OneCompleted(g: Graph)
    requires |g.steps| == 1
    ensures ReportedStatus(g, [Record(Completed, 0, [])]) == RunCompleted && !Holding([Record(Completed, 0, [])], {InDoubt})
  {
  }

  lemma DoubtfulNestDoubts(w: Workflow)
    requires w == DoubtfulWorkflow() && FreshStart(w, Blank(1)) && Elected(Top(w), Blank(1), 0)
    ensures SomeNestDoubts(w, Blank(1), true)
  {
    DoubtfulNestSucceeds(ViewOf(Top(w), 0, Final(Top(w), Blank(1))));
    assert NestDoubts(w, Blank(1), 0, true);
  }

  /** That run, twice: it reports completion, and halts as in doubt when it is started again. */
  method HideDoubt() returns (first: RunStatus, second: RunStatus)
    ensures first == RunCompleted && second == RunInDoubt
  {
    HiddenDoubt();
    var runner := new WorkflowRunner(DoubtfulWorkflow(), Blank(1));
    first, second := runner.StartTwice();
  }
}
