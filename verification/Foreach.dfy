/** A keyed foreach: one nested scheduler run per item, resumable because items are found again by
    their keys. */
module Foreach {
  import opened Options
  import opened Scheduler
  import G = GraphRun

  datatype ItemStatus = Waiting | Active | Done | DoneWithErrors | Failing | CutOff

  datatype Item = Item(key: nat, index: nat, source: int, status: ItemStatus, children: seq<Record>)

  predicate Finished(s: ItemStatus) { s == Done || s == DoneWithErrors }

  /** What a collection element offers: its source and, if it is a scalar, its key. */
  datatype Element = Element(source: int, key: Option<nat>)

  ghost predicate DistinctKeys(items: seq<Item>) {
    forall j, k :: 0 <= j < k < |items| ==> items[j].key != items[k].key
  }

  function FindKey(items: seq<Item>, key: nat): (r: Option<nat>)
    ensures r.Some? ==> r.value < |items| && items[r.value].key == key
    ensures r.None? <==> forall k :: 0 <= k < |items| ==> items[k].key != key
  {
    if items == [] then None
    else if items[|items| - 1].key == key then Some(|items| - 1)
    else FindKey(items[..|items| - 1], key)
  }

  // ----- the order of the output ---------------------------------------------------------------

  function Insert(sorted: seq<Item>, x: Item): seq<Item> {
    if sorted == [] || sorted[|sorted| - 1].index <= x.index then sorted + [x]
    else Insert(sorted[..|sorted| - 1], x) + [sorted[|sorted| - 1]]
  }

  /** A stable sort by stored index. */
  function Sorted(items: seq<Item>): seq<Item> {
    if items == [] then [] else Insert(Sorted(items[..|items| - 1]), items[|items| - 1])
  }

  predicate Ordered(items: seq<Item>) {
    forall k :: 0 < k < |items| ==> items[k - 1].index <= items[k].index
  }

  lemma OrderedSnoc(items: seq<Item>, x: Item)
    requires Ordered(items) && (items == [] || items[|items| - 1].index <= x.index)
    ensures Ordered(items + [x])
  {
    var all := items + [x];
    forall k | 0 < k < |all| ensures all[k - 1].index <= all[k].index {
      if k < |items| { assert all[k - 1] == items[k - 1] && all[k] == items[k]; }
    }
  }

  lemma OrderedInit(items: seq<Item>)
    requires items != [] && Ordered(items)
    ensures Ordered(items[..|items| - 1])
  {
  }

  lemma InsertEnds(sorted: seq<Item>, x: Item)
    ensures Insert(sorted, x) != []
    ensures Insert(sorted, x)[|Insert(sorted, x)| - 1]
            == if sorted == [] || sorted[|sorted| - 1].index <= x.index then x else sorted[|sorted| - 1]
  {
  }

  lemma {:induction false} InsertOrders(sorted: seq<Item>, x: Item)
    requires Ordered(sorted)
    ensures Ordered(Insert(sorted, x))
  {
    if sorted == [] || sorted[|sorted| - 1].index <= x.index {
      OrderedSnoc(sorted, x);
    } else {
      var init, last := sorted[..|sorted| - 1], sorted[|sorted| - 1];
      OrderedInit(sorted);
      InsertOrders(init, x);
      InsertEnds(init, x);
      if init != [] { assert init[|init| - 1] == sorted[|sorted| - 2] && sorted[|sorted| - 2].index <= last.index; }
      OrderedSnoc(Insert(init, x), last);
    }
  }

  lemma {:induction false} InsertKeeps(sorted: seq<Item>, x: Item)
    ensures multiset(Insert(sorted, x)) == multiset(sorted) + multiset{x}
  {
    if sorted != [] && sorted[|sorted| - 1].index > x.index {
      var init, last := sorted[..|sorted| - 1], sorted[|sorted| - 1];
      InsertKeeps(init, x);
      assert sorted == init + [last];
    }
  }

  lemma {:induction false} SortOrders(items: seq<Item>)
    ensures Ordered(Sorted(items)) && multiset(Sorted(items)) == multiset(items)
  {
    if items != [] {
      var init, last := items[..|items| - 1], items[|items| - 1];
      SortOrders(init);
      InsertOrders(Sorted(init), last);
      InsertKeeps(Sorted(init), last);
      assert items == init + [last];
    }
  }

  lemma {:induction false} SortedStays(items: seq<Item>)
    requires Ordered(items)
    ensures Sorted(items) == items
  {
    if items != [] {
      var init, last := items[..|items| - 1], items[|items| - 1];
      SortedStays(init);
      assert items == init + [last];
      assert init != [] ==> init[|init| - 1].index <= last.index;
    }
  }

  function Keys(items: seq<Item>): seq<nat> {
    seq(|items|, k requires 0 <= k < |items| => items[k].key)
  }

  lemma KeysDetermine(a: seq<Item>, b: seq<Item>)
    requires multiset(a) == multiset(b) && DistinctKeys(b) && Keys(a) == Keys(b)
    ensures a == b
  {
    assert |a| == |Keys(a)| == |b|;
    forall k | 0 <= k < |a| ensures a[k] == b[k] {
      assert a[k] in multiset(a);
      assert a[k] in b;
      var j :| 0 <= j < |b| && b[j] == a[k];
      assert Keys(a)[k] == Keys(b)[k] == b[k].key;
    }
  }

  /** The output lists the planned items one each, ordered by the index stored when their key was
      first seen; that is the collection's order exactly when those indices ascend. */
  lemma OutputOrderIff(planned: seq<Item>)
    requires DistinctKeys(planned)
    ensures multiset(Sorted(planned)) == multiset(planned) && Ordered(Sorted(planned))
    ensures Keys(Sorted(planned)) == Keys(planned) <==> Ordered(planned)
  {
    SortOrders(planned);
    if Ordered(planned) { SortedStays(planned); }
    if Keys(Sorted(planned)) == Keys(planned) { KeysDetermine(Sorted(planned), planned); }
  }

  // ----- one item -----------------------------------------------------------------------------

  predicate AnyFailed(children: seq<Record>) {
    exists k :: 0 <= k < |children| && children[k].status in {Failed, Blocked}
  }

  type Body = (nat, int) -> Graph

  function Policy(collect: bool): OnFailure { if collect then Collect else AbortItem }

  function GraphOf(body: Body, item: Item): Graph { body(item.key, item.source) }

  /** The failure policy does not cut the item short, and its steps come after what they need. */
  ghost predicate Predictable(g: Graph, collect: bool, children: seq<Record>) {
    WellFormed(g) && |children| == |g.steps| && Deterministic(g, children) && !G.Aborts(g, children, Policy(collect))
  }

  /** Entered like this, a body never reports an impossible state. */
  ghost predicate Orderly(g: Graph, children: seq<Record>) {
    Settled(children) && Acyclic(g) && !HasLateNeed(g)
  }

  /** How executing an item, uncancelled, may leave it. `Active` is an item whose scheduler run
      reported an impossible state: nothing then writes the item's own status. */
  ghost predicate EndsAs(body: Body, collect: bool, before: Item, after: Item) {
    var g := GraphOf(body, before);
    && after == before.(status := after.status, children := after.children) && |after.children| == |before.children|
    && (after.status == Done ==> !AnyFailed(after.children))
    && (after.status == DoneWithErrors ==> collect && AnyFailed(after.children))
    && (after.status == Failing ==> !collect && AnyFailed(after.children))
    && (after.status == Active ==> !Orderly(g, before.children))
    && after.status in {Done, DoneWithErrors, Failing, Active}
    && (Predictable(g, collect, before.children) ==> after.children == Final(g, before.children) && after.status != Active)
  }

  /** An item cancelled while its scheduler ran. */
  ghost predicate CutOffAs(body: Body, before: Item, after: Item) {
    var g := GraphOf(body, before);
    && after == before.(status := CutOff, children := after.children) && |after.children| == |before.children| == |g.steps|
    && (Deterministic(g, before.children) ==> forall i :: 0 <= i < |after.children| ==>
          after.children[i].status in {Pending, Ready} || G.CutShort(after.children[i], Final(g, before.children)[i]))
  }

  /** Where all items stand while those in `waiting` and `active` are still to be done. */
  ghost predicate Standing(body: Body, collect: bool, start: seq<Item>, items: seq<Item>, planned: set<nat>, waiting: set<nat>, active: set<nat>) {
    && |items| == |start| && waiting !! active && waiting + active <= planned
    && (forall p :: p in waiting + active ==> p < |items| && !Finished(start[p].status))
    && forall p: nat :: p < |items| ==>
         if p !in planned || Finished(start[p].status) || p in waiting then items[p] == start[p]
         else if p in active then items[p] == start[p].(status := Active)
         else EndsWell(body, collect, start[p], items[p])
  }

  /** An ending that does not stop the other items. */
  ghost predicate EndsWell(body: Body, collect: bool, before: Item, after: Item) {
    EndsAs(body, collect, before, after) && (collect || after.status == Done)
  }

  /** As far as the items outside `active` go, anything a cut-off run may show. */
  ghost predicate Interrupting(body: Body, collect: bool, start: seq<Item>, items: seq<Item>, planned: set<nat>, active: set<nat>) {
    && |items| == |start| && active <= planned
    && (forall p :: p in active ==> p < |items| && !Finished(start[p].status) && items[p] == start[p].(status := Active))
    && forall p: nat :: p < |items| && p !in active ==>
         if p !in planned || Finished(start[p].status) then items[p] == start[p]
         else items[p] == start[p] || EndsAs(body, collect, start[p], items[p])
  }

  /** Where they stand afterwards, whether or not something cut the rest off. The items in `stuck` were
      cancelled in the checkpoint that opens them, before anything would mark them interrupted. */
  ghost predicate Settles(body: Body, collect: bool, start: seq<Item>, items: seq<Item>, planned: set<nat>, stuck: set<nat>) {
    && |items| == |start| && (forall p :: p in stuck ==> p in planned && p < |items| && !Finished(start[p].status))
    && forall p: nat :: p < |items| ==>
         if p !in planned || Finished(start[p].status) then items[p] == start[p]
         else if p in stuck then items[p] == start[p].(status := Active)
         else items[p] == start[p] || EndsAs(body, collect, start[p], items[p]) || CutOffAs(body, start[p], items[p])
  }

  /** Of the items a run may touch, with orderly bodies, exactly those caught in their opening checkpoint
      stay active; a resume takes each of them up again as it was. */
  lemma StuckIff(body: Body, collect: bool, start: seq<Item>, items: seq<Item>, planned: set<nat>, stuck: set<nat>, p: nat)
    requires Settles(body, collect, start, items, planned, stuck) && p in planned && p < |items|
    requires !Finished(start[p].status) && start[p].status != Active && Orderly(GraphOf(body, start[p]), start[p].children)
    ensures items[p].status == Active <==> p in stuck
    ensures items[p].status == Active ==> Reopened(items[p]) == start[p].(status := Waiting)
  {
    assert p in stuck || items[p] == start[p] || EndsAs(body, collect, start[p], items[p]) || CutOffAs(body, start[p], items[p]);
  }

  /** A resume makes unfinished items eligible again, and only those that were under way. */
  function Reopened(item: Item): Item {
    if item.status in {Active, CutOff} then item.(status := Waiting) else item
  }

  datatype Ending = AllDone | ItemFailed | WasCancelled

  function Blank(n: nat): seq<Record> { seq(n, _ => Record(Pending, 0, [])) }

  ghost predicate Extends(items: seq<Item>, more: seq<Item>, steps: nat) {
    && |items| <= |more| && (forall k :: 0 <= k < |items| ==> more[k] == items[k])
    && forall k :: |items| <= k < |more| ==> more[k].status == Waiting && more[k].children == Blank(steps)
  }

  ghost predicate Plans(items: seq<Item>, elements: seq<Element>, planned: seq<nat>) {
    && |planned| <= |elements|
    && forall k :: 0 <= k < |planned| ==> planned[k] < |items| && elements[k].key == Some(items[planned[k]].key)
  }

  /** The record of element `k` as planning makes it. */
  predicate IsNewAt(elements: seq<Element>, item: Item, steps: nat, k: nat) {
    k < |elements| && elements[k].key == Some(item.key) && item == Item(item.key, k, elements[k].source, Waiting, Blank(steps))
  }

  ghost predicate IsNew(elements: seq<Element>, item: Item, steps: nat, n: nat) {
    exists k: nat :: k < n && IsNewAt(elements, item, steps, k)
  }

  predicate Repeats(elements: seq<Element>, k: nat)
    requires k < |elements|
  {
    exists j :: 0 <= j < k && elements[j].key == elements[k].key
  }

  predicate BadKey(elements: seq<Element>, k: nat)
    requires k < |elements|
  {
    elements[k].key.None? || Repeats(elements, k)
  }

  /** The elements before `|positions|` have their records; whatever is new belongs to one of them. */
  ghost predicate Planning(elements: seq<Element>, existing: seq<Item>, items: seq<Item>, positions: seq<nat>, steps: nat) {
    && Extends(existing, items, steps) && Plans(items, elements, positions)
    && (forall j: nat :: j < |positions| ==> !BadKey(elements, j))
    && (forall p :: |existing| <= p < |items| ==> IsNew(elements, items[p], steps, |positions|))
    && forall j :: 0 <= j < |positions| && positions[j] >= |existing| ==>
         items[positions[j]].index == j && items[positions[j]].source == elements[j].source
  }

  lemma PlanningSnoc(elements: seq<Element>, existing: seq<Item>, before: seq<Item>, items: seq<Item>, positions: seq<nat>, p: nat, steps: nat)
    requires Planning(elements, existing, before, positions, steps) && |positions| < |elements| && !BadKey(elements, |positions|)
    requires p < |items| && Some(items[p].key) == elements[|positions|].key
    requires if p < |existing| then items == before
             else p == |before| && items == before + [items[p]] && items[p].index == |positions|
                  && items[p].source == elements[|positions|].source && items[p].status == Waiting && items[p].children == Blank(steps)
    ensures Planning(elements, existing, items, positions + [p], steps)
  {
    var longer := positions + [p];
    forall q | |existing| <= q < |items| ensures IsNew(elements, items[q], steps, |longer|) {
      if q < |before| {
        assert items[q] == before[q];
        var k: nat :| k < |positions| && IsNewAt(elements, before[q], steps, k);
      } else {
        assert IsNewAt(elements, items[q], steps, |positions|);
      }
    }
  }

  class ForeachRun {
    const body: Body
    const steps: nat
    const collect: bool
    const maxParallel: nat
    var items: seq<Item>

    constructor (body: Body, steps: nat, collect: bool, maxParallel: nat, items: seq<Item>)
      requires maxParallel > 0 && forall key, source :: WellFormed(body(key, source)) && |body(key, source).steps| == steps
      requires DistinctKeys(items) && forall k :: 0 <= k < |items| ==> |items[k].children| == steps
      ensures Valid() && this.items == items && this.body == body && this.steps == steps && this.collect == collect
    {
      this.body, this.steps, this.collect, this.maxParallel, this.items := body, steps, collect, maxParallel, items;
    }

    ghost predicate Valid()
      reads `items
    {
      && maxParallel > 0 && (forall key, source :: WellFormed(body(key, source)) && |body(key, source).steps| == steps)
      && DistinctKeys(items) && forall k :: 0 <= k < |items| ==> |items[k].children| == steps
    }

    /** One record per key: the stored one if the key was seen before, a blank one at this element's
        index if not. A missing or repeated key stops the planning, whose new records stay. */
    method Plan(elements: seq<Element>, maximum: nat) returns (planned: Option<seq<nat>>)
      requires Valid()
      modifies this
      ensures Valid() && Extends(old(items), items, steps)
      ensures forall p :: |old(items)| <= p < |items| ==> IsNew(elements, items[p], steps, |elements|)
      ensures planned.None? <==> |elements| > maximum || exists k: nat :: k < |elements| && BadKey(elements, k)
      ensures planned.Some? ==> |planned.value| == |elements| && Plans(items, elements, planned.value)
      ensures planned.Some? ==> forall k :: 0 <= k < |elements| && planned.value[k] >= |old(items)| ==>
                                  items[planned.value[k]].index == k && items[planned.value[k]].source == elements[k].source
    {
      if |elements| > maximum { return None; }
      var existing := items;
      var positions: seq<nat> := [];
      for k := 0 to |elements|
        invariant Valid() && Planning(elements, existing, items, positions, steps) && |positions| == k
      {
        if BadKey(elements, k) { return None; }
        var p := Place(elements, k, existing, positions);
        positions := positions + [p];
      }
      return Some(positions);
    }

    /** The record of one more element: the stored one of its key, or a new one. */
    method Place(elements: seq<Element>, k: nat, existing: seq<Item>, ghost positions: seq<nat>) returns (p: nat)
      requires Valid() && Planning(elements, existing, items, positions, steps)
      requires k == |positions| < |elements| && !BadKey(elements, k)
      modifies this
      ensures Valid() && Planning(elements, existing, items, positions + [p], steps)
    {
      ghost var before := items;
      var key := elements[k].key.value;
      var found := FindKey(existing, key);
      if found.Some? {
        p := found.value;
      } else {
        items := items + [Item(key, k, elements[k].source, Waiting, Blank(steps))];
        p := |items| - 1;
      }
      PlanningSnoc(elements, existing, before, items, positions, p, steps);
    }

    /** What a resume does to the items' own statuses. */
    method Reopen()
      requires Valid()
      modifies this
      ensures Valid() && |items| == |old(items)| && (forall p :: 0 <= p < |items| ==> items[p] == Reopened(old(items)[p]))
      ensures KeepsFinished(old(items), items)
    {
      for k := 0 to |items|
        invariant |items| == |old(items)|
        invariant forall p :: 0 <= p < |items| ==> items[p] == if p < k then Reopened(old(items)[p]) else old(items)[p]
      {
        items := items[k := Reopened(items[k])];
      }
    }

    /** The nested scheduler over one item, to its end or to a cancellation. */
    method ExecuteItem(p: nat, ghost before: Item, cancellable: bool) returns (raised: bool)
      requires Valid() && p < |items| && items[p] == before.(status := Active)
      modifies this
      ensures Valid() && |items| == |old(items)| && (forall q :: 0 <= q < |items| && q != p ==> items[q] == old(items)[q])
      ensures EndsAs(body, collect, before, items[p]) || (cancellable && CutOffAs(body, before, items[p]))
      ensures raised <==> items[p].status in {Failing, Active, CutOff}
    {
      var item := items[p];
      var run := new G.GraphRun(body(item.key, item.source), item.children, maxParallel, Policy(collect));
      var outcome;
      ghost var tasks;
      outcome, tasks := run.Run(cancellable);
      if outcome.Cancelled? {
        if Deterministic(run.graph, item.children) {
          G.CancelledRecords(run.graph, item.children, Policy(collect), outcome.at, run.records, run.running, run.opening);
        }
        items := items[p := item.(status := CutOff, children := run.records)];
        return true;
      }
      if Deterministic(run.graph, item.children) { TopologicalIsAcyclic(run.graph); }
      var failed := HasFailure(run.records);
      var status := if outcome == G.Impossible then Active else if !failed then Done else if collect then DoneWithErrors else Failing;
      items := items[p := item.(status := status, children := run.records)];
      return status in {Failing, Active};
    }

    /** The item is marked running; its opening checkpoint is still to come. */
    method StartItem(p: nat, ghost start: seq<Item>, ghost planned: set<nat>, ghost waiting: set<nat>, ghost active: set<nat>)
      requires Valid() && Standing(body, collect, start, items, planned, waiting, active) && p in waiting
      modifies this
      ensures Valid() && Standing(body, collect, start, items, planned, waiting - {p}, active + {p})
    {
      items := items[p := items[p].(status := Active)];
    }

    /** Cancel what is active. An item in its opening checkpoint is left as it is; any other may already
        have finished, or is interrupted wherever its scheduler stands. */
    method CutOffActive(active: set<nat>, opening: set<nat>, ghost start: seq<Item>, ghost planned: set<nat>)
      requires Valid() && Interrupting(body, collect, start, items, planned, active) && opening <= active
      modifies this
      ensures Valid() && Settles(body, collect, start, items, planned, opening)
      ensures forall q: nat :: q < |items| && q !in active ==> items[q] == old(items)[q]
    {
      var rest := active - opening;
      while rest != {}
        invariant Valid() && rest <= active - opening && |items| == |start| && active <= planned
        invariant forall q :: q in active ==> q < |items| && !Finished(start[q].status)
        invariant forall q: nat :: q < |items| && q !in active ==> items[q] == old(items)[q]
        invariant forall q :: q in rest + opening ==> items[q] == start[q].(status := Active)
        invariant forall q :: q in active - opening - rest ==> EndsAs(body, collect, start[q], items[q]) || CutOffAs(body, start[q], items[q])
      {
        var p :| p in rest;
        var raised := ExecuteItem(p, start[p], true);
        rest := rest - {p};
      }
    }

    /** One admissible run of a single item: it starts, and the cancellation arrives while its opening
        checkpoint is written. The item is left running, with nothing executed. */
    method CaughtOpening(p: nat)
      requires Valid() && p < |items| && items[p].status == Waiting
      modifies this
      ensures Valid() && Settles(body, collect, old(items), items, {p}, {p})
      ensures items == old(items)[p := old(items)[p].(status := Active)] && Reopened(items[p]) == old(items)[p]
    {
      ghost var start := items;
      StartItem(p, start, {p}, {p}, {});
      CutOffActive({p}, {p}, start, {p});
    }

    /** Execute an item whose checkpoint is written; where failures are not collected, the first one
        cuts off the others. */
    method FinishItem(p: nat, active: set<nat>, opening: set<nat>, ghost start: seq<Item>, ghost planned: set<nat>, ghost waiting: set<nat>) returns (failed: bool)
      requires Valid() && Standing(body, collect, start, items, planned, waiting, active) && p in active - opening && opening <= active
      modifies this
      ensures Valid()
      ensures !failed ==> Standing(body, collect, start, items, planned, waiting, active - {p})
      ensures failed ==> !collect && Settles(body, collect, start, items, planned, opening)
                         && p < |items| && EndsAs(body, collect, start[p], items[p]) && items[p].status in {Failing, Active}
    {
      var raised := ExecuteItem(p, start[p], false);
      failed := raised && !collect;
      if failed { CutOffActive(active - {p}, opening, start, planned); }
    }

    /** One task moves: an item starts, if there is room; an opening checkpoint is written; or an item
        whose checkpoint is written is executed to its end. */
    method Advance(limit: nat, waiting: set<nat>, active: set<nat>, opening: set<nat>, ghost start: seq<Item>, ghost planned: set<nat>) returns (failed: bool, waits: set<nat>, runs: set<nat>, opens: set<nat>)
      requires Valid() && Standing(body, collect, start, items, planned, waiting, active) && opening <= active
      requires |active| <= limit && limit > 0 && waiting + active != {}
      modifies this
      ensures Valid() && |opens| <= limit
      ensures !failed ==> Standing(body, collect, start, items, planned, waits, runs) && opens <= runs
      ensures !failed ==> |runs| <= limit && 3 * |waits| + |runs| + |opens| < 3 * |waiting| + |active| + |opening|
      ensures failed ==> !collect && Settles(body, collect, start, items, planned, opens) && SomeEndsBadly(body, collect, start, items, planned)
    {
      failed, waits, runs, opens := false, waiting, active, opening;
      AtMost(opening, active);
      var next: bool := *;
      if waiting != {} && |active| < limit && (next || active == {}) {
        var p :| p in waiting;
        StartItem(p, start, planned, waiting, active);
        waits, runs, opens := waiting - {p}, active + {p}, opening + {p};
      } else {
        var p :| p in active;
        if p in opening {
          opens := opening - {p};
        } else {
          failed := FinishItem(p, active, opening, start, planned, waiting);
          runs := active - {p};
        }
      }
      if !failed { AtMost(opens, runs); }
    }

    /** All planned items that are not finished yet, at most `limit` at a time, in any interleaving;
        a cancellation, if anybody may cancel, comes at any point. */
    method RunItems(planned: set<nat>, limit: nat, cancellable: bool) returns (ending: Ending, stuck: set<nat>)
      requires Valid() && limit > 0 && forall p :: p in planned ==> p < |items|
      modifies this
      ensures Valid() && Settles(body, collect, old(items), items, planned, stuck) && |stuck| <= limit
      ensures ending == AllDone ==> stuck == {} && forall p :: p in planned ==>
                Finished(old(items)[p].status) || EndsWell(body, collect, old(items)[p], items[p])
      ensures ending == WasCancelled ==> cancellable
      ensures ending == ItemFailed ==> !collect && SomeEndsBadly(body, collect, old(items), items, planned)
    {
      ghost var start := items;
      var waiting: set<nat>, active: set<nat>, opening: set<nat> := (set p | p in planned && !Finished(items[p].status)), {}, {};
      while waiting + active != {}
        invariant Valid() && |active| <= limit && opening <= active
        invariant Standing(body, collect, start, items, planned, waiting, active)
        decreases 3 * |waiting| + |active| + |opening|
      {
        var cancelled: bool := *;
        if cancellable && cancelled {
          CutOffActive(active, opening, start, planned);
          AtMost(opening, active);
          return WasCancelled, opening;
        }
        var failed;
        failed, waiting, active, opening := Advance(limit, waiting, active, opening, start, planned);
        if failed { return ItemFailed, opening; }
      }
      NoneLeft(body, collect, start, items, planned, waiting, active);
      return AllDone, {};
    }

    /** Execute the planned items and list them. */
    method RunAndList(elements: seq<Element>, positions: seq<nat>, limit: nat, cancellable: bool) returns (out: Option<seq<Item>>, ghost stuck: set<nat>)
      requires Valid() && limit > 0 && |positions| == |elements| && Plans(items, elements, positions)
      requires forall k: nat :: k < |elements| ==> !BadKey(elements, k)
      modifies this
      ensures Valid() && SameIdentity(old(items), items) && KeepsFinished(old(items), items)
      ensures Settles(body, collect, old(items), items, Chosen(positions), stuck)
      ensures out.None? ==> cancellable || (!collect && SomeEndsBadly(body, collect, old(items), items, Chosen(positions)))
      ensures out.Some? ==> forall k :: 0 <= k < |positions| ==>
                Finished(old(items)[positions[k]].status) || EndsWell(body, collect, old(items)[positions[k]], items[positions[k]])
      ensures out.Some? ==> out.value == Sorted(Pick(items, positions))
      ensures out.Some? ==> Lists(out.value, Pick(items, positions), elements)
      ensures out.Some? && !collect ==> forall k :: 0 <= k < |positions| ==> Finished(items[positions[k]].status)
    {
      ghost var before := items;
      var planned := Chosen(positions);
      var ending, left := RunItems(planned, limit, cancellable);
      stuck := left;
      SettlesKeeps(body, collect, before, items, planned, stuck);
      if ending != AllDone { return None, stuck; }
      PickedKeys(elements, before, items, positions);
      OutputOrderIff(Pick(items, positions));
      forall k | 0 <= k < |positions| ensures positions[k] in planned {}
      out := Some(Sorted(Pick(items, positions)));
    }

    /** The whole step: plan, giving `before`, then execute. An item finished before is left exactly as
        it was; the output has one entry per element, ordered by stored index, in the collection's own
        order if and only if the stored indices ascend along it, as they do when every stored item came
        from this collection. There is no output exactly when the plan is refused, an item failure stops
        the rest, or somebody cancels. */
    method Execute(elements: seq<Element>, maximum: nat, limit: nat, cancellable: bool) returns (out: Option<seq<Item>>, ghost positions: seq<nat>, ghost before: seq<Item>, ghost stuck: set<nat>)
      requires Valid() && limit > 0
      modifies this
      ensures Valid() && KeepsFinished(old(items), items)
      ensures Planned(elements, old(items), before, positions, steps)
      ensures Settles(body, collect, before, items, Chosen(positions), stuck)
      ensures Refused(elements, maximum) ==> out.None? && positions == []
      ensures out.None? ==> Refused(elements, maximum) || cancellable || (!collect && SomeEndsBadly(body, collect, before, items, Chosen(positions)))
      ensures out.Some? ==> |positions| == |elements| && Plans(items, elements, positions)
                            && Lists(out.value, Pick(items, positions), elements)
      ensures out.Some? ==> forall k :: 0 <= k < |positions| ==>
                Finished(before[positions[k]].status) || EndsWell(body, collect, before[positions[k]], items[positions[k]])
      ensures out.Some? && FromHere(old(items), elements) ==> Keys(out.value) == Keys(Pick(items, positions))
    {
      ghost var stored := items;
      var plan := Plan(elements, maximum);
      before, stuck, positions := items, {}, [];
      if plan.None? { return None, [], items, {}; }
      positions := plan.value;
      out, stuck := RunAndList(elements, plan.value, limit, cancellable);
      if out.Some? && FromHere(stored, elements) {
        PickedInOrder(elements, stored, before, items, positions);
      }
    }
  }

  predicate Refused(elements: seq<Element>, maximum: nat) {
    |elements| > maximum || exists k: nat :: k < |elements| && BadKey(elements, k)
  }

  /** The records as planning leaves them. */
  ghost predicate Planned(elements: seq<Element>, stored: seq<Item>, before: seq<Item>, positions: seq<nat>, steps: nat) {
    && Extends(stored, before, steps) && Plans(before, elements, positions)
    && forall p :: |stored| <= p < |before| ==> IsNew(elements, before[p], steps, |elements|)
  }

  ghost predicate KeepsFinished(before: seq<Item>, after: seq<Item>) {
    |before| <= |after| && forall p :: 0 <= p < |before| && Finished(before[p].status) ==> after[p] == before[p]
  }

  /** One entry for each element, in ascending order of stored index. */
  ghost predicate Lists(out: seq<Item>, picked: seq<Item>, elements: seq<Element>) {
    && |picked| == |elements| && (forall k :: 0 <= k < |elements| ==> elements[k].key == Some(picked[k].key))
    && DistinctKeys(picked) && multiset(out) == multiset(picked) && Ordered(out)
    && (Keys(out) == Keys(picked) <==> Ordered(picked))
  }

  /** Every stored item whose key the collection has was first seen at the place it has there. */
  predicate FromHere(items: seq<Item>, elements: seq<Element>) {
    forall p, k :: 0 <= p < |items| && 0 <= k < |elements| && elements[k].key == Some(items[p].key) ==> items[p].index == k
  }

  function Chosen(positions: seq<nat>): set<nat> { set p | p in positions }

  // ----- a first execution, element by element --------------------------------------------------

  function NewItem(elements: seq<Element>, k: nat, steps: nat): Item
    requires k < |elements| && elements[k].key.Some?
  {
    Item(elements[k].key.value, k, elements[k].source, Waiting, Blank(steps))
  }

  ghost predicate MayBecome(body: Body, collect: bool, before: Item, after: Item) {
    after == before || EndsAs(body, collect, before, after) || CutOffAs(body, before, after) || after == before.(status := Active)
  }

  /** `item` is what executing element `k`'s new record may leave. */
  ghost predicate ComesFrom(body: Body, collect: bool, steps: nat, elements: seq<Element>, item: Item, k: nat) {
    k < |elements| && elements[k].key.Some? && MayBecome(body, collect, NewItem(elements, k, steps), item)
  }

  lemma NewIs(elements: seq<Element>, item: Item, steps: nat) returns (k: nat)
    requires IsNew(elements, item, steps, |elements|)
    ensures k < |elements| && elements[k].key.Some? && item == NewItem(elements, k, steps)
  {
    k :| k < |elements| && IsNewAt(elements, item, steps, k);
  }

  /** Each record of a first execution belongs to an element. */
  lemma FirstRunFrom(body: Body, collect: bool, steps: nat, elements: seq<Element>, before: seq<Item>, items: seq<Item>, positions: seq<nat>, stuck: set<nat>, p: nat) returns (k: nat)
    requires Planned(elements, [], before, positions, steps) && Settles(body, collect, before, items, Chosen(positions), stuck)
    requires p < |items|
    ensures k < |elements| && elements[k].key.Some? && before[p] == NewItem(elements, k, steps)
    ensures ComesFrom(body, collect, steps, elements, items[p], k)
  {
    k := NewIs(elements, before[p], steps);
  }

  /** Each element has a record that was planned for it. */
  lemma FirstRunAt(elements: seq<Element>, before: seq<Item>, positions: seq<nat>, steps: nat, k: nat)
    requires Planned(elements, [], before, positions, steps) && |positions| == |elements| && k < |elements|
    requires forall j: nat :: j < |elements| ==> !BadKey(elements, j)
    ensures elements[k].key.Some? && before[positions[k]] == NewItem(elements, k, steps)
  {
    var j := NewIs(elements, before[positions[k]], steps);
    assert !BadKey(elements, k) && !BadKey(elements, j);
  }

  function Pick(items: seq<Item>, positions: seq<nat>): (r: seq<Item>)
    requires forall k :: 0 <= k < |positions| ==> positions[k] < |items|
    ensures |r| == |positions| && forall k :: 0 <= k < |r| ==> r[k] == items[positions[k]]
  {
    seq(|positions|, k requires 0 <= k < |positions| => items[positions[k]])
  }

  /** Execution never changes what an item is, only how far it got. */
  ghost predicate SameIdentity(before: seq<Item>, after: seq<Item>) {
    |after| == |before| && forall p :: 0 <= p < |before| ==> after[p].key == before[p].key && after[p].index == before[p].index
  }

  lemma SettlesKeeps(body: Body, collect: bool, start: seq<Item>, items: seq<Item>, planned: set<nat>, stuck: set<nat>)
    requires Settles(body, collect, start, items, planned, stuck)
    ensures SameIdentity(start, items) && KeepsFinished(start, items)
  {
  }

  lemma PickedKeys(elements: seq<Element>, before: seq<Item>, items: seq<Item>, positions: seq<nat>)
    requires |positions| == |elements| && Plans(before, elements, positions) && SameIdentity(before, items)
    requires forall k: nat :: k < |elements| ==> !BadKey(elements, k)
    ensures DistinctKeys(Pick(items, positions))
    ensures forall k :: 0 <= k < |elements| ==> elements[k].key == Some(Pick(items, positions)[k].key)
  {
    var picked := Pick(items, positions);
    forall j, k | 0 <= j < k < |picked| ensures picked[j].key != picked[k].key {
      assert !BadKey(elements, k);
    }
  }

  lemma PickedInOrder(elements: seq<Element>, stored: seq<Item>, before: seq<Item>, items: seq<Item>, positions: seq<nat>)
    requires |positions| == |elements| && Plans(before, elements, positions) && SameIdentity(before, items)
    requires |stored| <= |before| && (forall p :: 0 <= p < |stored| ==> before[p] == stored[p]) && FromHere(stored, elements)
    requires forall k :: 0 <= k < |elements| && positions[k] >= |stored| ==> before[positions[k]].index == k
    ensures Ordered(Pick(items, positions))
  {
    var picked := Pick(items, positions);
    forall k | 0 <= k < |picked| ensures picked[k].index == k {
      if positions[k] < |stored| { assert before[positions[k]] == stored[positions[k]]; }
    }
  }

  /** Some planned item was executed to a failure, or to an impossible state. */
  ghost predicate SomeEndsBadly(body: Body, collect: bool, start: seq<Item>, items: seq<Item>, planned: set<nat>) {
    |items| == |start| && exists p :: p in planned && p < |items| && EndsAs(body, collect, start[p], items[p]) && items[p].status in {Failing, Active}
  }

  lemma AtMost(a: set<nat>, b: set<nat>)
    requires a <= b
    ensures |a| <= |b|
  {
    assert b == a + (b - a);
  }

  lemma NoneLeft(body: Body, collect: bool, start: seq<Item>, items: seq<Item>, planned: set<nat>, waiting: set<nat>, active: set<nat>)
    requires Standing(body, collect, start, items, planned, waiting, active) && waiting + active == {}
    ensures Settles(body, collect, start, items, planned, {})
    ensures forall p :: p in planned && p < |items| ==>
              Finished(start[p].status) || EndsWell(body, collect, start[p], items[p])
  {
    assert waiting == {} && active == {};
  }

  method HasFailure(children: seq<Record>) returns (failed: bool)
    ensures failed <==> AnyFailed(children)
  {
    for k := 0 to |children|
      invariant forall j :: 0 <= j < k ==> children[j].status !in {Failed, Blocked}
    {
      if children[k].status in {Failed, Blocked} { return true; }
    }
    return false;
  }
}
