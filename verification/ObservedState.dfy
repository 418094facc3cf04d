/** Pairing tool results with the calls they answer, although call ids may come round again. */
module ObservedState {
  import opened Transcript
  import opened Boundaries

  type Pair = (Part, Part)

  // ----- the intended pairs ----------------------------------------------------------------

  function FindCall(content: seq<Part>, id: Id): (p: Part)
    requires id in CallIds(content)
    ensures p in content && p.Call? && p.id == id
  {
    if content[0].Call? && content[0].id == id then content[0] else FindCall(content[1..], id)
  }

  /** The calls one assistant message makes. */
  function CallsOf(content: seq<Part>): map<Id, Part> {
    map id | id in Elements(CallIds(content)) :: FindCall(content, id)
  }

  function Answered(calls: map<Id, Part>, content: seq<Part>): seq<Pair> {
    if content == [] then []
    else
      (if content[0].Result? && content[0].callId in calls then [(calls[content[0].callId], content[0])] else [])
      + Answered(calls, content[1..])
  }

  /** The calls of the nearest message before `m` that makes any. */
  function BatchCalls(h: seq<Message>, m: nat): map<Id, Part>
    requires m <= |h|
  {
    if m == 0 then map[]
    else if Calls(h[m - 1]) != [] then CallsOf(h[m - 1].content)
    else BatchCalls(h, m - 1)
  }

  /** Every result before `n` with the call of its own batch, in order. */
  function Paired(h: seq<Message>, n: nat): seq<Pair>
    requires n <= |h|
  {
    if n == 0 then [] else Paired(h, n - 1) + Answered(BatchCalls(h, n - 1), h[n - 1].content)
  }

  function ResultParts(content: seq<Part>): seq<Part> {
    if content == [] then []
    else (if content[0].Result? then [content[0]] else []) + ResultParts(content[1..])
  }

  function AllResultParts(h: seq<Message>, n: nat): seq<Part>
    requires n <= |h|
  {
    if n == 0 then [] else AllResultParts(h, n - 1) + ResultParts(h[n - 1].content)
  }

  function Seconds(pairs: seq<Pair>): seq<Part> {
    if pairs == [] then [] else [pairs[0].1] + Seconds(pairs[1..])
  }

  // ----- the one-pass dictionary ------------------------------------------------------------

  datatype State = State(waiting: map<Id, Part>, pairs: seq<Pair>)

  function TakePart(s: State, p: Part): State {
    match p
    case Call(id, _) => s.(waiting := s.waiting[id := p])
    case Result(id, _) =>
      if id in s.waiting then State(s.waiting - {id}, s.pairs + [(s.waiting[id], p)]) else s
    case _ => s
  }

  function TakeParts(s: State, content: seq<Part>): State
    decreases |content|
  {
    if content == [] then s else TakeParts(TakePart(s, content[0]), content[1..])
  }

  function TakeMessages(h: seq<Message>, n: nat): State
    requires n <= |h|
  {
    if n == 0 then State(map[], []) else TakeParts(TakeMessages(h, n - 1), h[n - 1].content)
  }

  method PairResults(h: seq<Message>) returns (pairs: seq<Pair>)
    ensures pairs == TakeMessages(h, |h|).pairs
    ensures Balanced(h) ==> pairs == Paired(h, |h|) && Seconds(pairs) == AllResultParts(h, |h|)
  {
    var s := State(map[], []);
    for m := 0 to |h|
      invariant s == TakeMessages(h, m)
    {
      ghost var start := s;
      for p := 0 to |h[m].content|
        invariant TakeParts(s, h[m].content[p..]) == TakeParts(start, h[m].content)
      {
        s := TakePart(s, h[m].content[p]);
      }
    }
    pairs := s.pairs;
    if Balanced(h) { PairsWithinBatches(h); }
  }

  // ----- the dictionary pairs within batches --------------------------------------------------

  /** `r` is `s` with the calls of `content` added to those waiting. */
  ghost predicate Takes(s: State, content: seq<Part>, r: State) {
    && r.pairs == s.pairs && r.waiting.Keys == s.waiting.Keys + Elements(CallIds(content))
    && (forall id :: id in s.waiting ==> r.waiting[id] == s.waiting[id])
    && (forall id :: id in CallIds(content) ==> r.waiting[id] == FindCall(content, id))
  }

  lemma TakesCall(s: State, content: seq<Part>, r: State)
    requires content != [] && content[0].Call? && Distinct(CallIds(content))
    requires content[0].id !in s.waiting && Takes(TakePart(s, content[0]), content[1..], r)
    ensures Takes(s, content, r)
  {
    var id := content[0].id;
    ElementsConcat([id], CallIds(content[1..]));
    assert Elements([id]) == {id} && id in TakePart(s, content[0]).waiting;
    forall other | other in CallIds(content) ensures r.waiting[other] == FindCall(content, other) {
      if other != id { assert other in CallIds(content[1..]); }
    }
  }

  lemma {:induction false} TakeCalls(s: State, content: seq<Part>)
    requires ResultIds(content) == [] && Distinct(CallIds(content))
    requires forall id :: id in s.waiting ==> id !in CallIds(content)
    ensures Takes(s, content, TakeParts(s, content))
    decreases |content|
  {
    if content != [] {
      if content[0].Call? {
        DistinctTail(content[0].id, CallIds(content[1..]));
        assert content[0].id in CallIds(content);
        assert forall id :: id in CallIds(content[1..]) ==> id in CallIds(content);
        TakeCalls(TakePart(s, content[0]), content[1..]);
        TakesCall(s, content, TakeParts(s, content));
      } else {
        assert CallIds(content) == CallIds(content[1..]);
        TakeCalls(s, content[1..]);
      }
    } else {
      ElementsEmpty(CallIds(content));
    }
  }

  lemma {:induction false} AnsweredAgrees(a: map<Id, Part>, b: map<Id, Part>, content: seq<Part>)
    requires forall id :: id in ResultIds(content) ==> id in a && id in b && a[id] == b[id]
    ensures Answered(a, content) == Answered(b, content)
  {
    if content != [] { AnsweredAgrees(a, b, content[1..]); }
  }

  lemma MinusTwice(waiting: map<Id, Part>, a: set<Id>, b: set<Id>)
    ensures waiting - a - b == waiting - (a + b)
  {
  }

  lemma {:induction false} ResultsLeave(s: State, content: seq<Part>)
    requires CallIds(content) == []
    ensures TakeParts(s, content).waiting == s.waiting - Elements(ResultIds(content))
    decreases |content|
  {
    if content == [] {
      assert s.waiting - Elements([]) == s.waiting;
    } else {
      var first, rest := if content[0].Result? then [content[0].callId] else [], ResultIds(content[1..]);
      var t := TakePart(s, content[0]);
      ElementsConcat(first, rest);
      assert t.waiting == s.waiting - Elements(first);
      ResultsLeave(t, content[1..]);
      MinusTwice(s.waiting, Elements(first), Elements(rest));
    }
  }

  lemma DistinctTail(id: Id, rest: seq<Id>)
    requires Distinct([id] + rest)
    ensures Distinct(rest) && id !in rest
  {
    ElementsConcat([id], rest);
    assert id in Elements([id]);
  }

  lemma {:induction false} ResultsPair(s: State, content: seq<Part>)
    requires CallIds(content) == [] && Distinct(ResultIds(content))
    requires forall id :: id in ResultIds(content) ==> id in s.waiting
    ensures TakeParts(s, content).pairs == s.pairs + Answered(s.waiting, content)
    decreases |content|
  {
    if content != [] {
      if content[0].Result? {
        var t := TakePart(s, content[0]);
        AfterOneResult(s, content);
        ResultsPair(t, content[1..]);
        AnsweredAgrees(s.waiting, t.waiting, content[1..]);
        OneResultPairs(s, content);
      } else {
        assert ResultIds(content) == ResultIds(content[1..]);
        ResultsPair(s, content[1..]);
      }
    }
  }

  lemma OneResultPairs(s: State, content: seq<Part>)
    requires content != [] && content[0].Result? && content[0].callId in s.waiting
    requires var t := TakePart(s, content[0]); TakeParts(t, content[1..]).pairs == t.pairs + Answered(s.waiting, content[1..])
    ensures TakeParts(s, content).pairs == s.pairs + Answered(s.waiting, content)
  {
    var first, rest := [(s.waiting[content[0].callId], content[0])], Answered(s.waiting, content[1..]);
    assert s.pairs + first + rest == s.pairs + (first + rest);
  }

  lemma AfterOneResult(s: State, content: seq<Part>)
    requires content != [] && content[0].Result? && Distinct(ResultIds(content))
    requires forall id :: id in ResultIds(content) ==> id in s.waiting
    ensures var t, rest := TakePart(s, content[0]), ResultIds(content[1..]);
            && Distinct(rest) && content[0].callId in s.waiting
            && forall id :: id in rest ==> id in s.waiting && id in t.waiting && t.waiting[id] == s.waiting[id]
  {
    var id, rest := content[0].callId, ResultIds(content[1..]);
    DistinctTail(id, rest);
    assert id in ResultIds(content) && forall other :: other in rest ==> other in ResultIds(content);
  }

  /** While a batch is open, the dictionary holds exactly its unanswered calls. */
  lemma {:induction false} PairsBelow(h: seq<Message>, n: nat)
    requires n <= |h| && ScanFrom({}, h).Pending?
    ensures var ids, s := ScanFrom({}, h[..n]), TakeMessages(h, n);
            && ids == Pending(s.waiting.Keys) && s.pairs == Paired(h, n)
            && (forall id :: id in s.waiting ==> id in BatchCalls(h, n) && s.waiting[id] == BatchCalls(h, n)[id])
  {
    if n > 0 {
      PairsBelow(h, n - 1);
      ScanPrefix(h, n - 1);
      ScanSplit(h, n);
      var s, m := TakeMessages(h, n - 1), h[n - 1];
      StepShapes(s.waiting.Keys, m);
      if Calls(m) != [] {
        TakeCalls(s, m.content);
        AnsweredNone(BatchCalls(h, n - 1), m.content);
      } else {
        ResultsLeave(s, m.content);
        ResultsPair(s, m.content);
        AnsweredAgrees(s.waiting, BatchCalls(h, n - 1), m.content);
      }
    }
  }

  lemma StepShapes(pending: set<Id>, m: Message)
    requires Step(pending, m).Pending?
    ensures Calls(m) != [] ==> pending == {} && Distinct(Calls(m)) && Results(m) == [] && Step(pending, m).ids == Elements(Calls(m))
    ensures Calls(m) == [] ==> Distinct(Results(m)) && (forall id :: id in Results(m) ==> id in pending)
                               && Step(pending, m).ids == pending - Elements(Results(m))
  {
    if Calls(m) == [] {
      ElementsEmpty(Calls(m));
      ElementsEmpty(Results(m));
      forall id | id in Results(m) ensures id in pending { assert id in Elements(Results(m)); }
      assert pending + {} - {} == pending;
    } else {
      ElementsEmpty(Results(m));
      assert {} + Elements(Calls(m)) - {} == Elements(Calls(m));
    }
  }

  lemma {:induction false} AnsweredNone(calls: map<Id, Part>, content: seq<Part>)
    requires ResultIds(content) == []
    ensures Answered(calls, content) == []
  {
    if content != [] { AnsweredNone(calls, content[1..]); }
  }

  lemma {:induction false} SecondsConcat(a: seq<Pair>, b: seq<Pair>)
    ensures Seconds(a + b) == Seconds(a) + Seconds(b)
  {
    if a == [] {
      assert a + b == b;
    } else {
      assert (a + b)[1..] == a[1..] + b;
      SecondsConcat(a[1..], b);
    }
  }

  lemma {:induction false} AnsweredAll(calls: map<Id, Part>, content: seq<Part>)
    requires forall id :: id in ResultIds(content) ==> id in calls
    ensures Seconds(Answered(calls, content)) == ResultParts(content)
  {
    if content != [] {
      AnsweredAll(calls, content[1..]);
      if content[0].Result? {
        assert content[0].callId in ResultIds(content);
        SecondsConcat([(calls[content[0].callId], content[0])], Answered(calls, content[1..]));
        assert Seconds([(calls[content[0].callId], content[0])]) == [content[0]];
      } else {
        assert Answered(calls, content) == Answered(calls, content[1..]);
      }
    }
  }

  /** The results of message `m` name calls of its own batch. */
  ghost predicate OwnBatch(h: seq<Message>, m: nat)
    requires m < |h|
  {
    forall id :: id in Results(h[m]) ==> id in BatchCalls(h, m)
  }

  /** Results name calls of the batch that is open when they arrive. */
  lemma ResultsOfBatch(h: seq<Message>, m: nat)
    requires m < |h| && ScanFrom({}, h).Pending?
    ensures OwnBatch(h, m)
  {
    PairsBelow(h, m);
    ScanPrefix(h, m);
    ScanSplit(h, m + 1);
    StepShapes(TakeMessages(h, m).waiting.Keys, h[m]);
  }

  lemma AnsweredExtends(before: seq<Pair>, parts: seq<Part>, calls: map<Id, Part>, content: seq<Part>)
    requires Seconds(before) == parts && forall id :: id in ResultIds(content) ==> id in calls
    ensures Seconds(before + Answered(calls, content)) == parts + ResultParts(content)
  {
    AnsweredAll(calls, content);
    SecondsConcat(before, Answered(calls, content));
  }

  lemma {:induction false} EveryResultPaired(h: seq<Message>, n: nat)
    requires n <= |h| && forall m: nat :: m < n ==> OwnBatch(h, m)
    ensures Seconds(Paired(h, n)) == AllResultParts(h, n)
  {
    if n > 0 {
      EveryResultPaired(h, n - 1);
      assert OwnBatch(h, n - 1);
      PairedStep(h, n - 1);
    }
  }

  lemma PairedStep(h: seq<Message>, m: nat)
    requires m < |h| && Seconds(Paired(h, m)) == AllResultParts(h, m)
    requires OwnBatch(h, m)
    ensures Seconds(Paired(h, m + 1)) == AllResultParts(h, m + 1)
  {
    AnsweredExtends(Paired(h, m), AllResultParts(h, m), BatchCalls(h, m), h[m].content);
  }

  lemma PairsWithinBatches(h: seq<Message>)
    requires Balanced(h)
    ensures TakeMessages(h, |h|) == State(map[], Paired(h, |h|))
    ensures Seconds(Paired(h, |h|)) == AllResultParts(h, |h|)
  {
    ScanIffBalanced(h);
    assert h[..|h|] == h;
    PairsBelow(h, |h|);
    forall m: nat | m < |h| { ResultsOfBatch(h, m); }
    EveryResultPaired(h, |h|);
  }
}
