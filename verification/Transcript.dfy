/** The tool transcript: which histories are well formed, where one may be cut, how calls and
    results pair up, and what closing an aborted turn leaves behind. */
module Transcript {

  type Id = nat

  datatype Role = System | User | Assistant | Tool

  datatype Part =
    | Text(text: string)
    | Image(image: nat)
    | Call(id: Id, name: nat)
    | Result(callId: Id, isError: bool)

  datatype Message = Message(role: Role, content: seq<Part>)

  // ----- reading messages ------------------------------------------------------------

  function CallIds(content: seq<Part>): seq<Id> {
    if content == [] then []
    else (if content[0].Call? then [content[0].id] else []) + CallIds(content[1..])
  }

  function ResultIds(content: seq<Part>): seq<Id> {
    if content == [] then []
    else (if content[0].Result? then [content[0].callId] else []) + ResultIds(content[1..])
  }

  function Calls(m: Message): seq<Id> { CallIds(m.content) }

  function Results(m: Message): seq<Id> { ResultIds(m.content) }

  function Elements(s: seq<Id>): set<Id> {
    set id | id in s
  }

  ghost predicate Distinct(s: seq<Id>) {
    forall i, j :: 0 <= i < j < |s| ==> s[i] != s[j]
  }

  // ----- well-formed transcripts, as a grammar ---------------------------------------

  predicate Plain(m: Message) {
    m.role != Tool && Calls(m) == [] && Results(m) == []
  }

  ghost predicate Opens(m: Message) {
    m.role == Assistant && Calls(m) != [] && Distinct(Calls(m)) && Results(m) == []
  }

  predicate IsReply(m: Message) {
    m.role == Tool && Results(m) != [] && Calls(m) == []
  }

  function AllResults(ms: seq<Message>): seq<Id> {
    if ms == [] then [] else Results(ms[0]) + AllResults(ms[1..])
  }

  /** Tool messages that answer exactly the ids of `pending`, each once. */
  ghost predicate Answers(ms: seq<Message>, pending: set<Id>) {
    && (forall k :: 0 <= k < |ms| ==> IsReply(ms[k]))
    && Distinct(AllResults(ms)) && Elements(AllResults(ms)) == pending
  }

  /** An assistant message with calls, and tool messages that answer each call exactly once. */
  ghost predicate Batch(b: seq<Message>) {
    |b| >= 2 && Opens(b[0]) && Answers(b[1..], Elements(Calls(b[0])))
  }

  ghost predicate Balanced(h: seq<Message>)
    decreases |h|, 1
  {
    || h == []
    || (Plain(h[0]) && Balanced(h[1..]))
    || exists k: nat :: StartsWithBatch(h, k)
  }

  ghost predicate StartsWithBatch(h: seq<Message>, k: nat)
    decreases |h|, 0
  {
    2 <= k <= |h| && Batch(h[..k]) && Balanced(h[k..])
  }

  // ----- the scan the code performs -----------------------------------------------------

  datatype Scan = Refused | Pending(ids: set<Id>)

  ghost function Step(pending: set<Id>, m: Message): Scan {
    var calls, results := Calls(m), Results(m);
    if m.role == Tool && results == [] then Refused
    else if calls != [] && (pending != {} || m.role != Assistant || !Distinct(calls)) then Refused
    else
      var known := pending + Elements(calls);
      if results != [] && (m.role != Tool || !Distinct(results) || !(Elements(results) <= known)) then Refused
      else
        var left := known - Elements(results);
        if left != {} && calls == [] && results == [] then Refused else Pending(left)
  }

  ghost function ScanFrom(pending: set<Id>, h: seq<Message>): Scan
    decreases |h|
  {
    if h == [] then Pending(pending)
    else match Step(pending, h[0])
      case Refused => Refused
      case Pending(ids) => ScanFrom(ids, h[1..])
  }

  lemma {:induction false} ScanConcat(pending: set<Id>, a: seq<Message>, b: seq<Message>)
    ensures ScanFrom(pending, a + b) ==
            match ScanFrom(pending, a) case Refused => Refused case Pending(ids) => ScanFrom(ids, b)
    decreases |a|
  {
    if a == [] {
      assert a + b == b;
    } else {
      assert (a + b)[1..] == a[1..] + b;
      match Step(pending, a[0])
      case Refused =>
      case Pending(ids) => ScanConcat(ids, a[1..], b);
    }
  }

  lemma ElementsEmpty(s: seq<Id>)
    ensures Elements(s) == {} <==> s == []
  {
    if s != [] { assert s[0] in Elements(s); }
  }

  lemma ElementsConcat(a: seq<Id>, b: seq<Id>)
    ensures Elements(a + b) == Elements(a) + Elements(b)
    ensures Distinct(a + b) <==> Distinct(a) && Distinct(b) && Elements(a) !! Elements(b)
  {
    var c := a + b;
    assert forall i :: 0 <= i < |a| ==> c[i] == a[i];
    assert forall i {:trigger b[i]} :: 0 <= i < |b| ==> c[|a| + i] == b[i];
    if Distinct(c) {
      forall i, j | 0 <= i < j < |b| ensures b[i] != b[j] {
        assert c[|a| + i] != c[|a| + j];
      }
    }
    if Distinct(a) && Distinct(b) && Elements(a) !! Elements(b) {
      forall i, j | 0 <= i < j < |c| ensures c[i] != c[j] {
        if i < |a| <= j {
          assert c[i] in Elements(a) && c[j] == b[j - |a|] && c[j] in Elements(b);
        } else if |a| <= i {
          assert c[i] == b[i - |a|] && c[j] == b[j - |a|];
        }
      }
    }
  }

  lemma {:induction false} RepliesScan(pending: set<Id>, ms: seq<Message>)
    requires (forall k :: 0 <= k < |ms| ==> IsReply(ms[k])) && Distinct(AllResults(ms))
    requires Elements(AllResults(ms)) <= pending
    ensures ScanFrom(pending, ms) == Pending(pending - Elements(AllResults(ms)))
  {
    if ms == [] {
      assert pending - {} == pending;
    } else {
      ElementsConcat(Results(ms[0]), AllResults(ms[1..]));
      var left := pending - Elements(Results(ms[0]));
      assert Step(pending, ms[0]) == Pending(left) by { assert pending + Elements([]) == pending; }
      RepliesScan(left, ms[1..]);
      assert left - Elements(AllResults(ms[1..])) == pending - Elements(AllResults(ms));
    }
  }

  lemma {:induction false} BalancedScans(h: seq<Message>)
    requires Balanced(h)
    ensures ScanFrom({}, h) == Pending({})
    decreases |h|
  {
    if h == [] {
    } else if Plain(h[0]) && Balanced(h[1..]) {
      assert Step({}, h[0]) == Pending({});
      BalancedScans(h[1..]);
    } else {
      var k: nat :| StartsWithBatch(h, k);
      BatchScans(h[..k]);
      BalancedScans(h[k..]);
      ScanConcat({}, h[..k], h[k..]);
      assert h == h[..k] + h[k..];
    }
  }

  lemma BatchScans(b: seq<Message>)
    requires Batch(b)
    ensures ScanFrom({}, b) == Pending({})
  {
    var ids := Elements(Calls(b[0]));
    assert Calls(b[0])[0] in ids;
    assert {} + ids - Elements([]) == ids;
    RepliesScan(ids, b[1..]);
    assert ids - ids == {};
  }

  lemma StepCloses(pending: set<Id>, m: Message)
    requires pending != {} && Step(pending, m).Pending?
    ensures IsReply(m) && Distinct(Results(m)) && Elements(Results(m)) <= pending
    ensures Step(pending, m).ids == pending - Elements(Results(m))
  {
    assert Calls(m) == [];
    assert pending + Elements([]) == pending;
  }

  lemma AnswersCons(m: Message, ms: seq<Message>, pending: set<Id>)
    requires IsReply(m) && Distinct(Results(m)) && Elements(Results(m)) <= pending
    requires Answers(ms, pending - Elements(Results(m)))
    ensures Answers([m] + ms, pending)
  {
    ElementsConcat(Results(m), AllResults(ms));
    assert ([m] + ms)[1..] == ms;
    assert AllResults([m] + ms) == Results(m) + AllResults(ms);
    assert Elements(Results(m)) + (pending - Elements(Results(m))) == pending;
  }

  lemma AnswersNobody()
    ensures Answers([], {})
  {
    ElementsEmpty([]);
  }

  /** A scan that closes a pending set does so with tool messages that answer it exactly. */
  lemma {:induction false} ScanCloses(pending: set<Id>, h: seq<Message>) returns (k: nat)
    requires pending != {} && ScanFrom(pending, h) == Pending({})
    ensures 1 <= k <= |h| && Answers(h[..k], pending) && ScanFrom({}, h[k..]) == Pending({})
    decreases |h|
  {
    StepCloses(pending, h[0]);
    var left := Step(pending, h[0]).ids;
    var rest := 0;
    if left != {} {
      rest := ScanCloses(left, h[1..]);
    } else {
      AnswersNobody();
      assert h[1..][..0] == [] && h[1..][0..] == h[1..];
    }
    k := rest + 1;
    AnswersCons(h[0], h[1..][..rest], pending);
    assert h[..k] == [h[0]] + h[1..][..rest];
    assert h[k..] == h[1..][rest..];
  }

  lemma StepOpens(m: Message)
    requires Step({}, m).Pending?
    ensures Step({}, m).ids == Elements(Calls(m))
    ensures if Calls(m) == [] then Plain(m) && Elements(Calls(m)) == {} else Opens(m) && Elements(Calls(m)) != {}
  {
    var calls, results := Calls(m), Results(m);
    assert {} + Elements(calls) == Elements(calls);
    ElementsEmpty(calls);
    ElementsEmpty(results);
  }

  lemma {:induction false} ScanBalances(h: seq<Message>)
    requires ScanFrom({}, h) == Pending({})
    ensures Balanced(h)
    decreases |h|
  {
    if h != [] {
      StepOpens(h[0]);
      if Calls(h[0]) == [] {
        ScanBalances(h[1..]);
      } else {
        var rest := ScanCloses(Elements(Calls(h[0])), h[1..]);
        var k := rest + 1;
        assert h[..k][1..] == h[1..][..rest] && h[k..] == h[1..][rest..];
        ScanBalances(h[k..]);
        assert StartsWithBatch(h, k);
      }
    }
  }

  /** The code's scan accepts exactly the transcripts of the grammar. */
  lemma ScanIffBalanced(h: seq<Message>)
    ensures ScanFrom({}, h) == Pending({}) <==> Balanced(h)
  {
    if ScanFrom({}, h) == Pending({}) { ScanBalances(h); }
    if Balanced(h) { BalancedScans(h); }
  }

  /** Wherever the scan is idle inside a well-formed transcript, both halves are well formed. */
  lemma CutSafe(h: seq<Message>, k: nat)
    requires Balanced(h) && k <= |h| && ScanFrom({}, h[..k]) == Pending({})
    ensures Balanced(h[..k]) && Balanced(h[k..])
  {
    assert h == h[..k] + h[k..];
    ScanConcat({}, h[..k], h[k..]);
    ScanIffBalanced(h);
    ScanIffBalanced(h[..k]);
    ScanIffBalanced(h[k..]);
  }

  lemma BalancedConcat(a: seq<Message>, b: seq<Message>)
    requires Balanced(a) && Balanced(b)
    ensures Balanced(a + b)
  {
    ScanIffBalanced(a);
    ScanIffBalanced(b);
    ScanConcat({}, a, b);
    ScanIffBalanced(a + b);
  }
}
