/** What a turn leaves in the history, on every exit. */
module TurnHistory {
  import opened Transcript
  import opened Boundaries

  // ----- closing an aborted turn ----------------------------------------------------------

  function AllCalls(h: seq<Message>): seq<Id> {
    if h == [] then [] else Calls(h[0]) + AllCalls(h[1..])
  }

  function Unanswered(calls: seq<Id>, answered: set<Id>): (r: seq<Id>)
  {
    if calls == [] then []
    else (if calls[0] in answered then [] else [calls[0]]) + Unanswered(calls[1..], answered)
  }

  function Reply(id: Id, isError: bool): Message {
    Message(Tool, [Result(id, isError)])
  }

  function ReplyEach(ids: seq<Id>, errors: seq<bool>): (r: seq<Message>)
    ensures |r| == |ids|
  {
    seq(|ids|, k requires 0 <= k < |ids| => Reply(ids[k], k < |errors| && errors[k]))
  }

  function AllFailed(n: nat): seq<bool> {
    seq(n, _ => true)
  }

  function Failures(ids: seq<Id>): seq<Message> {
    ReplyEach(ids, AllFailed(|ids|))
  }

  /** An error result for every call without any answer anywhere. */
  function Closed(h: seq<Message>): seq<Message> {
    h + Failures(Unanswered(AllCalls(h), Elements(AllResults(h))))
  }

  lemma {:induction false} CallsConcat(a: seq<Message>, b: seq<Message>)
    ensures AllCalls(a + b) == AllCalls(a) + AllCalls(b)
    ensures AllResults(a + b) == AllResults(a) + AllResults(b)
  {
    if a == [] {
      assert a + b == b;
    } else {
      assert (a + b)[1..] == a[1..] + b;
      CallsConcat(a[1..], b);
    }
  }

  lemma {:induction false} UnansweredConcat(a: seq<Id>, b: seq<Id>, answered: set<Id>)
    ensures Unanswered(a + b, answered) == Unanswered(a, answered) + Unanswered(b, answered)
  {
    if a == [] {
      assert a + b == b;
    } else {
      assert (a + b)[1..] == a[1..] + b;
      UnansweredConcat(a[1..], b, answered);
    }
  }

  lemma {:induction false} UnansweredMembers(calls: seq<Id>, answered: set<Id>)
    ensures forall id :: id in Unanswered(calls, answered) <==> id in calls && id !in answered
  {
    if calls != [] {
      UnansweredMembers(calls[1..], answered);
      assert forall id :: id in calls <==> id == calls[0] || id in calls[1..];
    }
  }

  lemma {:induction false} UnansweredDistinct(calls: seq<Id>, answered: set<Id>)
    requires Distinct(calls)
    ensures Distinct(Unanswered(calls, answered))
  {
    if calls != [] {
      var first, rest := [calls[0]], calls[1..];
      assert calls == first + rest;
      ElementsConcat(first, rest);
      UnansweredDistinct(rest, answered);
      UnansweredMembers(rest, answered);
      ElementsConcat(first, Unanswered(rest, answered));
    }
  }

  lemma UnansweredElements(calls: seq<Id>, answered: set<Id>)
    ensures Elements(Unanswered(calls, answered)) == Elements(calls) - answered
    ensures Distinct(calls) ==> Distinct(Unanswered(calls, answered))
  {
    UnansweredMembers(calls, answered);
    if Distinct(calls) { UnansweredDistinct(calls, answered); }
  }

  lemma OneReply(id: Id, isError: bool)
    ensures Results(Reply(id, isError)) == [id] && Calls(Reply(id, isError)) == [] && IsReply(Reply(id, isError))
  {
    var content := Reply(id, isError).content;
    assert content[0] == Result(id, isError) && content[1..] == [];
    assert CallIds(content) == [] + CallIds([]);
    assert ResultIds(content) == [id] + ResultIds([]);
  }

  lemma {:induction false} RepliesAnswer(ids: seq<Id>, errors: seq<bool>)
    ensures AllResults(ReplyEach(ids, errors)) == ids && AllCalls(ReplyEach(ids, errors)) == []
    ensures forall k :: 0 <= k < |ids| ==> IsReply(ReplyEach(ids, errors)[k])
  {
    var ms := ReplyEach(ids, errors);
    if ids != [] {
      var later := if errors == [] then [] else errors[1..];
      assert ms[1..] == ReplyEach(ids[1..], later);
      RepliesAnswer(ids[1..], later);
      OneReply(ids[0], errors != [] && errors[0]);
      assert ms[0] == Reply(ids[0], errors != [] && errors[0]);
      forall k | 0 <= k < |ids| ensures IsReply(ms[k]) {
        if k > 0 { assert ms[k] == ms[1..][k - 1]; }
      }
    }
  }

  /** Whatever was asked or still open is answered or still open. */
  lemma {:induction false} ScanConserves(pending: set<Id>, h: seq<Message>)
    requires ScanFrom(pending, h).Pending?
    ensures Elements(AllCalls(h)) + pending == Elements(AllResults(h)) + ScanFrom(pending, h).ids
    decreases |h|
  {
    if h == [] {
      ElementsEmpty(AllCalls(h));
    } else {
      var left := Step(pending, h[0]).ids;
      ScanConserves(left, h[1..]);
      ElementsConcat(Calls(h[0]), AllCalls(h[1..]));
      ElementsConcat(Results(h[0]), AllResults(h[1..]));
      StepConserves(pending, h[0]);
    }
  }

  lemma StepConserves(pending: set<Id>, m: Message)
    requires Step(pending, m).Pending?
    ensures Elements(Calls(m)) + pending == Elements(Results(m)) + Step(pending, m).ids
  {
    ElementsEmpty(Results(m));
  }

  lemma BalancedConserves(h: seq<Message>)
    requires Balanced(h)
    ensures Elements(AllCalls(h)) == Elements(AllResults(h))
  {
    ScanIffBalanced(h);
    ScanConserves({}, h);
  }

  /** Closing changes nothing where nothing is open, whichever ids were used before. */
  lemma ClosingBalanced(h: seq<Message>)
    requires Balanced(h)
    ensures Closed(h) == h
  {
    NothingUnanswered(h);
  }

  lemma AskingAdds(pre: seq<Message>, asking: Message)
    requires Results(asking) == []
    ensures AllCalls(pre + [asking]) == AllCalls(pre) + Calls(asking)
    ensures AllResults(pre + [asking]) == AllResults(pre)
  {
    CallsConcat(pre, [asking]);
    assert [asking][1..] == [];
    assert AllCalls([asking]) == Calls(asking) + [] && AllResults([asking]) == Results(asking) + [];
  }

  lemma NothingUnanswered(h: seq<Message>)
    requires Balanced(h)
    ensures Unanswered(AllCalls(h), Elements(AllResults(h))) == []
  {
    BalancedConserves(h);
    UnansweredElements(AllCalls(h), Elements(AllResults(h)));
    ElementsEmpty(Unanswered(AllCalls(h), Elements(AllResults(h))));
  }

  /** The calls a closed turn answers are those of its open message that no earlier result names. */
  lemma ClosingOpen(pre: seq<Message>, asking: Message)
    requires Balanced(pre) && Opens(asking)
    ensures Closed(pre + [asking]) == pre + ([asking] + Failures(Unanswered(Calls(asking), Elements(AllResults(pre)))))
  {
    NothingUnanswered(pre);
    OnlyAskingOpen(pre, asking);
  }

  lemma OnlyAskingOpen(pre: seq<Message>, asking: Message)
    requires Unanswered(AllCalls(pre), Elements(AllResults(pre))) == [] && Results(asking) == []
    ensures Closed(pre + [asking]) == pre + ([asking] + Failures(Unanswered(Calls(asking), Elements(AllResults(pre)))))
  {
    AskingAdds(pre, asking);
    UnansweredConcat(AllCalls(pre), Calls(asking), Elements(AllResults(pre)));
  }

  lemma PartlyAnswered(asking: Message, open: seq<Id>, errors: seq<bool>)
    requires Opens(asking) && Distinct(open) && Elements(open) <= Elements(Calls(asking))
    ensures ScanFrom({}, [asking] + ReplyEach(open, errors)) == Pending(Elements(Calls(asking)) - Elements(open))
  {
    var tail, asked := [asking] + ReplyEach(open, errors), Elements(Calls(asking));
    RepliesAnswer(open, errors);
    StepAsks(asking);
    RepliesScan(asked, ReplyEach(open, errors));
    assert tail[1..] == ReplyEach(open, errors);
  }

  lemma StepAsks(asking: Message)
    requires Opens(asking)
    ensures Step({}, asking) == Pending(Elements(Calls(asking)))
  {
    ElementsEmpty(Results(asking));
    assert {} + Elements(Calls(asking)) - {} == Elements(Calls(asking));
  }

  lemma AfterBalanced(pre: seq<Message>, tail: seq<Message>)
    requires Balanced(pre) && ScanFrom({}, tail).Pending?
    ensures Balanced(pre + tail) <==> ScanFrom({}, tail).ids == {}
  {
    ScanIffBalanced(pre);
    ScanConcat({}, pre, tail);
    ScanIffBalanced(pre + tail);
  }

  lemma ClosedTail(asking: Message, used: set<Id>)
    requires Opens(asking)
    ensures ScanFrom({}, [asking] + Failures(Unanswered(Calls(asking), used))) == Pending(Elements(Calls(asking)) * used)
  {
    var asked, open := Elements(Calls(asking)), Unanswered(Calls(asking), used);
    UnansweredElements(Calls(asking), used);
    PartlyAnswered(asking, open, AllFailed(|open|));
    assert asked - (asked - used) == asked * used;
  }

  /** One set of answered ids serves the whole history: closing repairs an interrupted batch
      exactly when none of its ids was answered before. */
  lemma ClosingRepairsIff(pre: seq<Message>, asking: Message)
    requires Balanced(pre) && Opens(asking)
    ensures Balanced(Closed(pre + [asking])) <==> Elements(Calls(asking)) * Elements(AllResults(pre)) == {}
  {
    var used := Elements(AllResults(pre));
    ClosingOpen(pre, asking);
    ClosedTail(asking, used);
    AfterBalanced(pre, [asking] + Failures(Unanswered(Calls(asking), used)));
  }

  lemma ReusedIdStaysOpen() returns (pre: seq<Message>, asking: Message)
    ensures Balanced(pre) && Opens(asking) && !Balanced(Closed(pre + [asking]))
  {
    asking := Message(Assistant, [Call(7, 0)]);
    assert asking.content[1..] == [];
    assert Calls(asking) == [7] + CallIds([]) && Results(asking) == ResultIds([]);
    AnsweredBatch(asking, []);
    pre := [asking] + ReplyEach(Calls(asking), []);
    ClosingRepairsIff(pre, asking);
    assert 7 in Elements(Calls(asking)) * Elements(AllResults(pre));
  }

  lemma AnsweredBatch(asking: Message, errors: seq<bool>)
    requires Opens(asking)
    ensures Balanced([asking] + ReplyEach(Calls(asking), errors))
    ensures Elements(AllResults([asking] + ReplyEach(Calls(asking), errors))) == Elements(Calls(asking))
  {
    var b := [asking] + ReplyEach(Calls(asking), errors);
    RepliesAnswer(Calls(asking), errors);
    assert b[1..] == ReplyEach(Calls(asking), errors);
    assert Batch(b);
    assert b[..|b|] == b && b[|b|..] == [];
    assert StartsWithBatch(b, |b|);
    CallsConcat([asking], b[1..]);
  }

  // ----- what completed tool work appends ----------------------------------------------------

  datatype Next = Continue | Leave | Break

  /** How the tools of one message end: interrupted before any result is recorded, or with an
      outcome per call, images to attach, and text for the user. `Leave` is an exit for the user or
      on a limit, `Break` an exception, cancellation or generator close after the results are in. */
  datatype Dispatch =
    | Interrupted
    | Completed(errors: seq<bool>, media: seq<nat>, acknowledgement: string, next: Next)

  datatype Iteration =
    | NoReply
    | Received(message: Message, dispatch: Dispatch)

  function ImageParts(media: seq<nat>): (r: seq<Part>)
    ensures forall p :: p in r ==> p.Text? || p.Image?
  {
    if media == [] then [] else [Text("image from a tool"), Image(media[0])] + ImageParts(media[1..])
  }

  function FollowUp(media: seq<nat>): seq<Message> {
    if media == [] then [] else [Message(User, [Text("tool-produced image input")] + ImageParts(media))]
  }

  function Acknowledged(text: string): seq<Message> {
    if text == "" then [] else [Message(Assistant, [Text(text)])]
  }

  function Recorded(asking: Message, d: Dispatch): seq<Message>
    requires d.Completed?
  {
    [asking] + ReplyEach(Calls(asking), d.errors) + FollowUp(d.media) + Acknowledged(d.acknowledgement)
  }

  lemma {:induction false} NoCallsInText(content: seq<Part>)
    requires forall p :: p in content ==> p.Text? || p.Image?
    ensures CallIds(content) == [] && ResultIds(content) == []
  {
    if content != [] {
      assert content[0] in content;
      NoCallsInText(content[1..]);
    }
  }

  lemma OnePlain(m: Message)
    requires Plain(m)
    ensures Balanced([m]) && AllResults([m]) == []
  {
    assert [m][1..] == [];
  }

  /** Messages that leave no call open and answer exactly `ids`. */
  ghost predicate Settled(ms: seq<Message>, ids: set<Id>) {
    Balanced(ms) && Elements(AllResults(ms)) == ids
  }

  lemma SettledConcat(a: seq<Message>, x: set<Id>, b: seq<Message>, y: set<Id>)
    requires Settled(a, x) && Settled(b, y)
    ensures Settled(a + b, x + y)
  {
    BalancedConcat(a, b);
    CallsConcat(a, b);
    ElementsConcat(AllResults(a), AllResults(b));
  }

  lemma PlainSettled(m: Message)
    requires Plain(m)
    ensures Settled([m], {})
  {
    OnePlain(m);
    ElementsEmpty(AllResults([m]));
  }

  lemma FollowUpSettled(media: seq<nat>)
    ensures Settled(FollowUp(media), {})
  {
    ElementsEmpty(AllResults([]));
    if media != [] {
      NoCallsInText(FollowUp(media)[0].content);
      PlainSettled(FollowUp(media)[0]);
    }
  }

  lemma AcknowledgedSettled(text: string)
    ensures Settled(Acknowledged(text), {})
  {
    ElementsEmpty(AllResults([]));
    if text != "" {
      NoCallsInText(Acknowledged(text)[0].content);
      PlainSettled(Acknowledged(text)[0]);
    }
  }

  lemma RecordedSettled(h: seq<Message>, used: set<Id>, asking: Message, d: Dispatch)
    requires Settled(h, used) && Opens(asking) && d.Completed?
    ensures Settled(h + Recorded(asking, d), used + Elements(Calls(asking)))
  {
    var batch, ids := [asking] + ReplyEach(Calls(asking), d.errors), Elements(Calls(asking));
    AnsweredBatch(asking, d.errors);
    FollowUpSettled(d.media);
    AcknowledgedSettled(d.acknowledgement);
    SettledConcat(batch, ids, FollowUp(d.media), {});
    SettledConcat(batch + FollowUp(d.media), ids + {}, Acknowledged(d.acknowledgement), {});
    assert ids + {} + {} == ids;
    SettledConcat(h, used, Recorded(asking, d), ids);
  }

  // ----- the turn loop ----------------------------------------------------------------------

  /** What a provider may answer: an assistant message with distinct call ids and no results. */
  ghost predicate Response(m: Message) {
    m.role == Assistant && Distinct(Calls(m)) && Results(m) == []
  }

  predicate Blank(text: string) {
    forall c :: c in text ==> c in {' ', '\t', '\n', '\r'}
  }

  predicate Empty(m: Message) {
    Calls(m) == [] && forall p :: p in m.content && p.Text? ==> Blank(p.text)
  }

  function IdsOf(it: Iteration): set<Id> {
    if it.Received? then Elements(Calls(it.message)) else {}
  }

  function Union(ids: seq<set<Id>>, n: nat): set<Id>
    requires n <= |ids|
  {
    if n == 0 then {} else Union(ids, n - 1) + ids[n - 1]
  }

  function IdsBy(script: seq<Iteration>): (r: seq<set<Id>>)
    ensures |r| == |script|
  {
    seq(|script|, k requires 0 <= k < |script| => IdsOf(script[k]))
  }

  /** No reply uses an id that a result in the history, or a call of an earlier reply, already used. */
  predicate Fresh(used: set<Id>, ids: seq<set<Id>>) {
    forall k: nat :: k < |ids| ==> ids[k] * (used + Union(ids, k)) == {}
  }

  datatype Exit = Answered | LeftForUser | Spent | Aborted

  /** What one iteration adds to the history. */
  function Said(it: Iteration): seq<Message> {
    if it.NoReply? || Empty(it.message) then []
    else if Calls(it.message) == [] || it.dispatch.Interrupted? then [it.message]
    else Recorded(it.message, it.dispatch)
  }

  function SaidBy(script: seq<Iteration>): (r: seq<seq<Message>>)
    ensures |r| == |script|
  {
    seq(|script|, k requires 0 <= k < |script| => Said(script[k]))
  }

  /** How one iteration ends the turn; `Spent` if it does not. */
  function Ends(it: Iteration): Exit {
    if it.NoReply? then Aborted
    else if Empty(it.message) then Spent
    else if Calls(it.message) == [] then Answered
    else match it.dispatch
      case Interrupted => Aborted
      case Completed(_, _, _, next) => if next == Continue then Spent else if next == Leave then LeftForUser else Aborted
  }

  /** What the first `n` iterations add: the user's message goes before the first that says anything. */
  function Entries(user: Message, said: seq<seq<Message>>, n: nat): seq<Message>
    requires n <= |said|
  {
    if n == 0 then [] else Ahead(user, Entries(user, said, n - 1), said[n - 1]) + said[n - 1]
  }

  function Ahead(user: Message, before: seq<Message>, said: seq<Message>): seq<Message> {
    if said != [] && before == [] then [user] else before
  }

  predicate AllSpent(script: seq<Iteration>, n: nat) {
    n <= |script| && forall k :: 0 <= k < n ==> Ends(script[k]) == Spent
  }

  /** The turn took `n` of at most `bound` iterations and left with `exit`. */
  predicate Played(script: seq<Iteration>, bound: nat, n: nat, exit: Exit) {
    && n <= bound && n <= |script| && (n > 0 ==> AllSpent(script, n - 1))
    && (exit == if n == 0 then Spent else Ends(script[n - 1])) && (exit == Spent ==> n == bound)
  }

  // ----- what the turn leaves, on values --------------------------------------------------------

  ghost predicate Responses(script: seq<Iteration>) {
    forall k :: 0 <= k < |script| && script[k].Received? ==> Response(script[k].message)
  }

  /** The turn broke off between recording a message's calls and recording their results. */
  predicate BreaksOpen(it: Iteration) {
    it.Received? && !Empty(it.message) && Calls(it.message) != [] && it.dispatch.Interrupted?
  }

  lemma ByAt(script: seq<Iteration>, k: nat)
    requires k < |script|
    ensures SaidBy(script)[k] == Said(script[k]) && IdsBy(script)[k] == IdsOf(script[k])
  {
  }

  lemma NothingSettled()
    ensures Settled([], {})
  {
    ElementsEmpty(AllResults([]));
  }

  lemma SaidSettled(it: Iteration)
    requires (it.Received? ==> Response(it.message)) && !BreaksOpen(it)
    ensures Settled(Said(it), IdsOf(it))
  {
    NothingSettled();
    if it.Received? {
      ElementsEmpty(Calls(it.message));
      if !Empty(it.message) {
        if Calls(it.message) == [] {
          PlainSettled(it.message);
        } else {
          RecordedSettled([], {}, it.message, it.dispatch);
          assert [] + Recorded(it.message, it.dispatch) == Recorded(it.message, it.dispatch);
        }
      }
    }
  }

  lemma AheadSettled(user: Message, before: seq<Message>, said: seq<Message>, used: set<Id>)
    requires Plain(user) && Settled(before, used)
    ensures Settled(Ahead(user, before, said), used)
  {
    if said != [] && before == [] {
      PlainSettled(user);
      NothingSettled();
    }
  }

  /** Complete contributions make complete entries, which use the ids of their calls. */
  lemma {:induction false} EntriesSettled(user: Message, said: seq<seq<Message>>, ids: seq<set<Id>>, n: nat)
    requires Plain(user) && n <= |said| == |ids| && forall k :: 0 <= k < n ==> Settled(said[k], ids[k])
    ensures Settled(Entries(user, said, n), Union(ids, n))
  {
    if n == 0 {
      NothingSettled();
    } else {
      EntriesSettled(user, said, ids, n - 1);
      AheadSettled(user, Entries(user, said, n - 1), said[n - 1], Union(ids, n - 1));
      SettledConcat(Ahead(user, Entries(user, said, n - 1), said[n - 1]), Union(ids, n - 1), said[n - 1], ids[n - 1]);
    }
  }

  ghost predicate Unbroken(script: seq<Iteration>, n: nat) {
    n <= |script| && forall k :: 0 <= k < n ==> !BreaksOpen(script[k])
  }

  /** While no iteration breaks off, what was added is complete by itself ... */
  lemma AddedSettled(user: Message, script: seq<Iteration>, n: nat)
    requires Plain(user) && Responses(script) && Unbroken(script, n)
    ensures Settled(Entries(user, SaidBy(script), n), Union(IdsBy(script), n))
  {
    forall k | 0 <= k < n ensures Settled(SaidBy(script)[k], IdsBy(script)[k]) {
      ByAt(script, k);
      SaidSettled(script[k]);
    }
    EntriesSettled(user, SaidBy(script), IdsBy(script), n);
  }

  /** ... and so is the history. */
  lemma TurnSettled(h0: seq<Message>, user: Message, script: seq<Iteration>, n: nat)
    requires Balanced(h0) && Plain(user) && Responses(script) && Unbroken(script, n)
    ensures Balanced(h0 + Entries(user, SaidBy(script), n))
  {
    AddedSettled(user, script, n);
    BalancedConcat(h0, Entries(user, SaidBy(script), n));
  }

  /** The ids of an open last message that earlier results already answered. */
  function Clash(h0: seq<Message>, user: Message, script: seq<Iteration>, n: nat): set<Id>
    requires n <= |script|
  {
    if n > 0 && BreaksOpen(script[n - 1])
    then IdsOf(script[n - 1]) * Elements(AllResults(h0 + Entries(user, SaidBy(script), n - 1)))
    else {}
  }

  lemma ClosedIff(pre: seq<Message>, used: set<Id>, asking: Message)
    requires Settled(pre, used) && Opens(asking)
    ensures Balanced(Closed(pre + [asking])) <==> Elements(Calls(asking)) * used == {}
  {
    ClosingRepairsIff(pre, asking);
  }

  /** A message left open after complete entries. */
  lemma OpenAfter(h0: seq<Message>, user: Message, before: seq<Message>, used: set<Id>, asking: Message)
    requires Balanced(h0) && Plain(user) && Settled(before, used) && Opens(asking)
    ensures Balanced(Closed(h0 + (Ahead(user, before, [asking]) + [asking])))
            <==> Elements(Calls(asking)) * (Elements(AllResults(h0)) + used) == {}
  {
    var ahead := Ahead(user, before, [asking]);
    AheadSettled(user, before, [asking], used);
    SettledConcat(h0, Elements(AllResults(h0)), ahead, used);
    ClosedIff(h0 + ahead, Elements(AllResults(h0)) + used, asking);
    assert h0 + (ahead + [asking]) == h0 + ahead + [asking];
  }

  lemma UsesOf(h0: seq<Message>, before: seq<Message>, used: set<Id>)
    requires Elements(AllResults(before)) == used
    ensures Elements(AllResults(h0 + before)) == Elements(AllResults(h0)) + used
  {
    CallsConcat(h0, before);
    ElementsConcat(AllResults(h0), AllResults(before));
  }

  lemma OpenEntries(h0: seq<Message>, user: Message, said: seq<seq<Message>>, n: nat, used: set<Id>, asking: Message)
    requires Balanced(h0) && Plain(user) && 0 < n <= |said| && said[n - 1] == [asking] && Opens(asking)
    requires Settled(Entries(user, said, n - 1), used)
    ensures Elements(AllResults(h0 + Entries(user, said, n - 1))) == Elements(AllResults(h0)) + used
    ensures Balanced(Closed(h0 + Entries(user, said, n))) <==> Elements(Calls(asking)) * (Elements(AllResults(h0)) + used) == {}
  {
    UsesOf(h0, Entries(user, said, n - 1), used);
    OpenAfter(h0, user, Entries(user, said, n - 1), used, asking);
  }

  lemma ClashIs(h0: seq<Message>, user: Message, script: seq<Iteration>, n: nat, used: set<Id>)
    requires 0 < n <= |script| && BreaksOpen(script[n - 1])
    requires Elements(AllResults(h0 + Entries(user, SaidBy(script), n - 1))) == Elements(AllResults(h0)) + used
    ensures Clash(h0, user, script, n) == IdsOf(script[n - 1]) * (Elements(AllResults(h0)) + used)
  {
  }

  lemma FreshAt(used: set<Id>, ids: seq<set<Id>>, k: nat)
    requires k < |ids| && Fresh(used, ids)
    ensures ids[k] * (used + Union(ids, k)) == {}
  {
  }

  lemma BrokenSays(script: seq<Iteration>, k: nat)
    requires k < |script| && BreaksOpen(script[k]) && Responses(script)
    ensures SaidBy(script)[k] == [script[k].message] && Opens(script[k].message)
    ensures IdsOf(script[k]) == Elements(Calls(script[k].message))
  {
    ByAt(script, k);
    assert Response(script[k].message);
  }

  /** A turn that breaks off leaves, once closed, a complete transcript exactly when the open message
      reuses no answered id ... */
  lemma BrokenTurnIff(h0: seq<Message>, user: Message, script: seq<Iteration>, n: nat)
    requires Balanced(h0) && Plain(user) && Responses(script) && 0 < n <= |script|
    requires Unbroken(script, n - 1) && BreaksOpen(script[n - 1])
    ensures Balanced(Closed(h0 + Entries(user, SaidBy(script), n))) <==> Clash(h0, user, script, n) == {}
  {
    BrokenSays(script, n - 1);
    AddedSettled(user, script, n - 1);
    OpenEntries(h0, user, SaidBy(script), n, Union(IdsBy(script), n - 1), script[n - 1].message);
    ClashIs(h0, user, script, n, Union(IdsBy(script), n - 1));
  }

  /** ... which it does not if its ids are fresh. */
  lemma FreshNeverClashes(h0: seq<Message>, user: Message, script: seq<Iteration>, n: nat)
    requires Balanced(h0) && Plain(user) && Responses(script) && 0 < n <= |script|
    requires Unbroken(script, n - 1) && BreaksOpen(script[n - 1])
    requires Fresh(Elements(AllResults(h0)), IdsBy(script))
    ensures Clash(h0, user, script, n) == {}
  {
    BrokenSays(script, n - 1);
    AddedSettled(user, script, n - 1);
    OpenEntries(h0, user, SaidBy(script), n, Union(IdsBy(script), n - 1), script[n - 1].message);
    ClashIs(h0, user, script, n, Union(IdsBy(script), n - 1));
    FreshAt(Elements(AllResults(h0)), IdsBy(script), n - 1);
    ByAt(script, n - 1);
  }

  lemma WholeTurnIff(h0: seq<Message>, user: Message, script: seq<Iteration>, n: nat)
    requires Balanced(h0) && Plain(user) && Responses(script) && n <= |script| && (n > 0 ==> Unbroken(script, n - 1))
    ensures var h := h0 + Entries(user, SaidBy(script), n);
            && ((n > 0 ==> !BreaksOpen(script[n - 1])) ==> Balanced(h))
            && (Balanced(Closed(h)) <==> Clash(h0, user, script, n) == {})
            && (Fresh(Elements(AllResults(h0)), IdsBy(script)) ==> Clash(h0, user, script, n) == {})
  {
    if n > 0 && BreaksOpen(script[n - 1]) {
      BrokenTurnIff(h0, user, script, n);
      if Fresh(Elements(AllResults(h0)), IdsBy(script)) { FreshNeverClashes(h0, user, script, n); }
    } else {
      TurnSettled(h0, user, script, n);
      ClosingBalanced(h0 + Entries(user, SaidBy(script), n));
    }
  }

  class Session {
    var history: seq<Message>

    constructor (history: seq<Message>)
      ensures this.history == history
    {
      this.history := history;
    }

    method CloseDangling()
      modifies this`history
      ensures history == Closed(old(history))
    {
      var answered := Elements(AllResults(history));
      var dangling := Unanswered(AllCalls(history), answered);
      for k := 0 to |dangling|
        invariant history == old(history) + Failures(dangling)[..k]
      {
        history := history + [Reply(dangling[k], true)];
      }
    }

    /** Append one result per call, then the images, then the text for the user. */
    method RecordBatch(asking: Message, d: Dispatch)
      requires d.Completed? && history != [] && history[|history| - 1] == asking
      modifies this`history
      ensures history == old(history)[..|old(history)| - 1] + Recorded(asking, d)
    {
      var ids := Calls(asking);
      for k := 0 to |ids|
        invariant history == old(history) + ReplyEach(ids, d.errors)[..k]
      {
        history := history + [Reply(ids[k], k < |d.errors| && d.errors[k])];
      }
      history := history + FollowUp(d.media);
      history := history + Acknowledged(d.acknowledgement);
    }

    /** One reply of the provider, recorded after what is still pending. */
    method TakeReply(pending: seq<Message>, it: Iteration) returns (exit: Exit)
      requires it.Received? && !Empty(it.message)
      modifies this`history
      ensures history == old(history) + pending + Said(it) && exit == Ends(it)
    {
      history := history + pending;
      ghost var ahead := history;
      history := history + [it.message];
      if Calls(it.message) == [] { return Answered; }
      if it.dispatch.Interrupted? { return Aborted; }
      RecordBatch(it.message, it.dispatch);
      assert history == ahead + Recorded(it.message, it.dispatch);
      match it.dispatch.next {
        case Continue => return Spent;
        case Leave => return LeftForUser;
        case Break => return Aborted;
      }
    }

    /** One iteration: `Spent` means the loop goes on. A refused compaction is only reported. */
    method Iterate(pending: seq<Message>, it: Iteration, media: map<nat, Provenance>) returns (left: seq<Message>, exit: Exit, refused: bool)
      modifies this`history
      ensures exit == Ends(it) && (refused ==> !Balanced(old(history)))
      ensures history == old(history) + (if Said(it) == [] then [] else pending) + Said(it)
      ensures left == if Said(it) == [] then pending else []
    {
      refused := false;
      var compacts: bool := *;
      if compacts {
        var cuts := SafeBoundaries(media, history);
        refused := cuts.Refuse?;
      }
      if it.NoReply? { return pending, Aborted, refused; }
      if Empty(it.message) { return pending, Spent, refused; }
      exit := TakeReply(pending, it);
      left := [];
    }

    /** Iteration `n` of a turn that began with `h0`. */
    method Step(ghost h0: seq<Message>, user: Message, script: seq<Iteration>, n: nat, pending: seq<Message>, media: map<nat, Provenance>) returns (left: seq<Message>, exit: Exit, refused: bool)
      requires n < |script|
      requires history == h0 + Entries(user, SaidBy(script), n) && pending == Unsaid(user, SaidBy(script), n)
      modifies this`history
      ensures exit == Ends(script[n]) && (refused ==> !Balanced(old(history)))
      ensures history == h0 + Entries(user, SaidBy(script), n + 1) && left == Unsaid(user, SaidBy(script), n + 1)
    {
      ghost var before, said := Entries(user, SaidBy(script), n), Said(script[n]);
      left, exit, refused := Iterate(pending, script[n], media);
      ByAt(script, n);
      EntriesStep(h0, user, before, said, pending);
    }

    /** The same, kept going. */
    method Advance(ghost h0: seq<Message>, user: Message, script: seq<Iteration>, n: nat, pending: seq<Message>, media: map<nat, Provenance>) returns (left: seq<Message>, exit: Exit, refused: bool)
      requires Plain(user) && Responses(script) && n < |script|
      requires Midway(h0, user, script, n, history, pending)
      modifies this`history
      ensures history == h0 + Entries(user, SaidBy(script), n + 1) && Excused(refused, h0)
      ensures exit != Spent ==> Played(script, n + 1, n + 1, exit)
      ensures exit == Spent ==> Midway(h0, user, script, n + 1, history, left)
    {
      if Balanced(h0) { StillComplete(h0, user, script, n); }
      left, exit, refused := Step(h0, user, script, n, pending, media);
      if exit == Spent { AllSpentStep(script, n); }
    }

    /** The loop: each iteration adds what it says, and the last one decides the exit. */
    method Loop(user: Message, script: seq<Iteration>, bound: nat, media: map<nat, Provenance>) returns (exit: Exit, refused: bool, n: nat)
      requires Plain(user) && bound <= |script| && Responses(script)
      modifies this`history
      ensures Played(script, bound, n, exit) && Excused(refused, old(history))
      ensures history == old(history) + Entries(user, SaidBy(script), n)
    {
      ghost var h0 := history;
      var pending := [user];
      refused := false;
      MidwayBegins(h0, user, script);
      for k := 0 to bound
        invariant Midway(h0, user, script, k, history, pending) && Excused(refused, h0)
      {
        var refusedNow;
        pending, exit, refusedNow := Advance(h0, user, script, k, pending, media);
        refused := refused || refusedNow;
        if exit != Spent { return exit, refused, k + 1; }
      }
      exit, n := Spent, bound;
    }

    /** A turn, on any history. The history only grows, and the user's message goes in once, just
        before the first reply that says anything. On a complete transcript compaction never meets
        unfinished tool work, and every exit leaves a complete transcript, unless the turn broke off
        while a message was open and that message reused an id answered earlier; never with fresh
        ids. Then, and from then on, the history is ruined. */
    method RunTurn(user: Message, script: seq<Iteration>, bound: nat, media: map<nat, Provenance>) returns (exit: Exit, refused: bool, ghost n: nat)
      requires user.role == User && Plain(user) && bound <= |script| && Responses(script)
      modifies this`history
      ensures old(history) <= history && Played(script, bound, n, exit)
      ensures var h := old(history) + Entries(user, SaidBy(script), n); history == if exit == Aborted then Closed(h) else h
      ensures Balanced(old(history)) ==>
                && !refused && (Balanced(history) <==> Clash(old(history), user, script, n) == {})
                && (exit != Aborted || Fresh(Elements(AllResults(old(history))), IdsBy(script)) ==> Balanced(history))
                && (Balanced(history) || Ruined(history))
      ensures Ruined(old(history)) ==> Ruined(history)
    {
      ghost var h0 := history;
      exit, refused, n := Loop(user, script, bound, media);
      PlayedIsUnbroken(script, bound, n, exit);
      if Balanced(h0) { TurnIff(h0, user, script, n, exit); }
      if Ruined(h0) { RuinedTurn(h0, user, script, n); }
      if exit == Aborted { CloseDangling(); }
    }
  }

  // ----- a history that closing could not repair -------------------------------------------------

  /** The scan refuses it whatever follows, or it has a call left open that closing takes for answered. */
  ghost predicate Ruined(h: seq<Message>) {
    ScanFrom({}, h).Refused? || (!Balanced(h) && Closed(h) == h)
  }

  lemma ClosedTwice(h: seq<Message>)
    ensures Closed(Closed(h)) == Closed(h)
  {
    var open := Unanswered(AllCalls(h), Elements(AllResults(h)));
    UnansweredElements(AllCalls(h), Elements(AllResults(h)));
    RepliesAnswer(open, AllFailed(|open|));
    CallsConcat(h, Failures(open));
    ElementsConcat(AllResults(h), open);
    UnansweredMembers(AllCalls(Closed(h)), Elements(AllResults(Closed(h))));
    ElementsEmpty(Unanswered(AllCalls(Closed(h)), Elements(AllResults(Closed(h)))));
  }

  lemma RefusedStays(h: seq<Message>, more: seq<Message>)
    requires ScanFrom({}, h).Refused?
    ensures ScanFrom({}, h + more).Refused?
  {
    ScanConcat({}, h, more);
  }

  /** A plain message after an open call makes the scan refuse the history for good. */
  lemma PlainAfterOpen(h: seq<Message>, more: seq<Message>)
    requires !Balanced(h) && more != [] && Plain(more[0])
    ensures ScanFrom({}, h + more).Refused?
  {
    ScanIffBalanced(h);
    ScanConcat({}, h, more);
    if ScanFrom({}, h).Pending? {
      var pending := ScanFrom({}, h).ids;
      assert pending + Elements([]) - Elements([]) == pending;
    }
  }

  lemma {:induction false} EntriesBegin(user: Message, said: seq<seq<Message>>, n: nat)
    requires n <= |said|
    ensures Entries(user, said, n) == [] || Entries(user, said, n)[0] == user
  {
    if n > 0 { EntriesBegin(user, said, n - 1); }
  }

  lemma RuinedGrows(h: seq<Message>, more: seq<Message>)
    requires Ruined(h) && (more == [] || Plain(more[0]))
    ensures Ruined(h + more) && Ruined(Closed(h + more))
  {
    assert h + [] == h;
    if ScanFrom({}, h).Refused? {
      RefusedStays(h, more);
    } else if more != [] {
      PlainAfterOpen(h, more);
    }
    if ScanFrom({}, h + more).Refused? {
      RefusedStays(h + more, Failures(Unanswered(AllCalls(h + more), Elements(AllResults(h + more)))));
    }
  }

  lemma RuinedIsBroken(h: seq<Message>)
    requires Ruined(h)
    ensures !Balanced(h)
  {
    ScanIffBalanced(h);
  }

  /** No later turn repairs a ruined history, however it ends. */
  lemma RuinedTurn(h0: seq<Message>, user: Message, script: seq<Iteration>, n: nat)
    requires Ruined(h0) && Plain(user) && n <= |script|
    ensures var h := h0 + Entries(user, SaidBy(script), n); Ruined(h) && Ruined(Closed(h))
  {
    EntriesBegin(user, SaidBy(script), n);
    RuinedGrows(h0, Entries(user, SaidBy(script), n));
  }

  lemma TurnIff(h0: seq<Message>, user: Message, script: seq<Iteration>, n: nat, exit: Exit)
    requires Balanced(h0) && Plain(user) && Responses(script) && n <= |script| && (n > 0 ==> Unbroken(script, n - 1))
    requires n > 0 && BreaksOpen(script[n - 1]) ==> exit == Aborted
    ensures var open := h0 + Entries(user, SaidBy(script), n);
            var h := if exit == Aborted then Closed(open) else open;
            && (Balanced(h) <==> Clash(h0, user, script, n) == {}) && (Balanced(h) || Ruined(h))
            && (exit != Aborted || Fresh(Elements(AllResults(h0)), IdsBy(script)) ==> Balanced(h))
  {
    WholeTurnIff(h0, user, script, n);
    ClosedTwice(h0 + Entries(user, SaidBy(script), n));
  }

  /** The user's message, until something has been said. */
  function Unsaid(user: Message, said: seq<seq<Message>>, n: nat): seq<Message>
    requires n <= |said|
  {
    if Entries(user, said, n) == [] then [user] else []
  }

  lemma EntriesStep(h0: seq<Message>, user: Message, before: seq<Message>, said: seq<Message>, pending: seq<Message>)
    requires pending == if before == [] then [user] else []
    ensures h0 + before + (if said == [] then [] else pending) + said == h0 + (Ahead(user, before, said) + said)
  {
  }

  lemma StillComplete(h0: seq<Message>, user: Message, script: seq<Iteration>, n: nat)
    requires Balanced(h0) && Plain(user) && Responses(script) && AllSpent(script, n)
    ensures Balanced(h0 + Entries(user, SaidBy(script), n))
  {
    SpentIsUnbroken(script, n);
    TurnSettled(h0, user, script, n);
  }

  /** A compaction may be refused only in a turn that began with a broken history. */
  ghost predicate Excused(refused: bool, h0: seq<Message>) {
    refused ==> !Balanced(h0)
  }

  /** Between two iterations. */
  ghost predicate Midway(h0: seq<Message>, user: Message, script: seq<Iteration>, n: nat, h: seq<Message>, pending: seq<Message>) {
    && AllSpent(script, n)
    && h == h0 + Entries(user, SaidBy(script), n) && pending == Unsaid(user, SaidBy(script), n)
  }

  lemma MidwayBegins(h0: seq<Message>, user: Message, script: seq<Iteration>)
    ensures Midway(h0, user, script, 0, h0, [user])
  {
  }

  lemma AllSpentStep(script: seq<Iteration>, n: nat)
    requires AllSpent(script, n) && n < |script| && Ends(script[n]) == Spent
    ensures AllSpent(script, n + 1)
  {
  }

  lemma SpentIsUnbroken(script: seq<Iteration>, n: nat)
    requires AllSpent(script, n)
    ensures Unbroken(script, n)
  {
  }

  lemma PlayedIsUnbroken(script: seq<Iteration>, bound: nat, n: nat, exit: Exit)
    requires Played(script, bound, n, exit)
    ensures n > 0 ==> Unbroken(script, n - 1)
    ensures n > 0 && BreaksOpen(script[n - 1]) ==> exit == Aborted
  {
    if n > 0 { SpentIsUnbroken(script, n - 1); }
  }
}
