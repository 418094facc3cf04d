/** Compaction: the old prefix goes to a summariser piece by piece, and one checkpoint is published
    or nothing changes. */
module Compaction {
  import opened Options
  import opened Transcript
  import opened Boundaries
  import opened SummaryRequest
  import opened Checkpoints
  import Turn = TurnHistory

  // ----- the source text ------------------------------------------------------------------

  datatype Attribution = Attribution(before: string, between: string, after: string)

  /** The parts of the program this model takes as given: how a message renders, what a request or a
      context costs, and the texts around a quoted fragment. */
  datatype World = World(
    render: Message -> string,
    attribute: (nat, Message) -> Attribution,
    head: string, middle: nat -> string, bridge: string, foot: Option<string> -> string,
    capacity: Capacity,
    tailTokens: seq<Message> -> nat,
    report: (seq<Message>, Option<Checkpoint>) -> Report)

  datatype Report = Report(chars: nat, tokens: nat, images: nat, imageBytes: nat, imagePixels: nat)

  datatype Policy = Policy(chars: nat, tokens: Option<nat>, images: nat, imageBytes: nat, imagePixels: nat, maxSummary: nat, keepRecent: nat)

  predicate Meets(r: Report, p: Policy) {
    && r.chars <= p.chars && (p.tokens.Some? ==> r.tokens <= p.tokens.value)
    && r.images <= p.images && r.imageBytes <= p.imageBytes && r.imagePixels <= p.imagePixels
  }

  predicate Reduces(after: Report, before: Report) {
    after.chars < before.chars || after.tokens < before.tokens
  }

  /** The messages from `from` up to `to`, rendered and separated by commas. */
  function Listed(w: World, h: seq<Message>, from: nat, to: nat): string
    requires from <= to <= |h|
  {
    if from == to then "["
    else Listed(w, h, from, to - 1) + (if to - 1 > from then "," else "") + w.render(h[to - 1])
  }

  function Source(w: World, h: seq<Message>, from: nat, to: nat): string
    requires from <= to <= |h|
  {
    Listed(w, h, from, to) + "]"
  }

  /** Each fragment names the exact place of its message. */
  ghost predicate Placed(w: World, h: seq<Message>, from: nat, text: string, fs: seq<Fragment>) {
    from + |fs| <= |h|
    && forall k :: 0 <= k < |fs| ==>
      fs[k].start <= fs[k].end <= |text| && text[fs[k].start..fs[k].end] == w.render(h[from + k])
  }

  method HistorySource(w: World, h: seq<Message>, from: nat, to: nat) returns (source: string, fragments: seq<Fragment>)
    requires from <= to <= |h|
    ensures source == Source(w, h, from, to) && |fragments| == to - from
    ensures Placed(w, h, from, source, fragments)
  {
    source, fragments := "[", [];
    for k := from to to
      invariant source == Listed(w, h, from, k) && |fragments| == k - from
      invariant Placed(w, h, from, source, fragments)
    {
      ghost var before := source;
      var start := source + if k > from then "," else "";
      source := start + w.render(h[k]);
      var a := w.attribute(k, h[k]);
      PlacedSnoc(w, h, from, before, start, source, fragments, Fragment(|start|, |source|, a.before, a.between, a.after));
      fragments := fragments + [Fragment(|start|, |source|, a.before, a.between, a.after)];
    }
    PlacedLonger(w, h, from, source, source + "]", fragments);
    source := source + "]";
  }

  /** Text added at the end moves no fragment. */
  lemma PlacedLonger(w: World, h: seq<Message>, from: nat, text: string, longer: string, fs: seq<Fragment>)
    requires Placed(w, h, from, text, fs) && text <= longer
    ensures Placed(w, h, from, longer, fs)
  {
    forall k | 0 <= k < |fs|
      ensures fs[k].start <= fs[k].end <= |longer| && longer[fs[k].start..fs[k].end] == w.render(h[from + k])
    {
      assert longer[fs[k].start..fs[k].end] == text[fs[k].start..fs[k].end];
    }
  }

  lemma PlacedSnoc(w: World, h: seq<Message>, from: nat, before: string, start: string, after: string, fs: seq<Fragment>, f: Fragment)
    requires Placed(w, h, from, before, fs) && from + |fs| < |h|
    requires before <= start && after == start + w.render(h[from + |fs|]) && f.start == |start| && f.end == |after|
    ensures Placed(w, h, from, after, fs + [f])
  {
    PlacedLonger(w, h, from, before, after, fs);
    assert after[f.start..f.end] == w.render(h[from + |fs|]);
    forall k | 0 <= k < |fs + [f]|
      ensures (fs + [f])[k].start <= (fs + [f])[k].end <= |after|
              && after[(fs + [f])[k].start..(fs + [f])[k].end] == w.render(h[from + k])
    {
      assert (fs + [f])[k] == if k < |fs| then fs[k] else f;
    }
  }

  // ----- choosing a boundary ----------------------------------------------------------------

  /** Settled ends strictly between the old boundary and the end of the history, in order. */
  predicate Choices(available: seq<nat>, n: nat) {
    available != [] && Ascending(available) && forall k :: 0 <= k < |available| ==> available[k] < n
  }

  predicate KeepsRecent(w: World, p: Policy, h: seq<Message>, b: nat)
    requires b <= |h|
  {
    w.tailTokens(h[b..]) >= p.keepRecent
  }

  predicate WouldFit(w: World, p: Policy, h: seq<Message>, estimate: Checkpoint, b: nat)
    requires b <= |h|
  {
    Meets(w.report(h, Some(Moved(estimate, h, b))), p)
  }

  /** The largest boundary that keeps enough recent work; the first one if none does. */
  method SelectBoundary(w: World, p: Policy, h: seq<Message>, available: seq<nat>) returns (b: nat)
    requires Choices(available, |h|)
    ensures b in available && b < |h|
    ensures KeepsRecent(w, p, h, b) ==>
              forall k :: 0 <= k < |available| && available[k] > b ==> !KeepsRecent(w, p, h, available[k])
    ensures !KeepsRecent(w, p, h, b) ==>
              b == available[0] && forall k :: 0 <= k < |available| ==> !KeepsRecent(w, p, h, available[k])
  {
    var k := |available|;
    while k > 0
      invariant 0 <= k <= |available|
      invariant forall j :: k <= j < |available| ==> !KeepsRecent(w, p, h, available[j])
    {
      k := k - 1;
      if KeepsRecent(w, p, h, available[k]) { return available[k]; }
    }
    return available[0];
  }

  /** What a second or third attempt covers: once, the nearest later boundary that the last summary
      would make fit; otherwise everything there is. */
  method NextBoundary(w: World, p: Policy, h: seq<Message>, available: seq<nat>, b: nat, first: bool, estimate: Checkpoint) returns (next: nat)
    requires Choices(available, |h|) && b < available[|available| - 1]
    ensures next in available && b < next < |h|
    ensures !first ==> next == available[|available| - 1]
    ensures first ==> next == available[|available| - 1] || WouldFit(w, p, h, estimate, next)
    ensures first ==> forall k :: 0 <= k < |available| && b < available[k] < next ==> !WouldFit(w, p, h, estimate, available[k])
  {
    if first {
      for k := 0 to |available|
        invariant forall j :: 0 <= j < k && available[j] > b ==> !WouldFit(w, p, h, estimate, available[j])
      {
        if available[k] > b && WouldFit(w, p, h, estimate, available[k]) {
          return available[k];
        }
      }
    }
    return available[|available| - 1];
  }

  function Moved(c: Checkpoint, h: seq<Message>, b: nat): Checkpoint
    requires b <= |h|
  {
    c.(boundary := b, digest := h[..b])
  }

  lemma AscendingInit(init: seq<nat>, last: nat)
    requires Ascending(init + [last])
    ensures Ascending(init) && forall b :: b in init ==> b < last
  {
    var s := init + [last];
    assert forall i :: 0 <= i < |init| ==> init[i] == s[i] && s[i] < s[|init|];
    assert forall i, j :: 0 <= i < j < |init| ==> s[i] < s[j];
  }

  function Between(cuts: seq<nat>, base: nat, n: nat): (r: seq<nat>)
    ensures forall b :: b in r <==> b in cuts && base < b < n
    ensures Ascending(cuts) ==> Ascending(r)
    decreases |cuts|
  {
    if cuts == [] then []
    else
      var rest, last := Between(cuts[..|cuts| - 1], base, n), cuts[|cuts| - 1];
      assert cuts == cuts[..|cuts| - 1] + [last];
      assert forall b :: b in cuts <==> b in cuts[..|cuts| - 1] || b == last;
      assert Ascending(cuts) ==> Ascending(rest + [last]) by {
        if Ascending(cuts) {
          AscendingInit(cuts[..|cuts| - 1], last);
          assert forall i :: 0 <= i < |rest| ==> rest[i] in rest;
          AscendingSnoc(rest, last);
        }
      }
      if base < last < n then rest + [last] else rest
  }

  // ----- what was sent ------------------------------------------------------------------------

  /** One request: a piece of the source text, in its draft. */
  datatype Sent = Sent(draft: Draft, length: nat)

  ghost predicate WithinCapacity(w: World, x: Sent) {
    && w.capacity.charsPerToken > 0.0 && 1 <= x.length && x.draft.offset + x.length <= |x.draft.source|
    && Fits(w.capacity, x.draft, x.length)
  }

  function DraftAt(w: World, source: string, fragments: seq<Fragment>, offset: nat, previous: Option<string>): Draft {
    Draft(source, fragments, offset, w.head, w.middle(offset), w.bridge, w.foot(previous))
  }

  function Text(x: Sent): string {
    if x.draft.offset + x.length <= |x.draft.source| then x.draft.source[x.draft.offset..x.draft.offset + x.length] else ""
  }

  /** A range of messages and the requests that carried it to the summariser. */
  datatype Window = Window(from: nat, to: nat, requests: seq<Sent>)

  function Joined(requests: seq<Sent>): string {
    if requests == [] then "" else Joined(requests[..|requests| - 1]) + Text(requests[|requests| - 1])
  }

  ghost predicate Covers(w: World, h: seq<Message>, ws: seq<Window>, base: nat, end: nat) {
    Chained(ws, base, end) && forall k :: 0 <= k < |ws| ==> Carries(w, h, ws[k])
  }

  predicate Chained(ws: seq<Window>, base: nat, end: nat) {
    && ws != [] && ws[0].from == base && ws[|ws| - 1].to == end
    && (forall k :: 0 <= k < |ws| ==> ws[k].from < ws[k].to)
    && (forall k :: 0 < k < |ws| ==> ws[k - 1].to == ws[k].from)
  }

  ghost predicate Carries(w: World, h: seq<Message>, x: Window) {
    && x.from < x.to <= |h| && Joined(x.requests) == Source(w, h, x.from, x.to)
    && forall k :: 0 <= k < |x.requests| ==> WithinCapacity(w, x.requests[k])
  }

  ghost predicate Holds(x: Window, i: nat) {
    x.from <= i < x.to
  }

  lemma {:induction false} WindowsAscend(ws: seq<Window>, base: nat, end: nat, j: nat, k: nat)
    requires Chained(ws, base, end) && j < k < |ws|
    ensures ws[j].to <= ws[k].from
  {
    if j < k - 1 {
      WindowsAscend(ws, base, end, j, k - 1);
    }
  }

  /** Every message between the old boundary and the new one is summarised, and only once. */
  lemma {:induction false} SummarisedOnce(ws: seq<Window>, base: nat, end: nat, i: nat)
    requires Chained(ws, base, end) && base <= i < end
    ensures exists k :: 0 <= k < |ws| && Holds(ws[k], i)
    ensures forall j, k :: 0 <= j < k < |ws| ==> !(Holds(ws[j], i) && Holds(ws[k], i))
  {
    forall j, k | 0 <= j < k < |ws| ensures !(Holds(ws[j], i) && Holds(ws[k], i)) {
      WindowsAscend(ws, base, end, j, k);
    }
    var k := |ws| - 1;
    while i < ws[k].from
      invariant 0 <= k < |ws| && i < ws[k].to
    {
      assert k > 0;
      k := k - 1;
    }
    assert Holds(ws[k], i);
  }

  lemma ChainedSnoc(ws: seq<Window>, base: nat, x: Window)
    requires base <= x.from < x.to
    requires if ws == [] then x.from == base else Chained(ws, base, x.from)
    ensures Chained(ws + [x], base, x.to)
  {
  }

  lemma CarriesSnoc(w: World, h: seq<Message>, ws: seq<Window>, x: Window)
    requires Carries(w, h, x) && forall k :: 0 <= k < |ws| ==> Carries(w, h, ws[k])
    ensures forall k :: 0 <= k < |ws + [x]| ==> Carries(w, h, (ws + [x])[k])
  {
    var all := ws + [x];
    forall k | 0 <= k < |all| ensures Carries(w, h, all[k]) {
      assert all[k] == if k < |ws| then ws[k] else x;
    }
  }

  lemma CoversSnoc(w: World, h: seq<Message>, ws: seq<Window>, base: nat, x: Window)
    requires Carries(w, h, x) && base <= x.from
    requires if ws == [] then x.from == base else Covers(w, h, ws, base, x.from)
    ensures Covers(w, h, ws + [x], base, x.to)
  {
    ChainedSnoc(ws, base, x);
    CarriesSnoc(w, h, ws, x);
  }

  // ----- the session ------------------------------------------------------------------------

  function FreshId(checkpoints: seq<Checkpoint>): (id: nat)
    ensures forall k :: 0 <= k < |checkpoints| ==> checkpoints[k].id < id
  {
    if checkpoints == [] then 0
    else Max(checkpoints[|checkpoints| - 1].id + 1, FreshId(checkpoints[..|checkpoints| - 1]))
  }

  /** Other work may only have added turns and checkpoints of its own. */
  ghost predicate OnlyAdded(h0: seq<Message>, cs0: seq<Checkpoint>, active0: Option<nat>, foreign: seq<Checkpoint>, h: seq<Message>, cs: seq<Checkpoint>, active: Option<nat>) {
    h0 <= h && cs == cs0 + foreign && (foreign == [] ==> active == active0)
  }

  predicate Unchanged(h0: seq<Message>, cs0: seq<Checkpoint>, active0: Option<nat>, h: seq<Message>, cs: seq<Checkpoint>, active: Option<nat>) {
    h == h0 && cs == cs0 && active == active0
  }

  datatype Answer = Broken | Answer(text: string, calls: bool)

  predicate Usable(a: Answer, p: Policy) {
    a.Answer? && !a.calls && a.text != "" && |a.text| <= p.maxSummary
  }

  class Session {
    const world: World
    const media: map<nat, Provenance>
    var history: seq<Message>
    var checkpoints: seq<Checkpoint>
    var active: Option<nat>
    /** An answer was unusable, a rotation failed, the session changed underfoot, or not even one more
        character would fit into a request. */
    ghost var troubled: bool

    ghost predicate Valid()
      reads `history, `checkpoints, `active
    {
      world.capacity.charsPerToken > 0.0 && Consistent(history, checkpoints, active)
    }

    constructor (world: World, media: map<nat, Provenance>)
      requires world.capacity.charsPerToken > 0.0
      ensures Valid() && history == [] && checkpoints == []
    {
      this.world, this.media := world, media;
      history, checkpoints, active, troubled := [], [], None, false;
    }

    /** Whatever is added to the history, complete or not. */
    method Append(more: seq<Message>)
      requires Valid()
      modifies this`history
      ensures Valid() && history == old(history) + more
    {
      TurnKeepsConsistent(history, history + more, checkpoints, active);
      history := history + more;
    }

    /** A whole turn, on any history and with any exit: no checkpoint is invalidated, a complete
        history stays complete unless the turn broke off in a message that reused an answered id, and
        a ruined one stays ruined. */
    method TakeTurn(user: Message, script: seq<Turn.Iteration>, bound: nat) returns (exit: Turn.Exit, ghost n: nat)
      requires Valid() && user.role == User && Plain(user) && bound <= |script| && Turn.Responses(script)
      modifies this`history
      ensures Valid() && old(history) <= history
      ensures n <= |script|
      ensures Balanced(old(history)) ==> (Balanced(history) <==> Turn.Clash(old(history), user, script, n) == {})
      ensures Turn.Ruined(old(history)) || (Balanced(old(history)) && !Balanced(history)) ==> Turn.Ruined(history)
    {
      var turn := new Turn.Session(history);
      var refused;
      exit, refused, n := turn.RunTurn(user, script, bound, media);
      TurnKeepsConsistent(history, turn.history, checkpoints, active);
      history := turn.history;
    }

    method Publish(boundary: nat, summary: string) returns (c: Checkpoint)
      requires Valid() && 1 <= boundary <= |history| && Balanced(history[..boundary])
      modifies this`checkpoints, this`active
      ensures Valid() && checkpoints == old(checkpoints) + [c] && active == Some(c.id)
      ensures c == Checkpoint(FreshId(old(checkpoints)), boundary, history[..boundary], summary, old(active))
      ensures Find(checkpoints, c.id) == Some(c)
    {
      c := Checkpoint(FreshId(checkpoints), boundary, history[..boundary], summary, active);
      PublishKeepsConsistent(history, checkpoints, active, c);
      checkpoints := checkpoints + [c];
      active := Some(c.id);
    }

    /** Whatever else touches the session while a provider call is awaited. */
    method Await() returns (ghost foreign: seq<Checkpoint>)
      requires Valid()
      modifies this`history, this`checkpoints, this`active
      ensures Valid() && OnlyAdded(old(history), old(checkpoints), old(active), foreign, history, checkpoints, active)
    {
      var more: seq<Message> := *;
      Append(more);
      foreign := OthersPublish();
    }

    method OthersPublish() returns (ghost foreign: seq<Checkpoint>)
      requires Valid()
      modifies this`checkpoints, this`active
      ensures Valid() && checkpoints == old(checkpoints) + foreign && (foreign == [] ==> active == old(active))
    {
      foreign := [];
      var boundary := OthersCut();
      var summary: string := *;
      if boundary.Some? {
        var c := Publish(boundary.value, summary);
        foreign := [c];
      }
    }

    method OthersCut() returns (boundary: Option<nat>)
      ensures boundary.Some? ==> 1 <= boundary.value <= |history| && Balanced(history[..boundary.value])
    {
      var publishes: bool := *;
      var cuts := SafeBoundaries(media, history);
      if !publishes || cuts.Refuse? || cuts.at == [] { return None; }
      assert cuts.at[0] in cuts.at;
      CutIsPositive(media, history, cuts.at[0]);
      return Some(cuts.at[0]);
    }

    /** At any time in a session's life the projection after the active checkpoint works, and is a
        complete transcript exactly when the history is. */
    method ShowHistory(marker: Message, summary: Message) returns (p: Projection)
      requires Valid() && Plain(marker) && Plain(summary)
      ensures p.Shown? && (Balanced(p.messages) <==> Balanced(history))
    {
      if active.Some? { FoundIsSealed(history, checkpoints, active); }
      p := Project(media, history, ActiveCheckpoint(checkpoints, active), marker, summary);
    }

    /** One provider call. The answer is usable and the session's revision is unchanged, or the
        compaction is off. */
    method Ask(p: Policy) returns (answer: Option<string>, ghost foreign: seq<Checkpoint>)
      requires Valid()
      modifies this`history, this`checkpoints, this`active, this`troubled
      ensures Valid() && OnlyAdded(old(history), old(checkpoints), old(active), foreign, history, checkpoints, active)
      ensures answer.Some? ==> Unchanged(old(history), old(checkpoints), old(active), history, checkpoints, active)
      ensures answer.Some? ==> Summary(p, answer)
      ensures troubled == (old(troubled) || answer.None?)
    {
      var revision, count, current := history, |checkpoints|, active;
      foreign := Await();
      var reply: Answer := *;
      if !Usable(reply, p) || history != revision || |checkpoints| != count || active != current {
        troubled := true;
        return None, foreign;
      }
      return Some(reply.text), foreign;
    }

    /** The longest piece of the source that a request can carry next, the running summary with it. */
    method NextPiece(source: string, fragments: seq<Fragment>, offset: nat, previous: Option<string>) returns (piece: Option<Sent>)
      requires world.capacity.charsPerToken > 0.0 && offset < |source|
      ensures piece.Some? ==> WithinCapacity(world, piece.value) && piece.value.draft == DraftAt(world, source, fragments, offset, previous)
      ensures forall n: nat :: (if piece.Some? then piece.value.length else 0) < n && offset + n <= |source| ==>
                !Fits(world.capacity, DraftAt(world, source, fragments, offset, previous), n)
    {
      var d := DraftAt(world, source, fragments, offset, previous);
      var length := BoundedSummaryRequest(world.capacity, d);
      return if length.None? then None else Some(Sent(d, length.value));
    }

    /** Send the next piece of the source. */
    method SendPiece(p: Policy, source: string, fragments: seq<Fragment>, offset: nat, previous: Option<string>, ghost requests: seq<Sent>) returns (summary: Option<string>, length: nat, ghost now: seq<Sent>, ghost foreign: seq<Checkpoint>)
      requires Valid() && offset < |source| && Underway(world, source, offset, requests)
      modifies this`history, this`checkpoints, this`active, this`troubled
      ensures Valid() && OnlyAdded(old(history), old(checkpoints), old(active), foreign, history, checkpoints, active)
      ensures summary.Some? ==> Unchanged(old(history), old(checkpoints), old(active), history, checkpoints, active)
      ensures troubled == (old(troubled) || summary.None?)
      ensures summary.Some? ==> length > 0 && Underway(world, source, offset + length, now) && Summary(p, summary)
    {
      length, now := AddPiece(source, fragments, offset, previous, requests);
      if length == 0 {
        troubled := true;
        return None, 0, requests, [];
      }
      summary, foreign := Ask(p);
    }

    /** The next request, if any fits, is one more of those that quote the source from its start. */
    method AddPiece(source: string, fragments: seq<Fragment>, offset: nat, previous: Option<string>, ghost requests: seq<Sent>) returns (length: nat, ghost now: seq<Sent>)
      requires world.capacity.charsPerToken > 0.0 && offset < |source| && Underway(world, source, offset, requests)
      ensures length > 0 ==> Underway(world, source, offset + length, now)
    {
      var piece := NextPiece(source, fragments, offset, previous);
      if piece.None? { return 0, requests; }
      length, now := piece.value.length, requests + [piece.value];
      UnderwaySnoc(world, source, offset, requests, piece.value);
    }

    /** Send all of the source, the running summary with each piece. */
    method SendAll(p: Policy, source: string, fragments: seq<Fragment>, previous: Option<string>) returns (summary: Option<string>, ghost requests: seq<Sent>, ghost foreign: seq<Checkpoint>)
      requires Valid() && source != ""
      modifies this`history, this`checkpoints, this`active, this`troubled
      ensures Valid() && OnlyAdded(old(history), old(checkpoints), old(active), foreign, history, checkpoints, active)
      ensures summary.Some? ==> Unchanged(old(history), old(checkpoints), old(active), history, checkpoints, active)
      ensures troubled == (old(troubled) || summary.None?)
      ensures summary.Some? ==> Summary(p, summary) && Underway(world, source, |source|, requests)
    {
      var offset := 0;
      summary, requests, foreign := previous, [], [];
      while offset < |source|
        invariant Valid() && Unchanged(old(history), old(checkpoints), old(active), history, checkpoints, active)
        invariant troubled == old(troubled) && foreign == [] && 0 <= offset && Underway(world, source, offset, requests)
        invariant offset > 0 ==> Summary(p, summary)
        decreases |source| - offset
      {
        var length;
        summary, length, requests, foreign := SendPiece(p, source, fragments, offset, summary, requests);
        if summary.None? { return; }
        foreign := [];
        offset := offset + length;
      }
    }

    /** Send the messages from `from` up to `to`. */
    method Summarise(p: Policy, from: nat, to: nat, previous: Option<string>) returns (summary: Option<string>, ghost requests: seq<Sent>, ghost foreign: seq<Checkpoint>)
      requires Valid() && from < to <= |history|
      modifies this`history, this`checkpoints, this`active, this`troubled
      ensures Valid() && OnlyAdded(old(history), old(checkpoints), old(active), foreign, history, checkpoints, active)
      ensures summary.Some? ==> Unchanged(old(history), old(checkpoints), old(active), history, checkpoints, active)
      ensures troubled == (old(troubled) || summary.None?)
      ensures summary.Some? ==> Summary(p, summary) && Carries(world, history, Window(from, to, requests))
    {
      var source, fragments := HistorySource(world, history, from, to);
      ghost var h := history;
      summary, requests, foreign := SendAll(p, source, fragments, previous);
      if summary.Some? { AllSent(world, h, from, to, source, requests); }
    }

    /** Rotate the provider's session where it supports that, then compare revisions once more. */
    method Rotate() returns (ok: bool, ghost foreign: seq<Checkpoint>)
      requires Valid()
      modifies this`history, this`checkpoints, this`active, this`troubled
      ensures Valid() && OnlyAdded(old(history), old(checkpoints), old(active), foreign, history, checkpoints, active)
      ensures ok ==> Unchanged(old(history), old(checkpoints), old(active), history, checkpoints, active)
      ensures troubled == (old(troubled) || !ok)
    {
      var rotates: bool := *;
      if !rotates { return true, []; }
      var revision, count, current := history, |checkpoints|, active;
      foreign := Await();
      var fails: bool := *;
      ok := !fails && history == revision && |checkpoints| == count && active == current;
      troubled := troubled || !ok;
    }

    /** Summarise up to `boundary` and publish if the result is worth it. */
    method Attempt(p: Policy, before: Report, position: nat, boundary: nat, previous: Option<string>) returns (t: Tried, ghost requests: seq<Sent>, ghost foreign: seq<Checkpoint>)
      requires Valid() && position < boundary <= |history| && Balanced(history[..boundary])
      modifies this`history, this`checkpoints, this`active, this`troubled
      ensures Valid()
      ensures troubled == (old(troubled) || t.Gone?)
      ensures t.Gone? ==> OnlyAdded(old(history), old(checkpoints), old(active), foreign, history, checkpoints, active)
      ensures t.NoUse? ==> Unchanged(old(history), old(checkpoints), old(active), history, checkpoints, active) && 1 <= |t.summary| <= p.maxSummary
      ensures t.NoUse? ==> !Worthwhile(world, p, before, history, Proposed(history, checkpoints, active, boundary, t.summary))
                           && Hopeless(world, p, before, history, checkpoints, active, boundary)
      ensures t.Done? ==> Unchanged(old(history), old(checkpoints) + [t.checkpoint], Some(t.checkpoint.id), history, checkpoints, active)
      ensures t.Done? ==> Find(checkpoints, t.checkpoint.id) == Some(t.checkpoint)
      ensures t.Done? ==> t.checkpoint == Proposed(history, old(checkpoints), old(active), boundary, t.checkpoint.summary)
                          && 1 <= |t.checkpoint.summary| <= p.maxSummary && Worthwhile(world, p, before, history, t.checkpoint)
      ensures !t.Gone? ==> Carries(world, history, Window(position, boundary, requests))
    {
      var summary;
      summary, requests, foreign := Summarise(p, position, boundary, previous);
      if summary.None? { return Gone, requests, foreign; }
      var provisional := Proposed(history, checkpoints, active, boundary, summary.value);
      if !Worthwhile(world, p, before, history, provisional) {
        assert Useless(world, p, before, history, checkpoints, active, boundary, summary.value);
        return NoUse(summary.value), requests, [];
      }
      var ok;
      ok, foreign := Rotate();
      if !ok { return Gone, requests, foreign; }
      var c := Publish(boundary, summary.value);
      return Done(c), requests, [];
    }

    /** One more attempt of a compaction under way. */
    method TryNext(p: Policy, before: Report, base: nat, available: seq<nat>, position: nat, boundary: nat, summary: Option<string>, ghost windows: seq<Window>) returns (t: Tried, ghost now: seq<Window>, ghost foreign: seq<Checkpoint>)
      requires Valid() && Trying(world, media, history, base, available, position, boundary, windows)
      modifies this`history, this`checkpoints, this`active, this`troubled
      ensures Valid()
      ensures troubled == (old(troubled) || t.Gone?)
      ensures t.Gone? ==> OnlyAdded(old(history), old(checkpoints), old(active), foreign, history, checkpoints, active) && now == windows
      ensures t.NoUse? ==> Unchanged(old(history), old(checkpoints), old(active), history, checkpoints, active)
      ensures t.NoUse? ==> Hopeless(world, p, before, history, checkpoints, active, boundary)
      ensures t.Done? ==> Unchanged(old(history), old(checkpoints) + [t.checkpoint], Some(t.checkpoint.id), history, checkpoints, active)
      ensures t.Done? ==> t.checkpoint.boundary == boundary
                          && Committed(world, p, before, history, old(checkpoints), old(active), checkpoints, t.checkpoint)
      ensures !t.Gone? ==> |now| == |windows| + 1 && Covers(world, history, now, base, boundary)
    {
      ghost var requests;
      ChoiceCuts(world, media, history, base, available, position, boundary, windows);
      t, requests, foreign := Attempt(p, before, position, boundary, summary);
      now := windows;
      if !t.Gone? {
        CoversSnoc(world, history, windows, base, Window(position, boundary, requests));
        now := windows + [Window(position, boundary, requests)];
      }
    }

    /** The attempts: at most three, each over a strictly longer prefix. */
    method Attempts(p: Policy, before: Report, base: nat, available: seq<nat>, first: nat, previous: Option<string>) returns (published: Option<Checkpoint>, ghost windows: seq<Window>, ghost foreign: seq<Checkpoint>)
      requires Valid() && Trying(world, media, history, base, available, base, first, [])
      modifies this`history, this`checkpoints, this`active, this`troubled
      ensures Valid() && |windows| <= 3
      ensures published.None? ==> OnlyAdded(old(history), old(checkpoints), old(active), foreign, history, checkpoints, active)
      ensures published.None? ==> troubled || Hopeless(world, p, before, old(history), old(checkpoints), old(active), available[|available| - 1])
      ensures published.Some? ==>
                Unchanged(old(history), old(checkpoints) + [published.value], Some(published.value.id), history, checkpoints, active)
      ensures published.Some? ==>
                && published.value.boundary in available
                && Committed(world, p, before, history, old(checkpoints), old(active), checkpoints, published.value)
                && Covers(world, history, windows, base, published.value.boundary)
    {
      var last := available[|available| - 1];
      var position, boundary, summary := base, first, previous;
      windows, foreign := [], [];
      while true
        invariant Valid() && Unchanged(old(history), old(checkpoints), old(active), history, checkpoints, active)
        invariant troubled == old(troubled) && |windows| <= 2 && Trying(world, media, history, base, available, position, boundary, windows)
        invariant |windows| == 2 ==> boundary == last
        decreases |history| - boundary
      {
        var tried;
        ghost var earlier := |windows|;
        tried, windows, foreign := TryNext(p, before, base, available, position, boundary, summary, windows);
        if tried.Gone? { return None, windows, foreign; }
        if tried.Done? { return Some(tried.checkpoint), windows, []; }
        if boundary == last { return None, windows, []; }
        LastIsGreatest(available, boundary);
        var next := NextBoundary(world, p, history, available, boundary, position == base, Proposed(history, checkpoints, active, boundary, tried.summary));
        position, boundary, summary := boundary, next, Some(tried.summary);
      }
    }

    /** On success exactly one checkpoint is added, over an untouched history; otherwise this call
        has written nothing. */
    method Compact(p: Policy, enabled: bool) returns (published: Option<Checkpoint>, ghost windows: seq<Window>, ghost foreign: seq<Checkpoint>)
      requires Valid()
      modifies this`history, this`checkpoints, this`active, this`troubled
      ensures Valid() && |windows| <= 3
      ensures published.None? ==> OnlyAdded(old(history), old(checkpoints), old(active), foreign, history, checkpoints, active)
      ensures published.None? ==> !enabled || troubled || Pointless(world, p, media, old(history), old(checkpoints), old(active))
      ensures published.Some? ==>
                Unchanged(old(history), old(checkpoints) + [published.value], Some(published.value.id), history, checkpoints, active)
      ensures published.Some? ==>
                var base, c := Base(old(checkpoints), old(active)), published.value;
                && base < c.boundary < |history| && Cut(media, history, c.boundary)
                && Committed(world, p, world.report(old(history), ActiveCheckpoint(old(checkpoints), old(active))), history, old(checkpoints), old(active), checkpoints, c)
                && Covers(world, history, windows, base, c.boundary)
      ensures !enabled || !Balanced(old(history)) ==>
                published.None? && windows == [] && Unchanged(old(history), old(checkpoints), old(active), history, checkpoints, active)
    {
      windows, foreign, troubled := [], [], false;
      if !enabled { return None, [], []; }
      var previous := ActiveCheckpoint(checkpoints, active);
      var before := world.report(history, previous);
      var base := Base(checkpoints, active);
      var available := Available(base);
      if available == [] {
        if Balanced(history) { NothingBetween(world, p, media, history, checkpoints, active); }
        return None, [], [];
      }
      var boundary := SelectBoundary(world, p, history, available);
      var summary := if previous.Some? then Some(previous.value.summary) else None;
      ghost var h, cs, now := history, checkpoints, active;
      published, windows, foreign := Attempts(p, before, base, available, boundary, summary);
      AttemptsPointless(world, p, media, before, h, cs, now, available);
    }

    /** The cuts between the old boundary and the end. */
    method Available(base: nat) returns (available: seq<nat>)
      requires Valid()
      ensures if Balanced(history) then Offers(media, history, base, available) else available == []
    {
      var cuts := SafeBoundaries(media, history);
      if cuts.Refuse? { return []; }
      available := Between(cuts.at, base, |history|);
      assert forall k :: 0 <= k < |available| ==> available[k] in available;
    }
  }

  /** All places to cut strictly between `base` and the end, in order. */
  ghost predicate Offers(media: map<nat, Provenance>, h: seq<Message>, base: nat, available: seq<nat>) {
    && (forall b: nat :: b in available <==> Cut(media, h, b) && base < b < |h|)
    && Ascending(available) && forall k :: 0 <= k < |available| ==> available[k] < |h|
  }

  lemma NothingBetween(w: World, p: Policy, media: map<nat, Provenance>, h: seq<Message>, cs: seq<Checkpoint>, active: Option<nat>)
    requires Offers(media, h, Base(cs, active), [])
    ensures Pointless(w, p, media, h, cs, active)
  {
    forall b: nat | Base(cs, active) < b < |h| ensures !Cut(media, h, b) {
      assert b !in [];
    }
  }

  lemma AttemptsPointless(w: World, p: Policy, media: map<nat, Provenance>, before: Report, h: seq<Message>, cs: seq<Checkpoint>, active: Option<nat>, available: seq<nat>)
    requires Offers(media, h, Base(cs, active), available) && available != [] && before == w.report(h, ActiveCheckpoint(cs, active))
    ensures Hopeless(w, p, before, h, cs, active, available[|available| - 1]) ==> Pointless(w, p, media, h, cs, active)
  {
    var last := available[|available| - 1];
    assert last in available;
    forall a: nat | last < a < |h| ensures !Cut(media, h, a) {
      if a in available { LastIsGreatest(available, a); }
    }
    assert LastCut(media, h, last);
  }

  /** A checkpoint that is in place, was proposed for the state before, meets the budgets and helps. */
  predicate Committed(w: World, p: Policy, before: Report, h: seq<Message>, cs0: seq<Checkpoint>, active0: Option<nat>, cs: seq<Checkpoint>, c: Checkpoint) {
    && c.boundary <= |h| && c == Proposed(h, cs0, active0, c.boundary, c.summary) && Find(cs, c.id) == Some(c)
    && 1 <= |c.summary| <= p.maxSummary && Worthwhile(w, p, before, h, c)
  }

  /** Even cutting at `b` yields a summary that does not help. */
  ghost predicate Hopeless(w: World, p: Policy, before: Report, h: seq<Message>, cs: seq<Checkpoint>, active: Option<nat>, b: nat) {
    b <= |h| && exists s: string :: Useless(w, p, before, h, cs, active, b, s)
  }

  ghost predicate Useless(w: World, p: Policy, before: Report, h: seq<Message>, cs: seq<Checkpoint>, active: Option<nat>, b: nat, s: string)
    requires b <= |h|
  {
    1 <= |s| <= p.maxSummary && !Worthwhile(w, p, before, h, Proposed(h, cs, active, b, s))
  }

  /** The history is broken, there is nothing to compact, or compacting as much as possible does not
      help. */
  ghost predicate Pointless(w: World, p: Policy, media: map<nat, Provenance>, h: seq<Message>, cs: seq<Checkpoint>, active: Option<nat>) {
    || !Balanced(h)
    || (forall b: nat :: Base(cs, active) < b < |h| ==> !Cut(media, h, b))
    || exists b: nat :: LastCut(media, h, b) && Hopeless(w, p, w.report(h, ActiveCheckpoint(cs, active)), h, cs, active, b)
  }

  /** The last place to cut before the end. */
  ghost predicate LastCut(media: map<nat, Provenance>, h: seq<Message>, b: nat) {
    b < |h| && Cut(media, h, b) && forall a: nat :: b < a < |h| ==> !Cut(media, h, a)
  }

  ghost predicate Trying(w: World, media: map<nat, Provenance>, h: seq<Message>, base: nat, available: seq<nat>, position: nat, boundary: nat, windows: seq<Window>) {
    && Choices(available, |h|) && (forall b :: b in available ==> Cut(media, h, b) && base < b)
    && base <= position < boundary && boundary in available
    && (position == base <==> windows == []) && (windows != [] ==> Covers(w, h, windows, base, position))
  }

  lemma ChoiceCuts(w: World, media: map<nat, Provenance>, h: seq<Message>, base: nat, available: seq<nat>, position: nat, boundary: nat, windows: seq<Window>)
    requires Trying(w, media, h, base, available, position, boundary, windows)
    ensures boundary <= |h| && Balanced(h[..boundary])
    ensures if windows == [] then position == base else Covers(w, h, windows, base, position)
  {
  }

  lemma LastIsGreatest(s: seq<nat>, b: nat)
    requires Ascending(s) && b in s
    ensures b <= s[|s| - 1]
  {
  }

  lemma FoundIsSealed(h: seq<Message>, cs: seq<Checkpoint>, active: Option<nat>)
    requires Consistent(h, cs, active) && active.Some?
    ensures ActiveCheckpoint(cs, active).Some? && Sealed(ActiveCheckpoint(cs, active).value, h)
  {
    var c := Find(cs, active.value).value;
    var k :| 0 <= k < |cs| && cs[k] == c;
  }

  function ActiveCheckpoint(cs: seq<Checkpoint>, active: Option<nat>): Option<Checkpoint> {
    if active.None? then None else Find(cs, active.value)
  }

  function Base(cs: seq<Checkpoint>, active: Option<nat>): nat {
    if ActiveCheckpoint(cs, active).Some? then ActiveCheckpoint(cs, active).value.boundary else 0
  }

  datatype Tried = Gone | NoUse(summary: string) | Done(checkpoint: Checkpoint)

  function Proposed(h: seq<Message>, cs: seq<Checkpoint>, active: Option<nat>, boundary: nat, summary: string): Checkpoint
    requires boundary <= |h|
  {
    Checkpoint(FreshId(cs), boundary, h[..boundary], summary, active)
  }

  predicate Worthwhile(w: World, p: Policy, before: Report, h: seq<Message>, c: Checkpoint) {
    var after := w.report(h, Some(c));
    Meets(after, p) && Reduces(after, before)
  }

  /** The requests so far quote exactly the first `offset` characters. */
  ghost predicate Underway(w: World, source: string, offset: nat, requests: seq<Sent>) {
    && offset <= |source| && Joined(requests) == source[..offset]
    && (forall k :: 0 <= k < |requests| ==> WithinCapacity(w, requests[k]))
  }

  predicate Summary(p: Policy, summary: Option<string>) {
    summary.Some? && 1 <= |summary.value| <= p.maxSummary
  }

  lemma UnderwaySnoc(w: World, source: string, offset: nat, requests: seq<Sent>, x: Sent)
    requires Underway(w, source, offset, requests) && WithinCapacity(w, x)
    requires x.draft.source == source && x.draft.offset == offset
    ensures Underway(w, source, offset + x.length, requests + [x])
  {
    JoinedSnoc(requests, x, source, offset);
  }

  lemma AllSent(w: World, h: seq<Message>, from: nat, to: nat, source: string, requests: seq<Sent>)
    requires from < to <= |h| && source == Source(w, h, from, to) && Underway(w, source, |source|, requests)
    ensures Carries(w, h, Window(from, to, requests))
  {
    assert source[..|source|] == source;
  }

  lemma JoinedSnoc(requests: seq<Sent>, x: Sent, source: string, offset: nat)
    requires offset <= |source| && Joined(requests) == source[..offset]
    requires x.draft.source == source && x.draft.offset == offset && offset + x.length <= |source|
    ensures Joined(requests + [x]) == source[..offset + x.length]
  {
    assert (requests + [x])[..|requests|] == requests;
    assert source[..offset] + source[offset..offset + x.length] == source[..offset + x.length];
  }

  lemma CutIsPositive(media: map<nat, Provenance>, h: seq<Message>, b: nat)
    requires Cut(media, h, b)
    ensures 1 <= b <= |h|
  {
  }
}
