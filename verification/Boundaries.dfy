/** Where a history may be compacted, and what is left of it afterwards. */
module Boundaries {
  import opened Transcript

  datatype Provenance = UserUpload | ToolMade

  function Images(content: seq<Part>): (r: seq<nat>)
    ensures forall i :: i in r <==> Image(i) in content
  {
    if content == [] then []
    else
      assert forall p :: p in content <==> p == content[0] || p in content[1..];
      (if content[0].Image? then [content[0].image] else []) + Images(content[1..])
  }

  /** An image without a media record counts as uploaded. */
  predicate Uploaded(media: map<nat, Provenance>, image: nat) {
    image in media ==> media[image] == UserUpload
  }

  predicate IsUserRequest(media: map<nat, Provenance>, m: Message) {
    m.role == User && (Images(m.content) == [] || exists i :: i in Images(m.content) && Uploaded(media, i))
  }

  /** A tool-produced image follow-up: user role, but nobody asked anything. */
  predicate Observation(media: map<nat, Provenance>, m: Message) {
    m.role == User && !IsUserRequest(media, m)
  }

  datatype Cuts = Refuse | Cuts(at: seq<nat>)

  // ----- the cuts, stated without the scan ----------------------------------------------

  /** The last message before `b` that is not an observation is the assistant's or a tool's. */
  ghost predicate Anchored(media: map<nat, Provenance>, h: seq<Message>, b: nat)
    requires b <= |h|
  {
    exists i: nat :: AnchoredAt(media, h, i, b)
  }

  ghost predicate AnchoredAt(media: map<nat, Provenance>, h: seq<Message>, i: nat, b: nat)
    requires b <= |h|
  {
    i < b && h[i].role in {Assistant, Tool} && forall j :: i < j < b ==> Observation(media, h[j])
  }

  /** A place to cut: both halves are complete transcripts, the part before it ends in answered
      work, and no observation of that work is left behind. */
  ghost predicate Cut(media: map<nat, Provenance>, h: seq<Message>, b: nat) {
    && b <= |h| && Balanced(h[..b]) && Balanced(h[b..])
    && Anchored(media, h, b) && (b < |h| ==> !Observation(media, h[b]))
  }

  // ----- the cuts, as the scan finds them ------------------------------------------------

  ghost predicate Settles(h: seq<Message>, i: nat)
    requires i < |h|
  {
    ScanFrom({}, h[..i + 1]) == Pending({}) && (h[i].role == Assistant || Results(h[i]) != [])
  }

  function Extended(media: map<nat, Provenance>, h: seq<Message>, b: nat): (r: nat)
    requires b <= |h|
    ensures b <= r <= |h| && (forall j :: b <= j < r ==> Observation(media, h[j]))
    ensures r < |h| ==> !Observation(media, h[r])
    decreases |h| - b
  {
    if b < |h| && Observation(media, h[b]) then Extended(media, h, b + 1) else b
  }

  lemma ScanPrefix(h: seq<Message>, i: nat)
    requires i < |h|
    ensures ScanFrom({}, h[..i + 1]) ==
            match ScanFrom({}, h[..i]) case Refused => Refused case Pending(ids) => Step(ids, h[i])
  {
    assert h[..i + 1] == h[..i] + [h[i]];
    ScanConcat({}, h[..i], [h[i]]);
  }

  lemma ScanSplit(h: seq<Message>, i: nat)
    requires i <= |h|
    ensures ScanFrom({}, h) == match ScanFrom({}, h[..i]) case Refused => Refused case Pending(ids) => ScanFrom(ids, h[i..])
  {
    assert h == h[..i] + h[i..];
    ScanConcat({}, h[..i], h[i..]);
  }

  /** User and system messages are accepted only while nothing is pending, and change nothing. */
  lemma QuietStep(pending: set<Id>, m: Message)
    requires Step(pending, m).Pending? && m.role in {User, System}
    ensures pending == {} && Step(pending, m) == Pending({}) && Plain(m)
  {
    assert Calls(m) == [] && Results(m) == [];
    assert pending + Elements([]) - Elements([]) == pending;
  }

  lemma {:induction false} QuietStretch(h: seq<Message>, i: nat, b: nat)
    requires i <= b <= |h| && ScanFrom({}, h[..i]) == Pending({})
    requires ScanFrom({}, h).Pending? && forall j :: i <= j < b ==> h[j].role == User
    ensures ScanFrom({}, h[..b]) == Pending({})
  {
    if i < b {
      QuietStretch(h, i, b - 1);
      ScanPrefix(h, b - 1);
      ScanSplit(h, b);
      QuietStep({}, h[b - 1]);
    }
  }

  /** The last user message of a balanced prefix leaves what came before it balanced as well. */
  lemma {:induction false} QuietBefore(h: seq<Message>, i: nat, b: nat)
    requires i <= b <= |h| && ScanFrom({}, h[..b]) == Pending({})
    requires forall j :: i <= j < b ==> h[j].role == User
    ensures ScanFrom({}, h[..i]) == Pending({})
    decreases b - i
  {
    if i < b {
      ScanPrefix(h, b - 1);
      var ids := ScanFrom({}, h[..b - 1]).ids;
      QuietStep(ids, h[b - 1]);
      QuietBefore(h, i, b - 1);
    }
  }

  lemma SettlesIsAnchored(media: map<nat, Provenance>, h: seq<Message>, i: nat)
    requires Balanced(h) && i < |h| && Settles(h, i)
    ensures Cut(media, h, Extended(media, h, i + 1))
  {
    var b := Extended(media, h, i + 1);
    ScanIffBalanced(h);
    QuietStretch(h, i + 1, b);
    CutSafe(h, b);
    ScanPrefix(h, i);
    assert AnchoredAt(media, h, i, b);
  }

  lemma AnchoredSettles(media: map<nat, Provenance>, h: seq<Message>, b: nat) returns (i: nat)
    requires Balanced(h) && Cut(media, h, b)
    ensures i < b && Settles(h, i) && Extended(media, h, i + 1) == b
  {
    i :| AnchoredAt(media, h, i, b);
    ScanIffBalanced(h[..b]);
    QuietBefore(h, i + 1, b);
    ScanPrefix(h, i);
    ExtendedUnique(media, h, i + 1, b);
  }

  lemma {:induction false} ExtendedUnique(media: map<nat, Provenance>, h: seq<Message>, a: nat, b: nat)
    requires a <= b <= |h| && (forall j :: a <= j < b ==> Observation(media, h[j]))
    requires b < |h| ==> !Observation(media, h[b])
    ensures Extended(media, h, a) == b
    decreases b - a
  {
    if a < b { ExtendedUnique(media, h, a + 1, b); }
  }

  /** The scan finds a cut exactly where one is. */
  lemma CutIffFound(media: map<nat, Provenance>, h: seq<Message>, b: nat)
    requires Balanced(h)
    ensures Cut(media, h, b) <==> exists i: nat :: Found(media, h, i, b)
  {
    if Cut(media, h, b) {
      var i := AnchoredSettles(media, h, b);
      assert Found(media, h, i, b);
    }
    if i: nat :| Found(media, h, i, b) {
      SettlesIsAnchored(media, h, i);
    }
  }

  ghost predicate Found(media: map<nat, Provenance>, h: seq<Message>, i: nat, b: nat) {
    i < |h| && Settles(h, i) && Extended(media, h, i + 1) == b
  }

  // ----- the scan itself ----------------------------------------------------------------

  /** One message of the scan; `pending` stays as it was when the message is refused. */
  method ScanMessage(pending: set<Id>, m: Message) returns (refused: bool, left: set<Id>)
    ensures Step(pending, m) == if refused then Refused else Pending(left)
  {
    var calls, results := Calls(m), Results(m);
    left := pending;
    if m.role == Tool && results == [] { return true, pending; }
    if calls != [] {
      if pending != {} || m.role != Assistant || !AllDistinct(calls) { return true, pending; }
      left := left + Elements(calls);
    } else {
      assert left + Elements(calls) == left;
    }
    if results != [] {
      if m.role != Tool || !AllDistinct(results) || !(Elements(results) <= left) { return true, pending; }
      left := left - Elements(results);
    } else {
      assert left - Elements(results) == left;
    }
    return left != {} && calls == [] && results == [], left;
  }

  /** The comparison of a list's length with that of its set. */
  predicate AllDistinct(s: seq<Id>)
    ensures AllDistinct(s) <==> Distinct(s)
  {
    CountsDistinct(s);
    |Elements(s)| == |s|
  }

  lemma {:induction false} CountsDistinct(s: seq<Id>)
    ensures |Elements(s)| <= |s|
    ensures |Elements(s)| == |s| <==> Distinct(s)
  {
    if s == [] {
      ElementsEmpty(s);
    } else {
      var init, last := s[..|s| - 1], s[|s| - 1];
      assert s == init + [last];
      CountsDistinct(init);
      ElementsConcat(init, [last]);
      assert Elements([last]) == {last};
    }
  }

  ghost function FoundBelow(media: map<nat, Provenance>, h: seq<Message>, n: nat): seq<nat>
    requires n <= |h|
  {
    if n == 0 then []
    else FoundBelow(media, h, n - 1) + (if Settles(h, n - 1) then [Extended(media, h, n)] else [])
  }

  lemma {:induction false} FoundMembers(media: map<nat, Provenance>, h: seq<Message>, n: nat)
    requires n <= |h|
    ensures forall b :: b in FoundBelow(media, h, n) <==> exists i: nat :: i < n && Found(media, h, i, b)
  {
    if n > 0 {
      FoundMembers(media, h, n - 1);
      assert Settles(h, n - 1) ==> Found(media, h, n - 1, Extended(media, h, n));
    }
  }

  lemma {:induction false} FoundAscends(media: map<nat, Provenance>, h: seq<Message>, n: nat)
    requires n <= |h|
    ensures Ascending(FoundBelow(media, h, n))
  {
    if n > 0 {
      FoundAscends(media, h, n - 1);
      if Settles(h, n - 1) {
        var before := FoundBelow(media, h, n - 1);
        FoundMembers(media, h, n - 1);
        forall i | 0 <= i < |before| ensures before[i] < n {
          assert before[i] in before;
          LaterExtends(media, h, before[i], n - 1);
        }
        AscendingSnoc(before, Extended(media, h, n));
      }
    }
  }

  predicate Ascending(s: seq<nat>) {
    forall i, j :: 0 <= i < j < |s| ==> s[i] < s[j]
  }

  lemma AscendingSnoc(s: seq<nat>, x: nat)
    requires Ascending(s) && forall i :: 0 <= i < |s| ==> s[i] < x
    ensures Ascending(s + [x])
  {
  }

  /** Tool-produced image observations belong to the batch before them. */
  method SkipObservations(media: map<nat, Provenance>, h: seq<Message>, from: nat) returns (boundary: nat)
    requires from <= |h|
    ensures boundary == Extended(media, h, from)
  {
    boundary := from;
    while boundary < |h| && Observation(media, h[boundary])
      invariant from <= boundary <= |h|
      invariant Extended(media, h, boundary) == Extended(media, h, from)
    {
      boundary := boundary + 1;
    }
  }

  lemma FoundStep(media: map<nat, Provenance>, h: seq<Message>, index: nat, left: set<Id>)
    requires index < |h| && ScanFrom({}, h[..index + 1]) == Pending(left)
    ensures FoundBelow(media, h, index + 1) == FoundBelow(media, h, index)
            + (if left == {} && (h[index].role == Assistant || Results(h[index]) != []) then [Extended(media, h, index + 1)] else [])
  {
  }

  lemma RefusedIsMalformed(h: seq<Message>, index: nat)
    requires index < |h| && ScanFrom({}, h[..index + 1]).Refused?
    ensures !Balanced(h)
  {
    ScanSplit(h, index + 1);
    ScanIffBalanced(h);
  }

  lemma ScanEnds(h: seq<Message>, pending: set<Id>)
    requires ScanFrom({}, h[..|h|]) == Pending(pending)
    ensures Balanced(h) <==> pending == {}
  {
    assert h[..|h|] == h;
    ScanIffBalanced(h);
  }

  /** The settled prefix ends of a history, in order; refused exactly when a call is unanswered, a
      result unasked for, or a message malformed. They come out ascending, so sorting the set of
      them changes nothing. */
  method SafeBoundaries(media: map<nat, Provenance>, h: seq<Message>) returns (r: Cuts)
    ensures r.Refuse? <==> !Balanced(h)
    ensures r.Cuts? ==> forall b :: b in r.at <==> Cut(media, h, b)
    ensures r.Cuts? ==> Ascending(r.at)
  {
    var pending: set<Id> := {};
    var at: seq<nat> := [];
    for index := 0 to |h|
      invariant ScanFrom({}, h[..index]) == Pending(pending)
      invariant at == FoundBelow(media, h, index)
    {
      ScanPrefix(h, index);
      var refused, left := ScanMessage(pending, h[index]);
      if refused {
        RefusedIsMalformed(h, index);
        return Refuse;
      }
      FoundStep(media, h, index, left);
      pending := left;
      if pending == {} && (h[index].role == Assistant || Results(h[index]) != []) {
        var boundary := SkipObservations(media, h, index + 1);
        at := at + [boundary];
      }
    }
    ScanEnds(h, pending);
    if pending != {} { return Refuse; }
    FoundAreCuts(media, h);
    return Cuts(at);
  }

  lemma FoundAreCuts(media: map<nat, Provenance>, h: seq<Message>)
    requires Balanced(h)
    ensures var at := FoundBelow(media, h, |h|);
            && (forall b :: b in at <==> Cut(media, h, b))
            && Ascending(at)
  {
    FoundAscends(media, h, |h|);
    FoundMembers(media, h, |h|);
    forall b: nat ensures b in FoundBelow(media, h, |h|) <==> Cut(media, h, b) {
      CutIffFound(media, h, b);
    }
  }

  /** A message that settles is no observation, so an earlier boundary stops at it or before. */
  lemma LaterExtends(media: map<nat, Provenance>, h: seq<Message>, last: nat, index: nat)
    requires index < |h| && Settles(h, index)
    requires exists i: nat :: i < index && Found(media, h, i, last)
    ensures last <= index
  {
    ScanPrefix(h, index);
    var i: nat :| i < index && Found(media, h, i, last);
    if h[index].role == User { QuietStep(ScanFrom({}, h[..index]).ids, h[index]); }
    assert !Observation(media, h[index]);
  }
}
