/** Checkpoints over a growing history, and what the model is shown after one. */
module Checkpoints {
  import opened Options
  import opened Transcript
  import opened Boundaries

  /** The digest is the covered prefix itself: the hash is taken to be injective. */
  datatype Checkpoint = Checkpoint(id: nat, boundary: nat, digest: seq<Message>, summary: string, previous: Option<nat>)

  // ----- the retained tail ------------------------------------------------------------------

  function LastRequest(media: map<nat, Provenance>, h: seq<Message>, b: nat): (r: Option<nat>)
    requires b <= |h|
    ensures r.Some? ==> r.value < b
  {
    if b == 0 then None
    else if IsUserRequest(media, h[b - 1]) then Some(b - 1)
    else LastRequest(media, h, b - 1)
  }

  lemma {:induction false} LastRequestIs(media: map<nat, Provenance>, h: seq<Message>, b: nat)
    requires b <= |h|
    ensures var r := LastRequest(media, h, b);
            && (r.None? <==> forall k :: 0 <= k < b ==> !IsUserRequest(media, h[k]))
            && (r.Some? ==> IsUserRequest(media, h[r.value]) && forall k :: r.value < k < b ==> !IsUserRequest(media, h[k]))
  {
    if b > 0 && !IsUserRequest(media, h[b - 1]) { LastRequestIs(media, h, b - 1); }
  }

  /** The tail from `b`, after the request it still belongs to. */
  function Retained(media: map<nat, Provenance>, h: seq<Message>, b: nat): seq<Message>
    requires b <= |h|
  {
    var tail := h[b..];
    var request := LastRequest(media, h, b);
    if tail != [] && !IsUserRequest(media, tail[0]) && request.Some? then [h[request.value]] + tail else tail
  }

  method RetainedHistory(media: map<nat, Provenance>, h: seq<Message>, active: Option<Checkpoint>) returns (r: seq<Message>)
    requires active.Some? ==> active.value.boundary <= |h|
    ensures r == if active.None? then h else Retained(media, h, active.value.boundary)
  {
    if active.None? { return h; }
    var boundary := active.value.boundary;
    var tail := h[boundary..];
    if tail != [] && !IsUserRequest(media, tail[0]) {
      var k := boundary;
      while k > 0
        invariant k <= boundary && LastRequest(media, h, boundary) == LastRequest(media, h, k)
      {
        k := k - 1;
        if IsUserRequest(media, h[k]) { return [h[k]] + tail; }
      }
    }
    return tail;
  }

  lemma UserIsPlain(h: seq<Message>, b: nat, k: nat)
    requires k < b <= |h| && Balanced(h[..b]) && h[k].role == User
    ensures Plain(h[k])
  {
    ScanIffBalanced(h[..b]);
    ScanSplit(h[..b], k + 1);
    ScanPrefix(h[..b], k);
    QuietStep(ScanFrom({}, h[..b][..k]).ids, h[k]);
  }

  lemma PrependPlain(m: Message, h: seq<Message>)
    requires Plain(m)
    ensures Balanced([m] + h) <==> Balanced(h)
  {
    assert ([m] + h)[1..] == h;
    assert {} + Elements([]) - Elements([]) == {};
    assert Step({}, m) == Pending({});
    ScanIffBalanced(h);
    ScanIffBalanced([m] + h);
  }

  lemma TailDecides(h: seq<Message>, b: nat)
    requires b <= |h| && Balanced(h[..b])
    ensures Balanced(h[b..]) <==> Balanced(h)
  {
    ScanIffBalanced(h[..b]);
    ScanSplit(h, b);
    ScanIffBalanced(h[b..]);
    ScanIffBalanced(h);
  }

  /** After a cut the projection is a complete transcript exactly when the whole history still is,
      and opens with a user request if and only if there is one at or before the cut. */
  lemma RetainedIsTranscript(media: map<nat, Provenance>, h: seq<Message>, b: nat)
    requires b <= |h| && Balanced(h[..b])
    ensures Balanced(Retained(media, h, b)) <==> Balanced(h)
    ensures b < |h| ==>
              (IsUserRequest(media, Retained(media, h, b)[0]) <==> exists k :: 0 <= k <= b && IsUserRequest(media, h[k]))
  {
    var request := LastRequest(media, h, b);
    TailDecides(h, b);
    LastRequestIs(media, h, b);
    if b < |h| && !IsUserRequest(media, h[b]) && request.Some? {
      UserIsPlain(h, b, request.value);
      PrependPlain(h[request.value], h[b..]);
    }
  }

  // ----- a session's checkpoints over its whole life -------------------------------------------

  ghost predicate Sealed(c: Checkpoint, h: seq<Message>) {
    1 <= c.boundary <= |h| && c.digest == h[..c.boundary] && Balanced(h[..c.boundary])
  }

  function Find(checkpoints: seq<Checkpoint>, id: nat): (r: Option<Checkpoint>)
    ensures r.Some? ==> r.value in checkpoints && r.value.id == id
    ensures r.None? <==> forall k :: 0 <= k < |checkpoints| ==> checkpoints[k].id != id
  {
    if checkpoints == [] then None
    else if checkpoints[0].id == id then Some(checkpoints[0])
    else Find(checkpoints[1..], id)
  }

  /** What a serialised session must satisfy, and more: every checkpoint still matches its prefix. */
  ghost predicate Consistent(h: seq<Message>, checkpoints: seq<Checkpoint>, active: Option<nat>) {
    && (forall k :: 0 <= k < |checkpoints| ==> Sealed(checkpoints[k], h))
    && (forall j, k :: 0 <= j < k < |checkpoints| ==> checkpoints[j].id != checkpoints[k].id)
    && (forall k :: 0 <= k < |checkpoints| && checkpoints[k].previous.Some? ==>
                      Find(checkpoints, checkpoints[k].previous.value).Some?)
    && (active.Some? ==> Find(checkpoints, active.value).Some?)
  }

  lemma SealedGrows(c: Checkpoint, h: seq<Message>, h': seq<Message>)
    requires Sealed(c, h) && h <= h'
    ensures Sealed(c, h')
  {
    assert h'[..c.boundary] == h[..c.boundary];
  }

  /** Turns only append, so no checkpoint is ever invalidated, whatever they leave open. */
  lemma TurnKeepsConsistent(h: seq<Message>, h': seq<Message>, checkpoints: seq<Checkpoint>, active: Option<nat>)
    requires Consistent(h, checkpoints, active) && h <= h'
    ensures Consistent(h', checkpoints, active)
  {
    forall k | 0 <= k < |checkpoints| ensures Sealed(checkpoints[k], h') {
      SealedGrows(checkpoints[k], h, h');
    }
  }

  lemma FindSnoc(checkpoints: seq<Checkpoint>, c: Checkpoint, id: nat)
    ensures Find(checkpoints, id).Some? ==> Find(checkpoints + [c], id) == Find(checkpoints, id)
    ensures Find(checkpoints, id).None? && c.id == id ==> Find(checkpoints + [c], id) == Some(c)
  {
    if checkpoints != [] {
      assert (checkpoints + [c])[1..] == checkpoints[1..] + [c];
      FindSnoc(checkpoints[1..], c, id);
    }
  }

  lemma PublishKeepsConsistent(h: seq<Message>, checkpoints: seq<Checkpoint>, active: Option<nat>, c: Checkpoint)
    requires Consistent(h, checkpoints, active) && Sealed(c, h)
    requires Find(checkpoints, c.id).None? && c.previous == active
    ensures Consistent(h, checkpoints + [c], Some(c.id)) && Find(checkpoints + [c], c.id) == Some(c)
  {
    var all := checkpoints + [c];
    FindSnoc(checkpoints, c, c.id);
    forall k | 0 <= k < |all| && all[k].previous.Some? ensures Find(all, all[k].previous.value).Some? {
      FindSnoc(checkpoints, c, all[k].previous.value);
    }
  }

  datatype Projection = BoundaryError | DigestMismatch | Shown(messages: seq<Message>)

  /** The history part of a request: a checkpoint's marker and summary before the retained tail. */
  method Project(media: map<nat, Provenance>, h: seq<Message>, active: Option<Checkpoint>, marker: Message, summary: Message) returns (p: Projection)
    requires Plain(marker) && Plain(summary)
    ensures p.BoundaryError? <==> active.Some? && active.value.boundary > |h|
    ensures p.DigestMismatch? <==> active.Some? && active.value.boundary <= |h| && h[..active.value.boundary] != active.value.digest
    ensures p.Shown? ==> p.messages == if active.None? then h else [marker, summary] + Retained(media, h, active.value.boundary)
    ensures (active.Some? ==> Sealed(active.value, h)) ==> p.Shown? && (Balanced(p.messages) <==> Balanced(h))
  {
    if active.Some? {
      if active.value.boundary > |h| { return BoundaryError; }
      if h[..active.value.boundary] != active.value.digest { return DigestMismatch; }
    }
    var tail := RetainedHistory(media, h, active);
    if active.None? { return Shown(h); }
    if Sealed(active.value, h) {
      RetainedIsTranscript(media, h, active.value.boundary);
      PrependPlain(summary, tail);
      PrependPlain(marker, [summary] + tail);
      assert [marker, summary] + tail == [marker] + ([summary] + tail);
    }
    return Shown([marker, summary] + tail);
  }
}
