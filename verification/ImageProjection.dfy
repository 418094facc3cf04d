/** Which images a request carries: every upload, and the newest tool-made ones that still fit. */
module ImageProjection {

  datatype Part = Other(text: nat) | Image(id: nat, bytes: nat, pixels: nat) | Omitted(id: nat, bytes: nat, pixels: nat)

  datatype Message = Message(role: nat, content: seq<Part>)

  datatype Room = Room(slots: int, bytes: int, pixels: int)

  predicate Uploaded(required: set<nat>, p: Part) { p.Image? && p.id in required }

  predicate ToolMade(required: set<nat>, p: Part) { p.Image? && p.id !in required }

  function Cost(p: Part): (r: Room)
    requires p.Image?
    ensures r.slots == 1 && r.bytes >= 0 && r.pixels >= 0
  {
    Room(1, p.bytes, p.pixels)
  }

  function Plus(a: Room, b: Room): Room { Room(a.slots + b.slots, a.bytes + b.bytes, a.pixels + b.pixels) }

  function Minus(a: Room, b: Room): Room { Room(a.slots - b.slots, a.bytes - b.bytes, a.pixels - b.pixels) }

  predicate Within(a: Room, b: Room) { a.slots <= b.slots && a.bytes <= b.bytes && a.pixels <= b.pixels }

  const Nothing := Room(0, 0, 0)

  /** The images that are uploads, respectively tool-made, from position `i` on. */
  function Uploads(required: set<nat>, parts: seq<Part>, i: nat): (r: Room)
    requires i <= |parts|
    ensures Within(Nothing, r)
    decreases |parts| - i
  {
    if i == |parts| then Nothing
    else if Uploaded(required, parts[i]) then Plus(Cost(parts[i]), Uploads(required, parts, i + 1))
    else Uploads(required, parts, i + 1)
  }

  function Tools(required: set<nat>, parts: seq<Part>, i: nat): (r: Room)
    requires i <= |parts|
    ensures Within(Nothing, r)
    decreases |parts| - i
  {
    if i == |parts| then Nothing
    else if ToolMade(required, parts[i]) then Plus(Cost(parts[i]), Tools(required, parts, i + 1))
    else Tools(required, parts, i + 1)
  }

  lemma {:induction false} ToolsGrow(required: set<nat>, parts: seq<Part>, i: nat, j: nat)
    requires i <= j <= |parts|
    ensures Within(Tools(required, parts, j), Tools(required, parts, i))
    decreases j - i
  {
    if i < j { ToolsGrow(required, parts, i + 1, j); }
  }

  /** What the images at the kept positions cost together. */
  function Carried(parts: seq<Part>, keep: set<nat>, i: nat): Room
    requires i <= |parts|
    decreases |parts| - i
  {
    if i == |parts| then Nothing
    else if i in keep && parts[i].Image? then Plus(Cost(parts[i]), Carried(parts, keep, i + 1))
    else Carried(parts, keep, i + 1)
  }

  /** Every upload, and every tool-made image from `cut` on. */
  predicate KeptAt(required: set<nat>, parts: seq<Part>, cut: nat, k: nat) {
    k < |parts| && (Uploaded(required, parts[k]) || (k >= cut && ToolMade(required, parts[k])))
  }

  ghost predicate Keeps(required: set<nat>, parts: seq<Part>, keep: set<nat>, cut: nat) {
    cut <= |parts| && forall k: nat :: k in keep <==> KeptAt(required, parts, cut, k)
  }

  lemma {:induction false} CarriedTail(required: set<nat>, parts: seq<Part>, keep: set<nat>, cut: nat, i: nat)
    requires Keeps(required, parts, keep, cut) && cut <= i <= |parts|
    ensures Carried(parts, keep, i) == Plus(Uploads(required, parts, i), Tools(required, parts, i))
    decreases |parts| - i
  {
    if i == |parts| {
      assert Uploads(required, parts, i) == Nothing && Tools(required, parts, i) == Nothing;
    } else {
      CarriedTail(required, parts, keep, cut, i + 1);
      assert i in keep <==> parts[i].Image? by { assert i in keep <==> KeptAt(required, parts, cut, i); }
      PlusSplits(required, parts, keep, i);
    }
  }

  lemma PlusSplits(required: set<nat>, parts: seq<Part>, keep: set<nat>, i: nat)
    requires i < |parts| && (i in keep <==> parts[i].Image?)
    requires Carried(parts, keep, i + 1) == Plus(Uploads(required, parts, i + 1), Tools(required, parts, i + 1))
    ensures Carried(parts, keep, i) == Plus(Uploads(required, parts, i), Tools(required, parts, i))
  {
  }

  lemma {:induction false} CarriedIs(required: set<nat>, parts: seq<Part>, keep: set<nat>, cut: nat, i: nat)
    requires Keeps(required, parts, keep, cut) && i <= cut
    ensures Carried(parts, keep, i) == Plus(Uploads(required, parts, i), Tools(required, parts, cut))
    decreases |parts| - i
  {
    if i == cut {
      CarriedTail(required, parts, keep, cut, i);
    } else {
      CarriedIs(required, parts, keep, cut, i + 1);
      assert i in keep <==> KeptAt(required, parts, cut, i);
    }
  }

  /** The room left for tool-made images once the uploads are in. */
  function Spare(required: set<nat>, parts: seq<Part>, room: Room, limit: int): Room {
    var left := Minus(room, Uploads(required, parts, 0));
    left.(slots := if left.slots <= limit then left.slots else limit)
  }

  /** The kept images are the uploads and the longest newest run of tool-made ones that fits: it fits,
      or is empty, and no longer one does. */
  ghost predicate Chosen(required: set<nat>, parts: seq<Part>, room: Room, limit: int, keep: set<nat>, cut: nat) {
    var spare := Spare(required, parts, room, limit);
    && Keeps(required, parts, keep, cut)
    && (Tools(required, parts, cut) == Nothing || Within(Tools(required, parts, cut), spare))
    && forall i: nat :: i < cut ==> !Within(Tools(required, parts, i), spare)
  }

  /** The forward walk. */
  method KeepUploads(required: set<nat>, parts: seq<Part>, room: Room) returns (keep: set<nat>, left: Room)
    ensures Keeps(required, parts, keep, |parts|)
    ensures left == Minus(room, Uploads(required, parts, 0))
  {
    left, keep := room, {};
    for k := 0 to |parts|
      invariant forall j: nat :: j in keep <==> j < k && Uploaded(required, parts[j])
      invariant Minus(left, Uploads(required, parts, k)) == Minus(room, Uploads(required, parts, 0))
    {
      if Uploaded(required, parts[k]) {
        keep := keep + {k};
        left := Minus(left, Cost(parts[k]));
      }
    }
  }

  /** The walks over all parts of all messages, in order: forward for the uploads, then backward. */
  method ChooseImages(required: set<nat>, parts: seq<Part>, room: Room, limit: int) returns (keep: set<nat>, cut: nat)
    ensures Chosen(required, parts, room, limit, keep, cut)
  {
    var remaining;
    keep, remaining := KeepUploads(required, parts, room);
    remaining := remaining.(slots := if remaining.slots <= limit then remaining.slots else limit);
    ghost var spare := Spare(required, parts, room, limit);
    assert remaining == spare;
    cut := |parts|;
    while cut > 0
      invariant 0 <= cut <= |parts| && remaining == Minus(spare, Tools(required, parts, cut))
      invariant Keeps(required, parts, keep, cut)
      invariant Tools(required, parts, cut) == Nothing || Within(Tools(required, parts, cut), spare)
    {
      var p := parts[cut - 1];
      if ToolMade(required, p) {
        if remaining.slots < 1 || p.bytes > remaining.bytes || p.pixels > remaining.pixels {
          NothingLongerFits(required, parts, spare, cut);
          return;
        }
        keep := keep + {cut - 1};
        remaining := Minus(remaining, Cost(p));
      }
      cut := cut - 1;
    }
  }

  lemma NothingLongerFits(required: set<nat>, parts: seq<Part>, spare: Room, cut: nat)
    requires 0 < cut <= |parts| && !Within(Tools(required, parts, cut - 1), spare)
    ensures forall i: nat :: i < cut ==> !Within(Tools(required, parts, i), spare)
  {
    forall i: nat | i < cut ensures !Within(Tools(required, parts, i), spare) {
      ToolsGrow(required, parts, i, cut - 1);
    }
  }

  /** The images kept cost no more than the room exactly when the uploads alone do not. */
  lemma BudgetKeptIff(required: set<nat>, parts: seq<Part>, room: Room, limit: int, keep: set<nat>, cut: nat)
    requires Chosen(required, parts, room, limit, keep, cut)
    ensures Within(Carried(parts, keep, 0), room) <==> Within(Uploads(required, parts, 0), room)
    ensures Tools(required, parts, cut).slots <= 0 || Tools(required, parts, cut).slots <= limit
  {
    CarriedIs(required, parts, keep, cut, 0);
  }

  // ----- back to messages -------------------------------------------------------------------

  function Flat(messages: seq<Message>, n: nat): seq<Part>
    requires n <= |messages|
  {
    if n == 0 then [] else Flat(messages, n - 1) + messages[n - 1].content
  }

  lemma {:induction false} FlatAt(messages: seq<Message>, m: nat, n: nat)
    requires m < n <= |messages|
    ensures |Flat(messages, m)| + |messages[m].content| <= |Flat(messages, n)|
    ensures forall p :: 0 <= p < |messages[m].content| ==> Flat(messages, n)[|Flat(messages, m)| + p] == messages[m].content[p]
  {
    if m < n - 1 { FlatAt(messages, m, n - 1); }
  }

  function Shown(part: Part, kept: bool): Part {
    if part.Image? && !kept then Omitted(part.id, part.bytes, part.pixels) else part
  }

  /** Same messages in the same order, part for part; only an image that is not kept is replaced. */
  ghost predicate Shows(out: seq<Message>, messages: seq<Message>, keep: set<nat>) {
    |out| <= |messages|
    && forall m: nat :: m < |out| ==> ShowsOne(out[m], messages[m], |Flat(messages, m)|, keep)
  }

  ghost predicate ShowsOne(out: Message, message: Message, offset: nat, keep: set<nat>) {
    && out.role == message.role && |out.content| == |message.content|
    && forall p: nat :: p < |out.content| ==> out.content[p] == Shown(message.content[p], offset + p in keep)
  }

  method Rewrite(message: Message, offset: nat, keep: set<nat>) returns (out: Message)
    ensures ShowsOne(out, message, offset, keep)
  {
    var content: seq<Part> := [];
    for p := 0 to |message.content|
      invariant |content| == p
      invariant forall q: nat :: q < p ==> content[q] == Shown(message.content[q], offset + q in keep)
    {
      content := content + [Shown(message.content[p], offset + p in keep)];
    }
    return Message(message.role, content);
  }

  method ProjectImageParts(required: set<nat>, messages: seq<Message>, room: Room, limit: int) returns (out: seq<Message>, ghost keep: set<nat>, ghost cut: nat)
    ensures |out| == |messages| && forall m: nat :: m < |out| ==> KeepsFrom(out[m], messages[m], required, |Flat(messages, m)|, cut)
    ensures Shows(out, messages, keep) && Chosen(required, Flat(messages, |messages|), room, limit, keep, cut)
    ensures Within(Carried(Flat(messages, |messages|), keep, 0), room) <==> Within(Uploads(required, Flat(messages, |messages|), 0), room)
  {
    var parts := Flat(messages, |messages|);
    var chosen, c := ChooseImages(required, parts, room, limit);
    keep, cut := chosen, c;
    BudgetKeptIff(required, parts, room, limit, keep, cut);
    out := RewriteAll(messages, chosen);
    forall m: nat | m < |out| ensures KeepsFrom(out[m], messages[m], required, |Flat(messages, m)|, cut) {
      ShownFrom(out[m], messages, m, required, chosen, cut);
    }
  }

  /** In each message, whose parts begin at `offset` of the whole list, the uploads stay and the other
      images stay from `cut` on. */
  ghost predicate KeepsFrom(out: Message, message: Message, required: set<nat>, offset: nat, cut: nat) {
    && out.role == message.role && |out.content| == |message.content|
    && forall p: nat :: p < |out.content| ==>
         out.content[p] == Shown(message.content[p], Uploaded(required, message.content[p]) || offset + p >= cut)
  }

  lemma PartFrom(messages: seq<Message>, m: nat, p: nat, required: set<nat>, keep: set<nat>, cut: nat)
    requires m < |messages| && p < |messages[m].content| && Keeps(required, Flat(messages, |messages|), keep, cut)
    ensures var part, k := messages[m].content[p], |Flat(messages, m)| + p;
            Shown(part, k in keep) == Shown(part, Uploaded(required, part) || k >= cut)
  {
    FlatAt(messages, m, |messages|);
    var k := |Flat(messages, m)| + p;
    assert k in keep <==> KeptAt(required, Flat(messages, |messages|), cut, k);
  }

  lemma ShownFrom(out: Message, messages: seq<Message>, m: nat, required: set<nat>, keep: set<nat>, cut: nat)
    requires m < |messages| && ShowsOne(out, messages[m], |Flat(messages, m)|, keep)
    requires Keeps(required, Flat(messages, |messages|), keep, cut)
    ensures KeepsFrom(out, messages[m], required, |Flat(messages, m)|, cut)
  {
    forall p: nat | p < |messages[m].content| {
      PartFrom(messages, m, p, required, keep, cut);
    }
  }

  method RewriteAll(messages: seq<Message>, keep: set<nat>) returns (out: seq<Message>)
    ensures |out| == |messages| && Shows(out, messages, keep)
  {
    out := [];
    var offset := 0;
    for m := 0 to |messages|
      invariant |out| == m && offset == |Flat(messages, m)| && Shows(out, messages, keep)
    {
      var one := Rewrite(messages[m], offset, keep);
      out := out + [one];
      offset := offset + |messages[m].content|;
    }
  }

  // ----- with the images of a message not yet in the history ----------------------------------

  datatype Media = Media(uploads: int, request: Room, browser: int)

  datatype Projection = TooManyPending | Projected(messages: seq<Message>)

  method ProjectWithPending(required: set<nat>, messages: seq<Message>, pending: seq<Part>, media: Media) returns (r: Projection, ghost keep: set<nat>)
    ensures r.TooManyPending? <==> !Within(Tools({}, pending, 0), media.request.(slots := if media.uploads <= media.request.slots then media.uploads else media.request.slots))
    ensures r.Projected? ==>
              var parts, extra := Flat(messages, |messages|), Tools({}, pending, 0);
              && |r.messages| == |messages| && Shows(r.messages, messages, keep)
              && (forall k :: 0 <= k < |parts| && Uploaded(required, parts[k]) ==> k in keep)
              && (Within(Plus(extra, Carried(parts, keep, 0)), media.request)
                  <==> Within(Plus(extra, Uploads(required, parts, 0)), media.request))
  {
    var extra := Tools({}, pending, 0);
    if extra.slots > (if media.uploads <= media.request.slots then media.uploads else media.request.slots)
       || extra.bytes > media.request.bytes || extra.pixels > media.request.pixels
    {
      return TooManyPending, {};
    }
    ghost var cut;
    var out;
    out, keep, cut := ProjectImageParts(required, messages, Minus(media.request, extra), media.browser);
    return Projected(out), keep;
  }
}
