/** The size of a summary request, and the search for the largest fragment that fits. */
module SummaryRequest {
  import opened Options

  // ----- JSON strings (RFC 8259, section 7) -----------------------------------------------

  function Hex(n: nat): char
    requires n < 16
  {
    "0123456789abcdef"[n]
  }

  function EscapedChar(c: char): (r: string)
    ensures 1 <= |r| <= 6
  {
    if c == '\"' || c == '\\' then ['\\', c]
    else if c == 8 as char then "\\b"
    else if c == 9 as char then "\\t"
    else if c == 10 as char then "\\n"
    else if c == 12 as char then "\\f"
    else if c == 13 as char then "\\r"
    else if c < 32 as char then "\\u00" + [Hex(c as int / 16), Hex(c as int % 16)]
    else [c]
  }

  function Escaped(s: string): string {
    if s == "" then "" else EscapedChar(s[0]) + Escaped(s[1..])
  }

  lemma {:induction false} EscapedConcat(a: string, b: string)
    ensures Escaped(a + b) == Escaped(a) + Escaped(b)
  {
    if a == "" {
      assert a + b == b;
    } else {
      assert (a + b)[1..] == a[1..] + b;
      EscapedConcat(a[1..], b);
    }
  }

  /** The characters a text takes inside a JSON string. */
  function Size(s: string): nat {
    |Escaped(s)|
  }

  lemma SizeConcat(a: string, b: string)
    ensures Size(a + b) == Size(a) + Size(b)
  {
    EscapedConcat(a, b);
  }

  function Decimal(n: nat): (r: string)
    ensures |r| > 0 && forall c :: c in r ==> '0' <= c <= '9'
  {
    if n < 10 then ["0123456789"[n]] else Decimal(n / 10) + ["0123456789"[n % 10]]
  }

  lemma {:induction false} DecimalGrows(a: nat, b: nat)
    requires a <= b
    ensures |Decimal(a)| <= |Decimal(b)|
  {
    if a >= 10 { DecimalGrows(a / 10, b / 10); }
  }

  lemma {:induction false} DigitsSize(s: string)
    requires forall c :: c in s ==> '0' <= c <= '9'
    ensures Size(s) == |s|
  {
    if s != "" {
      assert s[0] in s;
      assert forall c :: c in s[1..] ==> c in s;
      DigitsSize(s[1..]);
    }
  }

  // ----- the request ------------------------------------------------------------------------

  /** Where a message stands in the source text, with the rest of its attribution as rendered JSON. */
  datatype Fragment = Fragment(start: nat, end: nat, before: string, between: string, after: string)

  function Max(a: nat, b: nat): nat { if a >= b then a else b }

  function Min(a: nat, b: nat): nat { if a <= b then a else b }

  predicate Included(f: Fragment, offset: nat, length: nat) {
    f.start < offset + length && f.end > offset
  }

  function Attribution(f: Fragment, offset: nat, length: nat): string {
    (f.before + Decimal(Min(offset + length, f.end))) + (f.between + Decimal(Max(offset, f.start)) + f.after)
  }

  /** The attributions of the messages a fragment touches, with a separator after each. */
  function Attributions(fs: seq<Fragment>, offset: nat, length: nat): string {
    if fs == [] then ""
    else (if Included(fs[0], offset, length) then Attribution(fs[0], offset, length) + ", " else "")
         + Attributions(fs[1..], offset, length)
  }

  function DropSeparator(s: string): string {
    if |s| < 2 then "" else s[..|s| - 2]
  }

  /** The texts `head`, `middle`, `bridge` and `foot` are the rest of the payload's JSON: everything
      before the continuation flag, between it and the attributions, between those and the quoted
      text, and after it. None of them depends on how much is quoted. */
  datatype Draft = Draft(source: string, fragments: seq<Fragment>, offset: nat, head: string, middle: string, bridge: string, foot: string)

  function Flag(b: bool): string {
    if b then "true" else "false"
  }

  /** The quoted input, keys in order. */
  function Payload(d: Draft, length: nat): string
    requires d.offset + length <= |d.source|
  {
    (d.head + (Flag(d.offset + length < |d.source|) + d.middle))
    + ((DropSeparator(Attributions(d.fragments, d.offset, length)) + d.bridge)
       + (Escaped(d.source[d.offset..d.offset + length]) + d.foot))
  }

  /** `frame` counts every character of the canonical request outside the quoted input. */
  datatype Capacity = Capacity(frame: nat, charLimit: nat, charsPerToken: real, hardInput: Option<nat>)

  function CeilingDiv(chars: nat, perToken: real): int
    requires perToken > 0.0
  {
    -((-(chars as real / perToken)).Floor)
  }

  predicate FitsSize(c: Capacity, size: nat)
    requires c.charsPerToken > 0.0
  {
    c.frame + size <= c.charLimit
    && (c.hardInput.Some? ==> CeilingDiv(c.frame + size, c.charsPerToken) <= c.hardInput.value)
  }

  predicate Fits(c: Capacity, d: Draft, length: nat)
    requires c.charsPerToken > 0.0 && d.offset + length <= |d.source|
  {
    FitsSize(c, Size(Payload(d, length)))
  }

  // ----- a longer fragment never makes a smaller request ----------------------------------------

  lemma FitsSmaller(c: Capacity, a: nat, b: nat)
    requires c.charsPerToken > 0.0 && a <= b && FitsSize(c, b)
    ensures FitsSize(c, a)
  {
    var x, y := (c.frame + a) as real, (c.frame + b) as real;
    assert x / c.charsPerToken <= y / c.charsPerToken by { DivisionGrows(x, y, c.charsPerToken); }
  }

  lemma DivisionGrows(x: real, y: real, d: real)
    requires x <= y && d > 0.0
    ensures x / d <= y / d
  {
    assert (y - x) / d >= 0.0;
    assert y / d == x / d + (y - x) / d;
  }

  lemma AttributionGrows(f: Fragment, offset: nat, a: nat, b: nat)
    requires a <= b
    ensures Size(Attribution(f, offset, a)) <= Size(Attribution(f, offset, b))
  {
    var last := f.between + Decimal(Max(offset, f.start)) + f.after;
    var x, y := Decimal(Min(offset + a, f.end)), Decimal(Min(offset + b, f.end));
    DecimalGrows(Min(offset + a, f.end), Min(offset + b, f.end));
    DigitsSize(x);
    DigitsSize(y);
    SizeConcat(f.before, x);
    SizeConcat(f.before, y);
    SizeConcat(f.before + x, last);
    SizeConcat(f.before + y, last);
  }

  predicate Separated(s: string) {
    s == "" || (|s| >= 2 && s[|s| - 2..] == ", ")
  }

  lemma {:induction false} AttributionsSeparated(fs: seq<Fragment>, offset: nat, length: nat)
    ensures Separated(Attributions(fs, offset, length))
  {
    if fs != [] {
      AttributionsSeparated(fs[1..], offset, length);
      var rest := Attributions(fs[1..], offset, length);
      if rest == "" && Included(fs[0], offset, length) {
        assert Attributions(fs, offset, length) == Attribution(fs[0], offset, length) + ", ";
      }
    }
  }

  lemma {:induction false} AttributionsGrow(fs: seq<Fragment>, offset: nat, a: nat, b: nat)
    requires a <= b
    ensures Size(Attributions(fs, offset, a)) <= Size(Attributions(fs, offset, b))
    ensures Attributions(fs, offset, a) == "" || Attributions(fs, offset, b) != ""
  {
    if fs != [] {
      AttributionsGrow(fs[1..], offset, a, b);
      AttributionsSize(fs, offset, a);
      AttributionsSize(fs, offset, b);
      if Included(fs[0], offset, a) { AttributionGrows(fs[0], offset, a, b); }
    }
  }

  lemma AttributionsSize(fs: seq<Fragment>, offset: nat, length: nat)
    requires fs != []
    ensures Size(Attributions(fs, offset, length)) ==
            (if Included(fs[0], offset, length) then Size(Attribution(fs[0], offset, length)) + Size(", ") else 0)
            + Size(Attributions(fs[1..], offset, length))
  {
    SizeConcat(Attribution(fs[0], offset, length), ", ");
    SizeConcat(if Included(fs[0], offset, length) then Attribution(fs[0], offset, length) + ", " else "", Attributions(fs[1..], offset, length));
  }

  lemma DropSeparatorSize(s: string)
    requires Separated(s)
    ensures Size(DropSeparator(s)) == if s == "" then 0 else Size(s) - Size(", ")
  {
    if s != "" {
      assert s == s[..|s| - 2] + ", ";
      SizeConcat(s[..|s| - 2], ", ");
    }
  }

  lemma ListGrows(fs: seq<Fragment>, offset: nat, a: nat, b: nat)
    requires a <= b
    ensures Size(DropSeparator(Attributions(fs, offset, a))) <= Size(DropSeparator(Attributions(fs, offset, b)))
  {
    AttributionsGrow(fs, offset, a, b);
    AttributionsSeparated(fs, offset, a);
    AttributionsSeparated(fs, offset, b);
    DropSeparatorSize(Attributions(fs, offset, a));
    DropSeparatorSize(Attributions(fs, offset, b));
  }

  lemma SliceGrows(source: string, offset: nat, a: nat, b: nat)
    requires a <= b && offset + b <= |source|
    ensures Size(Escaped(source[offset..offset + a])) <= Size(Escaped(source[offset..offset + b]))
  {
    var x, y := source[offset..offset + a], source[offset + a..offset + b];
    assert source[offset..offset + b] == x + y;
    EscapedConcat(x, y);
    SizeConcat(Escaped(x), Escaped(y));
  }

  lemma FlagGrows(total: nat, a: nat, b: nat)
    requires a <= b
    ensures Size(Flag(a < total)) <= Size(Flag(b < total))
  {
    assert Size("true") == 4 by { PlainSize("true"); }
    assert Size("false") == 5 by { PlainSize("false"); }
  }

  lemma {:induction false} PlainSize(s: string)
    requires forall c :: c in s ==> 'a' <= c <= 'z'
    ensures Size(s) == |s|
  {
    if s != "" {
      assert s[0] in s;
      assert forall c :: c in s[1..] ==> c in s;
      PlainSize(s[1..]);
    }
  }

  lemma SevenParts(p: string, q: string, r: string, s: string, t: string, u: string, v: string)
    ensures Size((p + (q + r)) + ((s + t) + (u + v))) == Size(p) + Size(q) + Size(r) + Size(s) + Size(t) + Size(u) + Size(v)
  {
    SizeConcat(p + (q + r), (s + t) + (u + v));
    SizeConcat(p, q + r);
    SizeConcat(q, r);
    SizeConcat(s + t, u + v);
    SizeConcat(s, t);
    SizeConcat(u, v);
  }

  function FlagSize(d: Draft, length: nat): nat {
    Size(Flag(d.offset + length < |d.source|))
  }

  function ListSize(d: Draft, length: nat): nat {
    Size(DropSeparator(Attributions(d.fragments, d.offset, length)))
  }

  function QuoteSize(d: Draft, length: nat): nat
    requires d.offset + length <= |d.source|
  {
    Size(Escaped(d.source[d.offset..d.offset + length]))
  }

  lemma PayloadSize(d: Draft, length: nat) returns (fixed: nat, flag: nat, list: nat, quote: nat)
    requires d.offset + length <= |d.source|
    ensures fixed == Size(d.head) + Size(d.middle) + Size(d.bridge) + Size(d.foot)
    ensures flag == FlagSize(d, length) && list == ListSize(d, length) && quote == QuoteSize(d, length)
    ensures Size(Payload(d, length)) == fixed + flag + list + quote
  {
    fixed := Size(d.head) + Size(d.middle) + Size(d.bridge) + Size(d.foot);
    flag, list, quote := FlagSize(d, length), ListSize(d, length), QuoteSize(d, length);
    SevenParts(d.head, Flag(d.offset + length < |d.source|), d.middle,
               DropSeparator(Attributions(d.fragments, d.offset, length)), d.bridge,
               Escaped(d.source[d.offset..d.offset + length]), d.foot);
  }

  lemma FlagSizeGrows(d: Draft, a: nat, b: nat)
    requires a <= b
    ensures FlagSize(d, a) <= FlagSize(d, b)
  {
    FlagGrows(|d.source|, d.offset + a, d.offset + b);
  }

  lemma ListSizeGrows(d: Draft, a: nat, b: nat)
    requires a <= b
    ensures ListSize(d, a) <= ListSize(d, b)
  {
    ListGrows(d.fragments, d.offset, a, b);
  }

  lemma QuoteSizeGrows(d: Draft, a: nat, b: nat)
    requires a <= b && d.offset + b <= |d.source|
    ensures QuoteSize(d, a) <= QuoteSize(d, b)
  {
    SliceGrows(d.source, d.offset, a, b);
  }

  lemma PayloadGrows(d: Draft, a: nat, b: nat)
    requires a <= b && d.offset + b <= |d.source|
    ensures Size(Payload(d, a)) <= Size(Payload(d, b))
  {
    var fixed1, flag1, list1, quote1 := PayloadSize(d, a);
    var fixed2, flag2, list2, quote2 := PayloadSize(d, b);
    FlagSizeGrows(d, a, b);
    ListSizeGrows(d, a, b);
    QuoteSizeGrows(d, a, b);
  }

  lemma FitsDownward(c: Capacity, d: Draft, a: nat, b: nat)
    requires c.charsPerToken > 0.0 && a <= b && d.offset + b <= |d.source| && Fits(c, d, b)
    ensures Fits(c, d, a)
  {
    PayloadGrows(d, a, b);
    FitsSmaller(c, Size(Payload(d, a)), Size(Payload(d, b)));
  }

  // ----- the search ---------------------------------------------------------------------------

  /** Nothing fits exactly when a single character does not; otherwise the longest fragment that does. */
  method BoundedSummaryRequest(c: Capacity, d: Draft) returns (length: Option<nat>)
    requires c.charsPerToken > 0.0 && d.offset < |d.source|
    ensures length.None? <==> forall n: nat :: 1 <= n && d.offset + n <= |d.source| ==> !Fits(c, d, n)
    ensures length.Some? ==> 1 <= length.value && d.offset + length.value <= |d.source| && Fits(c, d, length.value)
    ensures length.Some? ==> forall n: nat :: length.value < n && d.offset + n <= |d.source| ==> !Fits(c, d, n)
  {
    if !Fits(c, d, 1) {
      forall n: nat | 1 <= n && d.offset + n <= |d.source| ensures !Fits(c, d, n) {
        if Fits(c, d, n) { FitsDownward(c, d, 1, n); }
      }
      return None;
    }
    var low, high := 1, |d.source| - d.offset;
    while low < high
      invariant 1 <= low <= high <= |d.source| - d.offset && Fits(c, d, low)
      invariant forall n: nat :: high < n && d.offset + n <= |d.source| ==> !Fits(c, d, n)
    {
      var middle := (low + high + 1) / 2;
      if Fits(c, d, middle) {
        low := middle;
      } else {
        forall n: nat | middle <= n && d.offset + n <= |d.source| ensures !Fits(c, d, n) {
          if Fits(c, d, n) { FitsDownward(c, d, middle, n); }
        }
        high := middle - 1;
      }
    }
    return Some(low);
  }
}
