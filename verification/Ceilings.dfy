/** Owner ceilings for delegated authority: merging them only narrows, and a grant stays below them. */
module Ceilings {
  import opened Options

  datatype Capability = Capability(enabled: bool, calls: nat, ttl: real, money: nat, currency: Option<string>, profiles: set<nat>)

  datatype Authority = Authority(
    enabled: bool, principals: set<nat>, defaultTtl: real, maxTtl: real, calls: nat, snapshot: nat,
    capabilities: map<string, Capability>)

  predicate CapabilityValid(c: Capability) {
    && c.ttl > 0.0 && (c.enabled ==> c.profiles != {}) && (c.money > 0 ==> c.currency.Some?)
  }

  /** What the settings' own validators demand. */
  ghost predicate Valid(a: Authority) {
    && 0.0 < a.defaultTtl <= a.maxTtl
    && forall name :: name in a.capabilities ==>
         && CapabilityValid(a.capabilities[name])
         && a.capabilities[name].calls <= a.calls && a.capabilities[name].ttl <= a.maxTtl
  }

  function MinNat(a: nat, b: nat): nat { if a <= b then a else b }

  function MinReal(a: real, b: real): real { if a <= b then a else b }

  lemma TwoElements(s: set<string>, x: string, y: string)
    requires x in s && y in s && x != y
    ensures |s| > 1
  {
    var rest := s - {x};
    assert y in rest && s == rest + {x};
    assert |rest| > 0;
  }

  // ----- the merge of several sources ------------------------------------------------------

  /** One capability as one more source narrows it; currencies are settled at the end. */
  datatype Narrowing = Narrowing(enabled: bool, calls: nat, ttl: real, money: nat, currencies: set<string>, profiles: set<nat>)

  function CurrencySet(c: Capability): set<string> {
    if c.currency.Some? then {c.currency.value} else {}
  }

  function Narrow(n: Narrowing, c: Capability): Narrowing {
    Narrowing(n.enabled && c.enabled, MinNat(n.calls, c.calls), MinReal(n.ttl, c.ttl), MinNat(n.money, c.money),
              n.currencies + CurrencySet(c), n.profiles * c.profiles)
  }

  function Settle(n: Narrowing): Capability {
    Capability(n.enabled && n.profiles != {}, n.calls, n.ttl,
               if |n.currencies| > 1 then 0 else n.money,
               if |n.currencies| == 1 then Some(Only(n.currencies)) else None,
               n.profiles)
  }

  function Only(s: set<string>): string
    requires |s| == 1
  {
    OneElement(s);
    var x :| x in s;
    x
  }

  lemma OneElement(s: set<string>)
    requires |s| == 1
    ensures forall x, y :: x in s && y in s ==> x == y
  {
    forall x, y | x in s && y in s ensures x == y {
      assert |s - {x}| == 0;
      assert y !in s - {x};
    }
  }

  function Names(sources: seq<Authority>): set<string> {
    if sources == [] then {} else Names(sources[..|sources| - 1]) + sources[|sources| - 1].capabilities.Keys
  }

  /** All ceilings of one name; the first source that has it starts the narrowing. */
  function Narrowed(sources: seq<Authority>, name: string, calls: nat, ttl: real): Option<Narrowing> {
    if sources == [] then None
    else
      var before, last := Narrowed(sources[..|sources| - 1], name, calls, ttl), sources[|sources| - 1];
      if name !in last.capabilities then before
      else
        var c := last.capabilities[name];
        if before.Some? then Some(Narrow(before.value, c))
        else Some(Narrowing(c.enabled, MinNat(calls, c.calls), MinReal(ttl, c.ttl), c.money, CurrencySet(c), c.profiles))
  }

  /** The scalar limits of all sources together. */
  datatype Limits = Limits(enabled: bool, principals: set<nat>, defaultTtl: real, maxTtl: real, calls: nat, snapshot: nat)

  function LimitsOf(sources: seq<Authority>): Limits
    requires sources != []
  {
    var last := sources[|sources| - 1];
    if |sources| == 1 then Limits(last.enabled, last.principals, last.defaultTtl, last.maxTtl, last.calls, last.snapshot)
    else
      var l := LimitsOf(sources[..|sources| - 1]);
      Limits(l.enabled && last.enabled, l.principals * last.principals, MinReal(l.defaultTtl, last.defaultTtl),
             MinReal(l.maxTtl, last.maxTtl), MinNat(l.calls, last.calls), MinNat(l.snapshot, last.snapshot))
  }

  function MergedCapability(sources: seq<Authority>, name: string): Option<Capability>
    requires sources != []
  {
    var l := LimitsOf(sources);
    match Narrowed(sources, name, l.calls, l.maxTtl)
    case None => None
    case Some(n) => Some(Settle(n))
  }

  /** `a` is the merge of `sources`. */
  ghost predicate Merges(a: Authority, sources: seq<Authority>)
    requires sources != []
  {
    var l := LimitsOf(sources);
    && a.enabled == l.enabled && a.principals == l.principals && a.maxTtl == l.maxTtl
    && a.defaultTtl == MinReal(l.maxTtl, l.defaultTtl) && a.calls == l.calls && a.snapshot == l.snapshot
    && a.capabilities.Keys == Names(sources)
    && forall name :: name in a.capabilities ==> MergedCapability(sources, name) == Some(a.capabilities[name])
  }

  lemma {:induction false} NamedIsNarrowed(sources: seq<Authority>, name: string, calls: nat, ttl: real)
    ensures Narrowed(sources, name, calls, ttl).Some? <==> name in Names(sources)
  {
    if sources != [] { NamedIsNarrowed(sources[..|sources| - 1], name, calls, ttl); }
  }

  method MergeOne(sources: seq<Authority>, name: string, calls: nat, ttl: real) returns (c: Capability)
    requires name in Names(sources)
    ensures Narrowed(sources, name, calls, ttl).Some? && c == Settle(Narrowed(sources, name, calls, ttl).value)
  {
    NamedIsNarrowed(sources, name, calls, ttl);
    var n: Option<Narrowing> := None;
    for k := 0 to |sources|
      invariant n == Narrowed(sources[..k], name, calls, ttl)
    {
      assert sources[..k + 1][..k] == sources[..k];
      if name in sources[k].capabilities {
        var c := sources[k].capabilities[name];
        n := Some(if n.Some? then Narrow(n.value, c)
                  else Narrowing(c.enabled, MinNat(calls, c.calls), MinReal(ttl, c.ttl), c.money, CurrencySet(c), c.profiles));
      }
    }
    assert sources[..|sources|] == sources;
    return Settle(n.value);
  }

  method CollectLimits(sources: seq<Authority>) returns (l: Limits, names: set<string>)
    requires sources != []
    ensures l == LimitsOf(sources) && names == Names(sources)
  {
    var first := sources[0];
    l := Limits(first.enabled, first.principals, first.defaultTtl, first.maxTtl, first.calls, first.snapshot);
    names := first.capabilities.Keys;
    assert sources[..1][..0] == [];
    for k := 1 to |sources|
      invariant l == LimitsOf(sources[..k]) && names == Names(sources[..k])
    {
      var s := sources[k];
      assert sources[..k + 1][..k] == sources[..k];
      l := Limits(l.enabled && s.enabled, l.principals * s.principals, MinReal(l.defaultTtl, s.defaultTtl),
                  MinReal(l.maxTtl, s.maxTtl), MinNat(l.calls, s.calls), MinNat(l.snapshot, s.snapshot));
      names := names + s.capabilities.Keys;
    }
    assert sources[..|sources|] == sources;
  }

  /** The merge; a single source is returned as it is. */
  method MergeAuthority(sources: seq<Authority>) returns (a: Authority)
    requires sources != [] && forall k :: 0 <= k < |sources| ==> Valid(sources[k])
    ensures Merges(a, sources) && Valid(a)
    ensures |sources| == 1 ==> a == sources[0]
  {
    var l, names := CollectLimits(sources);
    var capabilities: map<string, Capability> := map[];
    var todo := names;
    while todo != {}
      invariant todo <= names && capabilities.Keys == names - todo
      invariant forall name :: name in capabilities ==> MergedCapability(sources, name) == Some(capabilities[name])
    {
      var name :| name in todo;
      var c := MergeOne(sources, name, l.calls, l.maxTtl);
      capabilities := capabilities[name := c];
      todo := todo - {name};
    }
    a := Authority(l.enabled, l.principals, MinReal(l.maxTtl, l.defaultTtl), l.maxTtl, l.calls, l.snapshot, capabilities);
    MergeValidates(a, sources);
    if |sources| == 1 {
      MergeOfOne(a, sources[0]);
      a := sources[0];
    }
  }

  // ----- the merge validates -------------------------------------------------------------------

  /** What every narrowing of valid capabilities keeps. */
  predicate Sane(n: Narrowing, calls: nat, ttl: real) {
    && 0.0 < n.ttl <= ttl && n.calls <= calls && (n.money > 0 ==> n.currencies != {})
  }

  lemma {:induction false} NarrowedSane(sources: seq<Authority>, name: string, calls: nat, ttl: real)
    requires ttl > 0.0 && forall k :: 0 <= k < |sources| ==> Valid(sources[k])
    ensures Narrowed(sources, name, calls, ttl).Some? ==> Sane(Narrowed(sources, name, calls, ttl).value, calls, ttl)
  {
    if sources != [] {
      NarrowedSane(sources[..|sources| - 1], name, calls, ttl);
      assert Valid(sources[|sources| - 1]);
    }
  }

  lemma SettleValid(n: Narrowing, calls: nat, ttl: real)
    requires Sane(n, calls, ttl)
    ensures CapabilityValid(Settle(n)) && Settle(n).calls <= calls && Settle(n).ttl <= ttl
  {
    if n.money > 0 && |n.currencies| <= 1 {
      assert |n.currencies| != 0;
    }
  }

  lemma {:induction false} LimitsPositive(sources: seq<Authority>)
    requires sources != [] && forall k :: 0 <= k < |sources| ==> Valid(sources[k])
    ensures LimitsOf(sources).maxTtl > 0.0 && LimitsOf(sources).defaultTtl > 0.0
  {
    assert Valid(sources[|sources| - 1]);
    if |sources| > 1 { LimitsPositive(sources[..|sources| - 1]); }
  }

  lemma MergeValidates(a: Authority, sources: seq<Authority>)
    requires sources != [] && Merges(a, sources) && forall k :: 0 <= k < |sources| ==> Valid(sources[k])
    ensures Valid(a)
  {
    var l := LimitsOf(sources);
    LimitsPositive(sources);
    forall name | name in a.capabilities
      ensures CapabilityValid(a.capabilities[name]) && a.capabilities[name].calls <= a.calls && a.capabilities[name].ttl <= a.maxTtl
    {
      NarrowedSane(sources, name, l.calls, l.maxTtl);
      SettleValid(Narrowed(sources, name, l.calls, l.maxTtl).value, l.calls, l.maxTtl);
    }
  }

  lemma SettleOne(c: Capability, calls: nat, ttl: real)
    requires CapabilityValid(c) && c.calls <= calls && c.ttl <= ttl
    ensures Settle(Narrowing(c.enabled, MinNat(calls, c.calls), MinReal(ttl, c.ttl), c.money, CurrencySet(c), c.profiles)) == c
  {
    if c.currency.Some? {
      assert |CurrencySet(c)| == 1;
    }
  }

  lemma NarrowedOne(source: Authority, name: string, calls: nat, ttl: real)
    requires name in source.capabilities
    ensures var c := source.capabilities[name];
            Narrowed([source], name, calls, ttl)
            == Some(Narrowing(c.enabled, MinNat(calls, c.calls), MinReal(ttl, c.ttl), c.money, CurrencySet(c), c.profiles))
  {
    assert [source][..0] == [];
    assert Narrowed([], name, calls, ttl) == None;
  }

  /** Merging one source would change nothing, so returning it unmerged is the same thing. */
  lemma MergeOfOne(a: Authority, source: Authority)
    requires Valid(source) && Merges(a, [source])
    ensures a == source
  {
    assert Names([source]) == source.capabilities.Keys by { assert [source][..0] == []; }
    forall name | name in a.capabilities ensures name in source.capabilities && a.capabilities[name] == source.capabilities[name] {
      NarrowedOne(source, name, source.calls, source.maxTtl);
      SettleOne(source.capabilities[name], source.calls, source.maxTtl);
    }
    assert a.capabilities == source.capabilities;
  }

  // ----- the merge only narrows ------------------------------------------------------------------

  /** Authority to use one capability, `c` at most what `d` gives. */
  predicate NarrowerCapability(c: Capability, d: Capability) {
    && (c.enabled ==> d.enabled) && c.calls <= d.calls && c.ttl <= d.ttl && c.money <= d.money
    && (c.money > 0 ==> c.currency == d.currency) && c.profiles <= d.profiles
  }

  predicate NarrowerLimits(a: Authority, b: Authority) {
    && (a.enabled ==> b.enabled) && a.principals <= b.principals && a.defaultTtl <= b.defaultTtl
    && a.maxTtl <= b.maxTtl && a.calls <= b.calls && a.snapshot <= b.snapshot
  }

  ghost predicate Narrower(a: Authority, b: Authority) {
    NarrowerLimits(a, b) && a.capabilities.Keys <= b.capabilities.Keys
    && forall name :: name in a.capabilities ==> NarrowerCapability(a.capabilities[name], b.capabilities[name])
  }

  predicate AtMost(n: Narrowing, c: Capability) {
    && (n.enabled ==> c.enabled) && n.calls <= c.calls && n.ttl <= c.ttl && n.money <= c.money
    && CurrencySet(c) <= n.currencies && n.profiles <= c.profiles
  }

  lemma {:induction false} NarrowedBelowEach(sources: seq<Authority>, name: string, calls: nat, ttl: real, k: nat)
    requires k < |sources| && name in sources[k].capabilities
    ensures Narrowed(sources, name, calls, ttl).Some?
    ensures AtMost(Narrowed(sources, name, calls, ttl).value, sources[k].capabilities[name])
  {
    if k < |sources| - 1 {
      NarrowedBelowEach(sources[..|sources| - 1], name, calls, ttl, k);
    }
  }

  lemma SettleBelow(n: Narrowing, c: Capability)
    requires AtMost(n, c) && CapabilityValid(c)
    ensures NarrowerCapability(Settle(n), c)
  {
    if Settle(n).money > 0 {
      assert c.currency.Some? && c.currency.value in n.currencies;
      assert |n.currencies| == 1 by { assert n.currencies != {}; }
      OneElement(n.currencies);
    }
  }

  lemma {:induction false} LimitsBelowEach(sources: seq<Authority>, k: nat)
    requires k < |sources|
    ensures var l, s := LimitsOf(sources), sources[k];
            && (l.enabled ==> s.enabled) && l.principals <= s.principals && l.defaultTtl <= s.defaultTtl
            && l.maxTtl <= s.maxTtl && l.calls <= s.calls && l.snapshot <= s.snapshot
  {
    if k < |sources| - 1 { LimitsBelowEach(sources[..|sources| - 1], k); }
  }

  /** The merge is below every source, capability by capability; a source is silent about the
      capabilities it does not name. */
  lemma MergeBelowEach(a: Authority, sources: seq<Authority>, k: nat)
    requires k < |sources| && Merges(a, sources) && Valid(sources[k])
    ensures NarrowerLimits(a, sources[k])
    ensures forall name :: name in sources[k].capabilities ==>
              name in a.capabilities && NarrowerCapability(a.capabilities[name], sources[k].capabilities[name])
  {
    var l := LimitsOf(sources);
    LimitsBelowEach(sources, k);
    forall name | name in sources[k].capabilities
      ensures name in a.capabilities && NarrowerCapability(a.capabilities[name], sources[k].capabilities[name])
    {
      NarrowedBelowEach(sources, name, l.calls, l.maxTtl, k);
      NamedIsNarrowed(sources, name, l.calls, l.maxTtl);
      SettleBelow(Narrowed(sources, name, l.calls, l.maxTtl).value, sources[k].capabilities[name]);
    }
  }

  /** `b` is below every source, and names only capabilities that some source names. */
  ghost predicate BelowAll(b: Authority, sources: seq<Authority>) {
    && b.capabilities.Keys <= Names(sources)
    && (forall k :: 0 <= k < |sources| ==> NarrowerLimits(b, sources[k]))
    && forall k, name :: 0 <= k < |sources| && name in b.capabilities && name in sources[k].capabilities ==>
         NarrowerCapability(b.capabilities[name], sources[k].capabilities[name])
  }

  lemma {:induction false} LimitsAreGreatest(b: Authority, sources: seq<Authority>)
    requires sources != [] && forall k :: 0 <= k < |sources| ==> NarrowerLimits(b, sources[k])
    ensures var l := LimitsOf(sources);
            && (b.enabled ==> l.enabled) && b.principals <= l.principals && b.defaultTtl <= l.defaultTtl
            && b.maxTtl <= l.maxTtl && b.calls <= l.calls && b.snapshot <= l.snapshot
  {
    assert NarrowerLimits(b, sources[|sources| - 1]);
    if |sources| > 1 { LimitsAreGreatest(b, sources[..|sources| - 1]); }
  }

  /** A capability below everything narrowed so far. */
  predicate Under(c: Capability, n: Narrowing) {
    && (c.enabled ==> n.enabled) && c.calls <= n.calls && c.ttl <= n.ttl && c.money <= n.money && c.profiles <= n.profiles
    && (c.money > 0 ==> n.currencies == CurrencySet(c))
  }

  lemma {:induction false} NarrowedIsGreatest(c: Capability, sources: seq<Authority>, name: string, calls: nat, ttl: real)
    requires CapabilityValid(c) && c.calls <= calls && c.ttl <= ttl
    requires forall k :: 0 <= k < |sources| && name in sources[k].capabilities ==> NarrowerCapability(c, sources[k].capabilities[name])
    ensures Narrowed(sources, name, calls, ttl).Some? ==> Under(c, Narrowed(sources, name, calls, ttl).value)
  {
    if sources != [] {
      NarrowedIsGreatest(c, sources[..|sources| - 1], name, calls, ttl);
      var last := sources[|sources| - 1];
      assert name in last.capabilities ==> NarrowerCapability(c, last.capabilities[name]);
    }
  }

  lemma SettleIsGreatest(c: Capability, n: Narrowing)
    requires CapabilityValid(c) && Under(c, n)
    ensures NarrowerCapability(c, Settle(n))
  {
    if c.money > 0 {
      assert n.currencies == {c.currency.value} && |n.currencies| == 1;
      OneElement(n.currencies);
    } else if c.enabled {
      assert c.profiles != {} && n.profiles != {};
    }
  }

  lemma NarrowerCapabilityTrans(c: Capability, d: Capability, e: Capability)
    requires NarrowerCapability(c, d) && NarrowerCapability(d, e)
    ensures NarrowerCapability(c, e)
  {
  }

  /** The merge is the greatest authority below all its sources: a valid authority is below the merge
      if and only if it is below every source. */
  lemma MergeIsGreatest(a: Authority, sources: seq<Authority>, b: Authority)
    requires sources != [] && Merges(a, sources) && Valid(b)
    requires forall k :: 0 <= k < |sources| ==> Valid(sources[k])
    ensures Narrower(b, a) <==> BelowAll(b, sources)
  {
    if BelowAll(b, sources) {
      var l := LimitsOf(sources);
      LimitsAreGreatest(b, sources);
      forall name | name in b.capabilities ensures NarrowerCapability(b.capabilities[name], a.capabilities[name]) {
        NarrowedIsGreatest(b.capabilities[name], sources, name, l.calls, l.maxTtl);
        SettleIsGreatest(b.capabilities[name], Narrowed(sources, name, l.calls, l.maxTtl).value);
      }
    }
    if Narrower(b, a) {
      forall k | 0 <= k < |sources|
        ensures NarrowerLimits(b, sources[k])
        ensures forall name :: name in b.capabilities && name in sources[k].capabilities ==>
                  NarrowerCapability(b.capabilities[name], sources[k].capabilities[name])
      {
        MergeBelowEach(a, sources, k);
        forall name | name in b.capabilities && name in sources[k].capabilities
          ensures NarrowerCapability(b.capabilities[name], sources[k].capabilities[name])
        {
          NarrowerCapabilityTrans(b.capabilities[name], a.capabilities[name], sources[k].capabilities[name]);
        }
      }
    }
  }

  /** Two sources that name different currencies leave no money. */
  lemma ConflictLeavesNoMoney(a: Authority, sources: seq<Authority>, j: nat, k: nat, name: string)
    requires j < |sources| && k < |sources| && Merges(a, sources)
    requires name in sources[j].capabilities && name in sources[k].capabilities
    requires sources[j].capabilities[name].currency.Some? && sources[k].capabilities[name].currency.Some?
    requires sources[j].capabilities[name].currency != sources[k].capabilities[name].currency
    ensures name in a.capabilities && a.capabilities[name].money == 0 && a.capabilities[name].currency == None
  {
    var l := LimitsOf(sources);
    NarrowedBelowEach(sources, name, l.calls, l.maxTtl, j);
    NarrowedBelowEach(sources, name, l.calls, l.maxTtl, k);
    NamedIsNarrowed(sources, name, l.calls, l.maxTtl);
    var n := Narrowed(sources, name, l.calls, l.maxTtl).value;
    var x, y := sources[j].capabilities[name].currency.value, sources[k].capabilities[name].currency.value;
    TwoElements(n.currencies, x, y);
  }

  /** With tighter global limits the same ceilings narrow to the same thing or less. */
  lemma {:induction false} NarrowedTightens(sources: seq<Authority>, name: string, calls: nat, ttl: real, calls': nat, ttl': real)
    requires calls' <= calls && ttl' <= ttl
    ensures var n, n' := Narrowed(sources, name, calls, ttl), Narrowed(sources, name, calls', ttl');
            && (n.Some? <==> n'.Some?)
            && (n.Some? ==> n'.value == n.value.(calls := n'.value.calls, ttl := n'.value.ttl)
                            && n'.value.calls <= n.value.calls && n'.value.ttl <= n.value.ttl)
  {
    if sources != [] { NarrowedTightens(sources[..|sources| - 1], name, calls, ttl, calls', ttl'); }
  }

  /** One more source, as a further narrowing. */
  predicate Below(n': Narrowing, n: Narrowing) {
    && (n'.enabled ==> n.enabled) && n'.calls <= n.calls && n'.ttl <= n.ttl && n'.money <= n.money
    && n.currencies <= n'.currencies && n'.profiles <= n.profiles
  }

  lemma SettleShrinks(n': Narrowing, n: Narrowing, calls: nat, ttl: real)
    requires Below(n', n) && Sane(n, calls, ttl)
    ensures NarrowerCapability(Settle(n'), Settle(n))
  {
    if Settle(n').money > 0 {
      assert n.currencies != {} && n'.currencies != {};
      assert |n'.currencies| == 1;
      OneElement(n'.currencies);
      var x :| x in n.currencies;
      assert n.currencies == {x} == n'.currencies by {
        assert forall y :: y in n.currencies ==> y in n'.currencies;
      }
    }
  }

  lemma MoreSourcesBelow(sources: seq<Authority>, profile: Authority, name: string)
    requires sources != [] && name in Names(sources)
    ensures var l, l' := LimitsOf(sources), LimitsOf(sources + [profile]);
            var n, n' := Narrowed(sources, name, l.calls, l.maxTtl), Narrowed(sources + [profile], name, l'.calls, l'.maxTtl);
            n.Some? && n'.Some? && Below(n'.value, n.value)
  {
    var more := sources + [profile];
    assert more[..|sources|] == sources;
    var l, l' := LimitsOf(sources), LimitsOf(more);
    NamedIsNarrowed(sources, name, l.calls, l.maxTtl);
    NarrowedTightens(sources, name, l.calls, l.maxTtl, l'.calls, l'.maxTtl);
  }

  /** Adding a profile shrinks the merged authority exactly when the profile names no capability
      that nobody named before: a profile alone can introduce one. */
  lemma AddingProfileShrinksIff(sources: seq<Authority>, profile: Authority, a: Authority, b: Authority)
    requires sources != [] && (forall k :: 0 <= k < |sources| ==> Valid(sources[k])) && Valid(profile)
    requires Merges(a, sources) && Merges(b, sources + [profile])
    ensures NarrowerLimits(b, a)
    ensures forall name :: name in a.capabilities ==>
              name in b.capabilities && NarrowerCapability(b.capabilities[name], a.capabilities[name])
    ensures Narrower(b, a) <==> profile.capabilities.Keys <= a.capabilities.Keys
  {
    var more := sources + [profile];
    assert more[..|sources|] == sources;
    var l := LimitsOf(sources);
    LimitsPositive(sources);
    forall name | name in a.capabilities
      ensures name in b.capabilities && NarrowerCapability(b.capabilities[name], a.capabilities[name])
    {
      MoreSourcesBelow(sources, profile, name);
      NarrowedSane(sources, name, l.calls, l.maxTtl);
      var l' := LimitsOf(more);
      SettleShrinks(Narrowed(more, name, l'.calls, l'.maxTtl).value, Narrowed(sources, name, l.calls, l.maxTtl).value, l.calls, l.maxTtl);
    }
    assert b.capabilities.Keys == a.capabilities.Keys + profile.capabilities.Keys;
  }

  // ----- a compiled grant --------------------------------------------------------------------------

  /** What a contract asks of one capability, with what its evaluator needs. `amount` is the first
      integer among the guardrail's money fields, zero if there is none, and absent if its
      constraints are not structured. */
  datatype Request = Request(name: string, toolsPresent: bool, guardrail: bool, schemaMatches: bool, amount: Option<int>, currency: Option<string>, ownerCeiling: bool)

  datatype Contract = Contract(requests: seq<Request>, principal: nat, profiles: set<nat>, calls: nat, expires: Option<real>)

  /** The message that authorises it; `outside` if it is not one of the contract's. */
  datatype Origin = Origin(principal: nat, outside: bool)

  datatype Money = Money(amount: int, currency: Option<string>)

  datatype Grant = Grant(calls: nat, expires: real, money: Option<int>, currency: Option<string>)

  datatype Compiled = NothingToGrant | Error | Granted(grant: Grant)

  predicate Usable(a: Authority, c: Contract, q: Request) {
    && q.name in a.capabilities && a.capabilities[q.name].enabled && c.profiles <= a.capabilities[q.name].profiles
    && q.toolsPresent && q.guardrail && q.schemaMatches
  }

  /** The amounts one capability asks for: its guardrail's, and all the owner allows if its evaluator
      works under the owner's ceiling. */
  function Asks(a: Authority, q: Request): seq<Money>
    requires q.name in a.capabilities
  {
    var c := a.capabilities[q.name];
    (if q.amount.Some? then [Money(q.amount.value, q.currency)] else [])
    + (if q.ownerCeiling then [Money(c.money, c.currency)] else [])
  }

  predicate Pays(a: Authority, q: Request)
    requires q.name in a.capabilities
  {
    exists m :: m in Asks(a, q) && m.amount > 0
  }

  /** The running result of the loop over the requests. */
  datatype Tally = Tally(calls: nat, ttl: real, asked: seq<Money>, ceilings: seq<Money>)

  function Tallied(a: Authority, c: Contract, n: nat): Tally
    requires n <= |c.requests| && forall k :: 0 <= k < n ==> c.requests[k].name in a.capabilities
  {
    if n == 0 then Tally(MinNat(c.calls, a.calls), a.maxTtl, [], [])
    else
      var t, q := Tallied(a, c, n - 1), c.requests[n - 1];
      var limit := a.capabilities[q.name];
      Tally(MinNat(t.calls, limit.calls), MinReal(t.ttl, limit.ttl), t.asked + Asks(a, q),
            if Pays(a, q) then t.ceilings + [Money(limit.money, limit.currency)] else t.ceilings)
  }

  ghost predicate WithinAll(calls: nat, ttl: real, a: Authority, c: Contract, n: nat)
    requires n <= |c.requests| && forall k :: 0 <= k < n ==> c.requests[k].name in a.capabilities
  {
    && calls <= c.calls && calls <= a.calls && ttl <= a.maxTtl
    && forall k :: 0 <= k < n ==> calls <= a.capabilities[c.requests[k].name].calls && ttl <= a.capabilities[c.requests[k].name].ttl
  }

  /** The tally's limits are the largest within the contract, the policy and every chosen ceiling. */
  lemma {:induction false} TallyIsLargest(a: Authority, c: Contract, n: nat, calls: nat, ttl: real)
    requires n <= |c.requests| && forall k :: 0 <= k < n ==> c.requests[k].name in a.capabilities
    ensures WithinAll(calls, ttl, a, c, n) <==> calls <= Tallied(a, c, n).calls && ttl <= Tallied(a, c, n).ttl
  {
    if n > 0 { TallyIsLargest(a, c, n - 1, calls, ttl); }
  }

  lemma {:induction false} TallyAsked(a: Authority, c: Contract, n: nat)
    requires n <= |c.requests| && forall k :: 0 <= k < n ==> c.requests[k].name in a.capabilities
    ensures forall m :: m in Tallied(a, c, n).asked <==> exists k :: 0 <= k < n && m in Asks(a, c.requests[k])
  {
    if n > 0 { TallyAsked(a, c, n - 1); }
  }

  lemma {:induction false} TallyPaying(a: Authority, c: Contract, n: nat)
    requires n <= |c.requests| && forall k :: 0 <= k < n ==> c.requests[k].name in a.capabilities
    ensures forall m :: m in Tallied(a, c, n).ceilings <==>
              exists k :: 0 <= k < n && Pays(a, c.requests[k]) && m == Ceiling(a, c.requests[k])
  {
    if n > 0 { TallyPaying(a, c, n - 1); }
  }

  function Ceiling(a: Authority, q: Request): Money
    requires q.name in a.capabilities
  {
    Money(a.capabilities[q.name].money, a.capabilities[q.name].currency)
  }

  function MaxAmount(asked: seq<Money>): (r: int)
    ensures r >= 0 && forall m :: m in asked ==> m.amount <= r
    ensures r > 0 ==> exists m :: m in asked && m.amount == r
  {
    if asked == [] then 0
    else
      var last, rest := asked[|asked| - 1], MaxAmount(asked[..|asked| - 1]);
      assert asked == asked[..|asked| - 1] + [last];
      if last.amount > rest then last.amount else rest
  }

  function MinAmount(bound: int, ceilings: seq<Money>): (r: int)
    ensures r <= bound && forall m :: m in ceilings ==> r <= m.amount
    ensures r == bound || exists m :: m in ceilings && m.amount == r
  {
    if ceilings == [] then bound
    else
      var last, rest := ceilings[|ceilings| - 1], MinAmount(bound, ceilings[..|ceilings| - 1]);
      assert ceilings == ceilings[..|ceilings| - 1] + [last];
      if last.amount < rest then last.amount else rest
  }

  function Codes(asked: seq<Money>): set<Option<string>> {
    set m | m in asked && m.amount > 0 :: m.currency
  }

  function PolicyCodes(ceilings: seq<Money>): set<Option<string>> {
    set m | m in ceilings && m.currency.Some? :: m.currency
  }

  /** All positive amounts are in one currency, and every ceiling that pays is in it and covers them. */
  ghost predicate Covered(asked: seq<Money>, ceilings: seq<Money>) {
    (exists m :: m in asked && m.amount > 0) ==>
      exists code :: PaidIn(asked, ceilings, code)
  }

  ghost predicate PaidIn(asked: seq<Money>, ceilings: seq<Money>, code: string) {
    && (forall m :: m in asked && m.amount > 0 ==> m.currency == Some(code))
    && (forall l :: l in ceilings ==> l.currency == Some(code) && forall m :: m in asked ==> m.amount <= l.amount)
  }

  datatype Bill = TooMuch | Free | Bill(amount: int, code: string)

  method Charge(asked: seq<Money>, ceilings: seq<Money>) returns (b: Bill)
    requires (exists m :: m in asked && m.amount > 0) ==> ceilings != []
    requires forall l :: l in ceilings && l.amount > 0 ==> l.currency.Some?
    ensures Charged(b, asked, ceilings)
  {
    var requested := MaxAmount(asked);
    var codes := Codes(asked);
    if |codes| > 1 {
      ManyCodes(asked, ceilings);
      return TooMuch;
    }
    if requested <= 0 { return Free; }
    var currency := OneCode(asked, requested);
    if currency.None? || PolicyCodes(ceilings) != {currency} {
      WrongPolicy(asked, ceilings, currency);
      return TooMuch;
    }
    var limit := MinAmount(requested, ceilings);
    if limit < requested { return TooMuch; }
    assert forall l :: l in ceilings ==> l.amount > 0 && l.currency in PolicyCodes(ceilings);
    assert PaidIn(asked, ceilings, currency.value);
    return Bill(requested, currency.value);
  }

  method OneCode(asked: seq<Money>, requested: int) returns (code: Option<string>)
    requires requested > 0 && exists m :: m in asked && m.amount == requested
    requires |Codes(asked)| <= 1
    ensures forall m :: m in asked && m.amount > 0 ==> m.currency == code
  {
    var m :| m in asked && m.amount == requested;
    assert m.currency in Codes(asked);
    code := m.currency;
    assert |Codes(asked) - {code}| == 0;
    forall x | x in asked && x.amount > 0 ensures x.currency == code {
      assert x.currency in Codes(asked) && x.currency !in Codes(asked) - {code};
    }
  }

  lemma ManyCodes(asked: seq<Money>, ceilings: seq<Money>)
    requires |Codes(asked)| > 1
    ensures !Covered(asked, ceilings)
  {
    var c := PickCode(asked);
    if code :| PaidIn(asked, ceilings, code) {
      assert Codes(asked) <= {Some(code)};
      SubsetSize(Codes(asked), Some(code));
    }
  }

  lemma PickCode(asked: seq<Money>) returns (m: Money)
    requires Codes(asked) != {}
    ensures m in asked && m.amount > 0
  {
    var code :| code in Codes(asked);
    m :| m in asked && m.amount > 0 && m.currency == code;
  }

  lemma SubsetSize(s: set<Option<string>>, x: Option<string>)
    requires s <= {x}
    ensures |s| <= 1
  {
    assert s == {} || s == {x};
  }

  lemma PolicyIsCode(asked: seq<Money>, ceilings: seq<Money>, code: string)
    requires PaidIn(asked, ceilings, code) && ceilings != []
    ensures PolicyCodes(ceilings) == {Some(code)}
  {
    assert ceilings[0] in ceilings && ceilings[0].currency in PolicyCodes(ceilings);
  }

  lemma WrongPolicy(asked: seq<Money>, ceilings: seq<Money>, currency: Option<string>)
    requires (exists m :: m in asked && m.amount > 0) && ceilings != []
    requires forall m :: m in asked && m.amount > 0 ==> m.currency == currency
    requires currency.None? || PolicyCodes(ceilings) != {currency}
    ensures !Covered(asked, ceilings)
  {
    var m :| m in asked && m.amount > 0;
    if code :| PaidIn(asked, ceilings, code) {
      PolicyIsCode(asked, ceilings, code);
    }
  }

  /** The policy is on, the origin may authorise the contract, and every capability is usable. */
  predicate Authorised(a: Authority, c: Contract, o: Origin) {
    && a.enabled && o.principal == c.principal && o.principal in a.principals && !o.outside
    && forall k :: 0 <= k < |c.requests| ==> Usable(a, c, c.requests[k])
  }

  /** Contract, policy and ceilings leave at least one call, and some time. */
  ghost predicate Timely(a: Authority, c: Contract, now: real)
    requires Named(a, c)
  {
    WithinAll(1, 0.0, a, c, |c.requests|) && (c.expires.Some? ==> c.expires.value > now)
  }

  ghost predicate Grantable(a: Authority, c: Contract, o: Origin, now: real) {
    && Authorised(a, c, o) && Timely(a, c, now)
    && Covered(Tallied(a, c, |c.requests|).asked, Tallied(a, c, |c.requests|).ceilings)
  }

  predicate Named(a: Authority, c: Contract) {
    forall k :: 0 <= k < |c.requests| ==> c.requests[k].name in a.capabilities
  }

  datatype Span = Span(calls: nat, expires: real)

  /** Calls and lifetime stay within contract, policy and every chosen ceiling, and nothing larger would. */
  ghost predicate Tightest(limits: Span, a: Authority, c: Contract, now: real)
    requires Named(a, c)
  {
    && 1 <= limits.calls && now < limits.expires && (c.expires.Some? ==> limits.expires <= c.expires.value)
    && WithinAll(limits.calls, limits.expires - now, a, c, |c.requests|)
    && forall calls: nat, ttl: real :: WithinAll(calls, ttl, a, c, |c.requests|) ==>
         calls <= limits.calls && ((c.expires.Some? ==> now + ttl <= c.expires.value) ==> now + ttl <= limits.expires)
  }

  /** The money is the largest amount asked for, in the one currency of all, and every ceiling of a
      capability that asks for money covers it. */
  ghost predicate Paid(g: Grant, a: Authority, c: Contract)
    requires Named(a, c)
  {
    var asked := Tallied(a, c, |c.requests|).asked;
    if g.money.None? then g.currency.None? && forall m :: m in asked ==> m.amount <= 0
    else
      && g.money.value > 0 && g.currency.Some?
      && (exists m :: m in asked && m.amount == g.money.value)
      && (forall m :: m in asked ==> m.amount <= g.money.value && (m.amount > 0 ==> m.currency == g.currency))
      && (forall k :: 0 <= k < |c.requests| && Pays(a, c.requests[k]) ==>
            g.money.value <= Ceiling(a, c.requests[k]).amount && g.currency == Ceiling(a, c.requests[k]).currency)
  }

  lemma IsTightest(limits: Span, a: Authority, c: Contract, now: real)
    requires Named(a, c)
    requires var t := Tallied(a, c, |c.requests|);
             limits.calls == t.calls >= 1 && now < limits.expires
             && limits.expires == if c.expires.Some? then MinReal(now + t.ttl, c.expires.value) else now + t.ttl
    ensures Tightest(limits, a, c, now)
  {
    var n := |c.requests|;
    TallyIsLargest(a, c, n, limits.calls, limits.expires - now);
    forall calls: nat, ttl: real | WithinAll(calls, ttl, a, c, n)
      ensures calls <= limits.calls && ((c.expires.Some? ==> now + ttl <= c.expires.value) ==> now + ttl <= limits.expires)
    {
      TallyIsLargest(a, c, n, calls, ttl);
    }
  }

  function PriceOf(b: Bill): (Option<int>, Option<string>) {
    if b.Bill? then (Some(b.amount), Some(b.code)) else (None, None)
  }

  /** What `Charge` promises of its result. */
  ghost predicate Charged(b: Bill, asked: seq<Money>, ceilings: seq<Money>) {
    match b
    case TooMuch => !Covered(asked, ceilings)
    case Free => Covered(asked, ceilings) && forall m :: m in asked ==> m.amount <= 0
    case Bill(amount, code) =>
      && Covered(asked, ceilings) && amount > 0 && PaidIn(asked, ceilings, code) && (exists m :: m in asked && m.amount == amount)
      && (forall m :: m in asked ==> m.amount <= amount) && forall l :: l in ceilings ==> amount <= l.amount
  }

  lemma IsPaid(b: Bill, g: Grant, a: Authority, c: Contract)
    requires Named(a, c) && var t := Tallied(a, c, |c.requests|); Charged(b, t.asked, t.ceilings)
    requires !b.TooMuch? && PriceOf(b) == (g.money, g.currency)
    ensures Paid(g, a, c)
  {
    if b.Bill? {
      var t := Tallied(a, c, |c.requests|);
      forall k | 0 <= k < |c.requests| && Pays(a, c.requests[k])
        ensures b.amount <= Ceiling(a, c.requests[k]).amount && Some(b.code) == Ceiling(a, c.requests[k]).currency
      {
        TallyPaying(a, c, |c.requests|);
        assert Ceiling(a, c.requests[k]) in t.ceilings;
      }
    }
  }

  method TallyUp(a: Authority, c: Contract) returns (t: Option<Tally>)
    ensures t.None? <==> exists k :: 0 <= k < |c.requests| && !Usable(a, c, c.requests[k])
    ensures t.Some? ==> Named(a, c) && t.value == Tallied(a, c, |c.requests|)
  {
    var tally := Tally(MinNat(c.calls, a.calls), a.maxTtl, [], []);
    for k := 0 to |c.requests|
      invariant forall j :: 0 <= j < k ==> Usable(a, c, c.requests[j])
      invariant tally == Tallied(a, c, k)
    {
      var q := c.requests[k];
      if !Usable(a, c, q) { return None; }
      var limit := a.capabilities[q.name];
      tally := Tally(MinNat(tally.calls, limit.calls), MinReal(tally.ttl, limit.ttl), tally.asked + Asks(a, q),
                     if Pays(a, q) then tally.ceilings + [Ceiling(a, q)] else tally.ceilings);
    }
    return Some(tally);
  }

  /** The scope and authorisation checks. */
  method Admit(a: Authority, c: Contract, o: Origin) returns (t: Option<Tally>)
    ensures t.Some? <==> Authorised(a, c, o)
    ensures t.Some? ==> Named(a, c) && t.value == Tallied(a, c, |c.requests|)
  {
    if !a.enabled || o.principal != c.principal || o.principal !in a.principals || o.outside { return None; }
    t := TallyUp(a, c);
  }

  /** The limits on calls and lifetime. */
  method Limit(a: Authority, c: Contract, t: Tally, now: real) returns (limits: Option<Span>)
    requires Valid(a) && Named(a, c) && t == Tallied(a, c, |c.requests|)
    ensures limits.Some? <==> Timely(a, c, now)
    ensures limits.Some? ==> Tightest(limits.value, a, c, now)
  {
    TallyIsLargest(a, c, |c.requests|, 1, 0.0);
    TallyTtl(a, c, |c.requests|);
    if t.calls < 1 { return None; }
    var expires := if c.expires.Some? then MinReal(now + t.ttl, c.expires.value) else now + t.ttl;
    if expires <= now { return None; }
    IsTightest(Span(t.calls, expires), a, c, now);
    return Some(Span(t.calls, expires));
  }

  /** A grant is issued exactly to a contract the policy covers, and it is as large as contract,
      policy and every chosen ceiling together allow, no larger. */
  method Compile(a: Authority, c: Contract, o: Origin, now: real) returns (r: Compiled)
    requires Valid(a)
    ensures r.NothingToGrant? <==> c.requests == []
    ensures r.Granted? <==> c.requests != [] && Grantable(a, c, o, now)
    ensures r.Granted? ==> Tightest(Span(r.grant.calls, r.grant.expires), a, c, now) && Paid(r.grant, a, c)
  {
    if c.requests == [] { return NothingToGrant; }
    var tallied := Admit(a, c, o);
    if tallied.None? { return Error; }
    var t := tallied.value;
    var limits := Limit(a, c, t, now);
    if limits.None? { return Error; }
    TallyCeilings(a, c, |c.requests|);
    var bill := Charge(t.asked, t.ceilings);
    if bill.TooMuch? { return Error; }
    var g := Grant(limits.value.calls, limits.value.expires, PriceOf(bill).0, PriceOf(bill).1);
    IsPaid(bill, g, a, c);
    return Granted(g);
  }

  lemma {:induction false} TallyTtl(a: Authority, c: Contract, n: nat)
    requires Valid(a) && n <= |c.requests| && forall k :: 0 <= k < n ==> c.requests[k].name in a.capabilities
    ensures Tallied(a, c, n).ttl > 0.0
  {
    if n > 0 { TallyTtl(a, c, n - 1); }
  }

  /** Whoever asks for money has a ceiling on the list, and a ceiling with money names a currency. */
  lemma TallyCeilings(a: Authority, c: Contract, n: nat)
    requires Valid(a) && n <= |c.requests| && forall k :: 0 <= k < n ==> c.requests[k].name in a.capabilities
    ensures (exists m :: m in Tallied(a, c, n).asked && m.amount > 0) ==> Tallied(a, c, n).ceilings != []
    ensures forall l :: l in Tallied(a, c, n).ceilings && l.amount > 0 ==> l.currency.Some?
  {
    TallyAsked(a, c, n);
    TallyPaying(a, c, n);
    var t := Tallied(a, c, n);
    if m :| m in t.asked && m.amount > 0 {
      var k :| 0 <= k < n && m in Asks(a, c.requests[k]);
      assert Pays(a, c.requests[k]);
      assert Ceiling(a, c.requests[k]) in t.ceilings;
    }
  }
}
