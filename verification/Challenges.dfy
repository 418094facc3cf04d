/** Single-response browser challenges: a resident owner refining a compare-and-swap store. */
module Challenges {
  import opened Options

  datatype State =
    | Waiting | Responded | Submitting | Submitted
    | Resolved | Expired | Cancelled | Invalidated | Blocked | InDoubt

  predicate Terminal(s: State) {
    s in {Resolved, Expired, Cancelled, Invalidated, Blocked, InDoubt}
  }

  predicate MayMove(s: State, t: State) {
    match s
    case Waiting => t in {Responded, Expired, Cancelled, Invalidated, Blocked}
    case Responded => t in {Submitting, Resolved, Expired, Cancelled, Invalidated, Blocked}
    case Submitting => t in {Submitted, Blocked, InDoubt}
    case Submitted => t in {Resolved, Blocked, Invalidated, Expired, Cancelled}
    case _ => false
  }

  datatype Kind = Otp | Manual

  datatype Binding = Binding(owner: nat, scope: set<nat>, occurrence: nat)

  /** `about` stands for the immutable text and creation time. */
  datatype Record = Record(id: nat, binding: Binding, kind: Kind, about: nat, expires: int, source: Option<nat>, state: State, revision: nat)

  function Moved(r: Record, t: State): Record {
    r.(state := t, revision := r.revision + 1)
  }

  // ----- what the store accepts ------------------------------------------------------------

  /** The rules for replacing `previous` by `next`, as one condition. */
  predicate Accepts(previous: Record, next: Record, expected: nat) {
    && previous.revision == expected && next.revision == expected + 1
    && next == previous.(state := next.state, revision := next.revision, source := next.source)
    && if previous.source != next.source
       then previous.source == None && previous.state == Waiting && next.state == Waiting
       else MayMove(previous.state, next.state)
  }

  /** Of two writers at the same revision, whichever goes first, the second is refused. */
  lemma OneWriterWins(previous: Record, a: Record, b: Record, expected: nat)
    requires Accepts(previous, a, expected) && Accepts(previous, b, expected)
    ensures !Accepts(a, b, expected) && !Accepts(b, a, expected)
  {
  }

  // ----- the resident owner ----------------------------------------------------------------

  datatype Response = Response(code: Option<nat>)

  datatype Op =
    | Bind(source: nat)
    | Respond(response: Response, replier: nat, now: int)
    | Claim(consume: bool)
    | Finish(to: State)
    | Begin(binding: Binding, at: int)

  /** How a locked section's publication ends when the store would accept it. `Interrupted` is one
      cancellation: the write is joined and the resident record follows it. `Lost` is a write that
      commits although the section never learns of it: a second cancellation during the join, or
      an error after the file was replaced. */
  datatype Fate = Written | Interrupted | Failed | Lost

  function FinishState(s: State, to: State): State {
    if s == Submitting && to in {Expired, Cancelled, Invalidated} then InDoubt else to
  }

  /** The record an operation tries to publish, if it gets that far. */
  function Wanted(r: Record, op: Op): Option<Record> {
    match op
    case Bind(source) =>
      if r.state != Waiting || r.source != None then None
      else Some(r.(source := Some(source), revision := r.revision + 1))
    case Respond(response, replier, now) =>
      if r.source != Some(replier) || r.state != Waiting then None
      else if now >= r.expires then Some(Moved(r, Expired))
      else if response.code.Some? != (r.kind == Otp) then None
      else Some(Moved(r, Responded))
    case Claim(_) => None
    case Finish(to) =>
      if Terminal(r.state) || !MayMove(r.state, FinishState(r.state, to)) then None
      else Some(Moved(r, FinishState(r.state, to)))
    case Begin(binding, at) =>
      if r.state != Responded then None
      else if at >= r.expires then Some(Moved(r, Expired))
      else if binding != r.binding then Some(Moved(r, Invalidated))
      else Some(Moved(r, Submitting))
  }

  /** `handed` lists the responses given to consuming waits; `stages` the states the stored record
      has gone through. */
  datatype System = System(record: Record, response: Option<Response>, stored: Record, handed: seq<Response>, stages: seq<State>)

  datatype Action = Owner(op: Op, fate: Fate) | Foreign(next: Record, expected: nat)

  function Store(s: System, next: Record): System {
    s.(stored := next, stages := if next.state == s.stored.state then s.stages else s.stages + [next.state])
  }

  function Publish(s: System, next: Record, fate: Fate): System {
    if fate == Failed || !Accepts(s.stored, next, s.record.revision) then s
    else if fate == Lost then Store(s, next)
    else Store(s, next).(record := next)
  }

  /** What an operation does to the resident response once its publication is over. */
  function Keep(before: System, op: Op, fate: Fate, after: System): Option<Response> {
    match op
    case Respond(response, _, now) =>
      if Wanted(before.record, op).Some? && now < before.record.expires
      then if after.record.state == Responded then Some(response) else None
      else before.response
    case Claim(consume) =>
      if consume && before.record.state == Responded then None else before.response
    case Finish(_) =>
      if fate == Written && Terminal(after.record.state) && after.record != before.record then None else before.response
    case _ => before.response
  }

  function Handed(s: System, op: Op): seq<Response> {
    if op == Claim(true) && s.record.state == Responded && s.response.Some? then [s.response.value] else []
  }

  function Do(s: System, a: Action): System {
    match a
    case Foreign(next, expected) => if Accepts(s.stored, next, expected) then Store(s, next) else s
    case Owner(op, fate) =>
      var wanted := Wanted(s.record, op);
      var t := if wanted.Some? then Publish(s, wanted.value, fate) else s;
      t.(response := Keep(s, op, fate, t), handed := s.handed + Handed(s, op))
  }

  /** Whether the operation ends in an exception, by refusing or because of its publication. */
  predicate Raises(s: System, op: Op, fate: Fate) {
    var wanted := Wanted(s.record, op);
    match op
    case Claim(_) => false
    case Finish(_) => !Terminal(s.record.state) && (wanted.None? || Fails(s, wanted.value, fate))
    case Bind(_) => wanted.None? || Fails(s, wanted.value, fate)
    case Respond(_, _, _) => wanted.None? || wanted.value.state != Responded || Fails(s, wanted.value, fate)
    case Begin(_, _) => wanted.None? || wanted.value.state != Submitting || Fails(s, wanted.value, fate)
  }

  predicate Fails(s: System, next: Record, fate: Fate) {
    fate != Written || !Accepts(s.stored, next, s.record.revision)
  }

  function Run(s: System, actions: seq<Action>, n: nat): System
    requires n <= |actions|
  {
    if n == 0 then s else Do(Run(s, actions, n - 1), actions[n - 1])
  }

  function Initial(r: Record): System {
    System(r, None, r, [], [Waiting])
  }

  predicate Fresh(r: Record) {
    r.state == Waiting && r.revision == 1
  }

  // ----- agreement ---------------------------------------------------------------------------

  /** Whatever an up-to-date owner publishes, the store accepts. */
  lemma PublicationAccepted(r: Record, op: Op)
    ensures Wanted(r, op).Some? ==> Accepts(r, Wanted(r, op).value, r.revision)
  {
  }

  /** An accepted write whose outcome never reached the owner. */
  predicate Loses(s: System, a: Action) {
    a.Owner? && a.fate == Lost && Wanted(s.record, a.op).Some?
  }

  predicate SoleOwner(actions: seq<Action>) {
    forall k :: 0 <= k < |actions| ==> actions[k].Owner?
  }

  lemma AgreementStep(s: System, op: Op, fate: Fate)
    requires Agrees(s) || Behind(s)
    ensures var t := Do(s, Owner(op, fate));
            && (Agrees(t) || Behind(t))
            && (Agrees(t) <==> Agrees(s) && !Loses(s, Owner(op, fate)))
            && (Behind(s) ==> t.record == s.record && t.stored == s.stored)
  {
    PublicationAccepted(s.record, op);
  }

  function LostWrites(s: System, actions: seq<Action>, n: nat): nat
    requires n <= |actions|
  {
    if n == 0 then 0
    else LostWrites(s, actions, n - 1) + (if Loses(Run(s, actions, n - 1), actions[n - 1]) then 1 else 0)
  }

  ghost predicate Agrees(s: System) { s.record == s.stored }

  ghost predicate Behind(s: System) { s.record.revision < s.stored.revision }

  /** The owner and the store agree while the lock is free exactly as long as no write was lost;
      after that the owner is a revision behind for good, and can publish nothing. */
  lemma {:induction false} AgreementIff(s: System, actions: seq<Action>, n: nat)
    requires Agrees(s) && SoleOwner(actions) && n <= |actions|
    ensures Agrees(Run(s, actions, n)) || Behind(Run(s, actions, n))
    ensures Agrees(Run(s, actions, n)) <==> LostWrites(s, actions, n) == 0
  {
    if n > 0 {
      AgreementIff(s, actions, n - 1);
      var a := actions[n - 1];
      AgreementStep(Run(s, actions, n - 1), a.op, a.fate);
    }
  }

  // ----- one response, one submission -----------------------------------------------------------

  /** Along any run, with any foreign writers, lost writes and cancellations. */
  ghost predicate Inv(r: Record, s: System) {
    && s.record.id == s.stored.id == r.id && s.record.binding == s.stored.binding == r.binding
    && s.record.expires == s.stored.expires == r.expires
    && (s.record.state == Waiting ==> s.handed == [] && s.response == None)
    && (s.handed != [] ==> s.response == None)
    && |s.handed| <= 1
    && s.stages != [] && s.stages[0] == Waiting && s.stages[|s.stages| - 1] == s.stored.state
    && (forall k :: 0 < k < |s.stages| ==> MayMove(s.stages[k - 1], s.stages[k]))
  }

  lemma OwnerKeepsResponse(r: Record, s: System, op: Op, fate: Fate)
    requires Inv(r, s)
    ensures var t := Do(s, Owner(op, fate));
            && (t.record.state == Waiting ==> t.handed == [] && t.response == None)
            && (t.handed != [] ==> t.response == None) && |t.handed| <= 1
  {
  }

  lemma StoreKeepsStages(s: System, next: Record, expected: nat)
    requires Accepts(s.stored, next, expected)
    requires s.stages != [] && s.stages[0] == Waiting && s.stages[|s.stages| - 1] == s.stored.state
    requires forall k :: 0 < k < |s.stages| ==> MayMove(s.stages[k - 1], s.stages[k])
    ensures var t := Store(s, next).stages;
            && t != [] && t[0] == Waiting && t[|t| - 1] == next.state
            && forall k :: 0 < k < |t| ==> MayMove(t[k - 1], t[k])
  {
  }

  lemma ActionKeepsInv(r: Record, s: System, a: Action)
    requires Inv(r, s)
    ensures Inv(r, Do(s, a))
  {
    match a
    case Foreign(next, expected) =>
      if Accepts(s.stored, next, expected) { StoreKeepsStages(s, next, expected); }
    case Owner(op, fate) =>
      OwnerKeepsResponse(r, s, op, fate);
      var wanted := Wanted(s.record, op);
      if wanted.Some? && Accepts(s.stored, wanted.value, s.record.revision) {
        StoreKeepsStages(s, wanted.value, s.record.revision);
      }
  }

  lemma {:induction false} RunKeepsInv(r: Record, actions: seq<Action>, n: nat)
    requires Fresh(r) && n <= |actions|
    ensures Inv(r, Run(Initial(r), actions, n))
  {
    if n > 0 {
      RunKeepsInv(r, actions, n - 1);
      ActionKeepsInv(r, Run(Initial(r), actions, n - 1), actions[n - 1]);
    }
  }

  function Rank(s: State): nat {
    match s
    case Waiting => 0
    case Responded => 1
    case Submitting => 2
    case Submitted => 3
    case _ => 4
  }

  lemma {:induction false} StagesClimb(stages: seq<State>, j: nat, k: nat)
    requires j < k < |stages| && forall i :: 0 < i < |stages| ==> MayMove(stages[i - 1], stages[i])
    ensures Rank(stages[j]) < Rank(stages[k])
  {
    if j < k - 1 { StagesClimb(stages, j, k - 1); }
  }

  /** A code is handed out at most once. The stored record enters `submitting` at most once and only
      from `responded`; a submission that ends without a receipt is never expired, cancelled or
      invalidated; and nothing follows a terminal state. */
  lemma OneResponseOneSubmission(r: Record, actions: seq<Action>, n: nat)
    requires Fresh(r) && n <= |actions|
    ensures var s := Run(Initial(r), actions, n); |s.handed| <= 1
    ensures var stages := Run(Initial(r), actions, n).stages;
            && (forall j, k :: 0 <= j < k < |stages| ==> !(stages[j] == Submitting && stages[k] == Submitting))
            && (forall k :: 0 < k < |stages| && stages[k] == Submitting ==> stages[k - 1] == Responded)
            && (forall k :: 0 < k < |stages| && stages[k - 1] == Submitting ==> stages[k] in {Submitted, Blocked, InDoubt})
            && (forall k :: 0 <= k < |stages| - 1 ==> !Terminal(stages[k]))
  {
    RunKeepsInv(r, actions, n);
    var stages := Run(Initial(r), actions, n).stages;
    forall j, k | 0 <= j < k < |stages| ensures !(stages[j] == Submitting && stages[k] == Submitting) {
      StagesClimb(stages, j, k);
    }
    forall k | 0 <= k < |stages| - 1 ensures !Terminal(stages[k]) {
      assert MayMove(stages[k], stages[k + 1]);
    }
  }

  /** The owner's record becomes `submitting` only from a responded one and only once the store has
      it; and, unless a caller asks `finish` for that very state, only by `begin_submission`, before
      expiry and with the binding the challenge was created with. */
  lemma SubmittingIsDurable(r: Record, s: System, a: Action)
    requires Inv(r, s) && s.record.state != Submitting && Do(s, a).record.state == Submitting
    ensures s.record.state == Responded && Do(s, a).stored == Do(s, a).record && a.Owner?
    ensures a.op == Finish(Submitting) || (a.op.Begin? && a.op.binding == r.binding && a.op.at < r.expires)
  {
    assert a.Owner?;
    var wanted := Wanted(s.record, a.op);
    assert wanted.Some? && wanted.value.state == Submitting;
  }

  /** Retiring a lost owner, as foreign writes: ambiguous dispatch stays ambiguous. */
  function Retired(r: Record, owner: nat): Record {
    if r.binding.owner != owner then r
    else if r.state in {Waiting, Responded, Submitted} then Moved(r, Invalidated)
    else if r.state == Submitting then Moved(r, InDoubt)
    else r
  }

  // ----- the store over any sequence of calls -----------------------------------------------------

  datatype StoreOp = Create(r: Record, scope: set<nat>) | Update(r: Record, expected: nat, scope: set<nat>)

  predicate Takes(records: map<nat, Record>, op: StoreOp) {
    match op
    case Create(r, scope) => r.binding.scope <= scope && Fresh(r) && r.id !in records
    case Update(r, expected, scope) => r.binding.scope <= scope && r.id in records && Accepts(records[r.id], r, expected)
  }

  function Apply(records: map<nat, Record>, op: StoreOp): map<nat, Record> {
    if Takes(records, op) then records[op.r.id := op.r] else records
  }

  function StoreAfter(ops: seq<StoreOp>, n: nat): map<nat, Record>
    requires n <= |ops|
  {
    if n == 0 then map[] else Apply(StoreAfter(ops, n - 1), ops[n - 1])
  }

  /** The records written under `id`, in order. */
  function Writes(ops: seq<StoreOp>, n: nat, id: nat): seq<Record>
    requires n <= |ops|
  {
    if n == 0 then []
    else Writes(ops, n - 1, id) + (if Takes(StoreAfter(ops, n - 1), ops[n - 1]) && ops[n - 1].r.id == id then [ops[n - 1].r] else [])
  }

  ghost predicate Lineage(written: seq<Record>) {
    && (written != [] ==> Fresh(written[0]))
    && (forall k :: 0 <= k < |written| ==> written[k].revision == k + 1)
    && (forall k :: 0 < k < |written| ==> Accepts(written[k - 1], written[k], k))
  }

  /** What the store holds under `id` is what was last written there. */
  ghost predicate Holds(records: map<nat, Record>, written: seq<Record>, id: nat) {
    if written == [] then id !in records
    else id in records && records[id] == written[|written| - 1] && records[id].id == id
  }

  lemma LineageSnoc(records: map<nat, Record>, written: seq<Record>, op: StoreOp)
    requires Lineage(written) && Holds(records, written, op.r.id) && Takes(records, op)
    ensures Lineage(written + [op.r]) && Holds(Apply(records, op), written + [op.r], op.r.id)
  {
    var longer := written + [op.r];
    forall k | 0 <= k < |longer| ensures longer[k].revision == k + 1 && (k > 0 ==> Accepts(longer[k - 1], longer[k], k)) {
      if k < |written| {
        assert longer[k] == written[k];
        if k > 0 { assert longer[k - 1] == written[k - 1]; }
      }
    }
  }

  /** Whatever is called in whatever order, an id is created at most once and before anything else
      happens to it; its revisions count its writes without a gap or a repeat; each write is an
      acceptable successor of the one before; and the store holds the last. */
  lemma {:induction false} StoreLineage(ops: seq<StoreOp>, n: nat, id: nat)
    requires n <= |ops|
    ensures Lineage(Writes(ops, n, id)) && Holds(StoreAfter(ops, n), Writes(ops, n, id), id)
  {
    if n > 0 {
      StoreLineage(ops, n - 1, id);
      var before, op := StoreAfter(ops, n - 1), ops[n - 1];
      if Takes(before, op) && op.r.id == id { LineageSnoc(before, Writes(ops, n - 1, id), op); }
    }
  }

  /** A record as other writers may have left it: the same, or a later revision of it. */
  predicate Evolves(a: Record, b: Record) {
    && b.id == a.id && b.binding == a.binding && a.revision <= b.revision
    && (Terminal(a.state) || a.revision == b.revision ==> b == a)
  }

  lemma EvolvesTrans(a: Record, b: Record, c: Record)
    requires Evolves(a, b) && Evolves(b, c)
    ensures Evolves(a, c)
  {
  }

  ghost predicate AllEvolve(before: map<nat, Record>, after: map<nat, Record>) {
    before.Keys <= after.Keys && forall id :: id in before ==> Evolves(before[id], after[id])
  }

  lemma AllEvolveTrans(a: map<nat, Record>, b: map<nat, Record>, c: map<nat, Record>)
    requires AllEvolve(a, b) && AllEvolve(b, c)
    ensures AllEvolve(a, c)
  {
    forall id | id in a ensures Evolves(a[id], c[id]) { EvolvesTrans(a[id], b[id], c[id]); }
  }

  lemma RetireEvolves(now: map<nat, Record>, after: map<nat, Record>, r: Record, owner: nat)
    requires r.id in now && now[r.id] == r && r.binding.owner == owner && !Terminal(r.state)
    requires after == now[r.id := Retired(r, owner)]
    ensures AllEvolve(now, after)
  {
  }

  /** Each record as it was read at some moment between the two states of the store. */
  ghost predicate Listed(before: map<nat, Record>, ids: seq<nat>, listed: seq<Record>, after: map<nat, Record>) {
    |listed| == |ids|
    && forall k :: 0 <= k < |ids| ==>
         ids[k] in before && ids[k] in after && Evolves(before[ids[k]], listed[k]) && Evolves(listed[k], after[ids[k]])
  }

  lemma ListedEvolve(before: map<nat, Record>, ids: seq<nat>, listed: seq<Record>, now: map<nat, Record>, after: map<nat, Record>)
    requires Listed(before, ids, listed, now) && AllEvolve(now, after)
    ensures Listed(before, ids, listed, after)
  {
    forall k | 0 <= k < |ids| ensures Evolves(listed[k], after[ids[k]]) {
      EvolvesTrans(listed[k], now[ids[k]], after[ids[k]]);
    }
  }

  /** The record belongs to the owner, lies in scope and is not ended yet. */
  predicate Due(r: Record, owner: nat, scope: set<nat>) {
    r.binding.scope <= scope && r.binding.owner == owner && !Terminal(r.state)
  }

  // ----- the objects -----------------------------------------------------------------------------

  class ChallengeStore {
    var records: map<nat, Record>

    ghost predicate Valid()
      reads this
    {
      forall id :: id in records ==> records[id].id == id && records[id].revision > 0
    }

    constructor ()
      ensures Valid() && records == map[]
    {
      records := map[];
    }

    method Create(r: Record, scope: set<nat>) returns (ok: bool)
      requires Valid()
      modifies this
      ensures Valid() && ok == Takes(old(records), StoreOp.Create(r, scope)) && records == Apply(old(records), StoreOp.Create(r, scope))
    {
      if !(r.binding.scope <= scope) { return false; }
      if r.revision != 1 || r.state != Waiting { return false; }
      if r.id in records { return false; }
      records := records[r.id := r];
      return true;
    }

    /** The store's own sequence of refusals. */
    method Update(r: Record, expected: nat, scope: set<nat>) returns (ok: bool)
      requires Valid() && expected > 0
      modifies this
      ensures Valid() && ok == Takes(old(records), StoreOp.Update(r, expected, scope))
      ensures records == Apply(old(records), StoreOp.Update(r, expected, scope))
    {
      if !(r.binding.scope <= scope) || r.id !in records { return false; }
      var previous := records[r.id];
      if !(previous.binding.scope <= scope) { return false; }
      if previous.revision != expected || r.revision != expected + 1 { return false; }
      if previous.binding != r.binding { return false; }
      if previous.(state := r.state, revision := r.revision, source := r.source) != r { return false; }
      if previous.source != r.source {
        if previous.source.Some? || previous.state != Waiting { return false; }
        if r.state != previous.state { return false; }
      } else if !MayMove(previous.state, r.state) || Moved(previous, r.state) != r {
        return false;
      }
      records := records[r.id := r];
      return true;
    }

    /** Other processes use the store while a call of this one is on its way. */
    method Others()
      requires Valid()
      modifies this
      ensures Valid() && AllEvolve(old(records), records)
    {
      var calls: seq<StoreOp> := *;
      for k := 0 to |calls|
        invariant Valid() && AllEvolve(old(records), records)
      {
        ghost var before := records;
        match calls[k] {
          case Create(r, scope) => var ok := Create(r, scope);
          case Update(r, expected, scope) => if expected > 0 { var ok := Update(r, expected, scope); }
        }
        AllEvolveTrans(old(records), before, records);
      }
    }

    /** Read the records of `ids` one by one, without the store's lock. */
    method List(ids: seq<nat>) returns (listed: seq<Record>)
      requires Valid() && forall k :: 0 <= k < |ids| ==> ids[k] in records
      modifies this
      ensures Valid() && AllEvolve(old(records), records) && Listed(old(records), ids, listed, records)
    {
      listed := [];
      for k := 0 to |ids|
        invariant Valid() && AllEvolve(old(records), records) && |listed| == k
        invariant Listed(old(records), ids[..k], listed, records)
      {
        ghost var before := records;
        Others();
        AllEvolveTrans(old(records), before, records);
        ListedEvolve(old(records), ids[..k], listed, before, records);
        listed := listed + [records[ids[k]]];
      }
      assert ids[..|ids|] == ids;
    }

    /** Retire a record as it was read, others using the store meanwhile; it fails only if one of them
        has written the record since. */
    method Retire(r: Record, owner: nat, scope: set<nat>) returns (ok: bool)
      requires Valid() && Due(r, owner, scope) && r.id in records && r.revision > 0 && Evolves(r, records[r.id])
      modifies this
      ensures Valid() && AllEvolve(old(records), records)
      ensures if ok then records[r.id] == Retired(r, owner) else records[r.id].revision > r.revision
    {
      Others();
      ghost var now := records;
      EvolvesTrans(r, old(records)[r.id], now[r.id]);
      ok := Update(Retired(r, owner), r.revision, scope);
      if ok {
        RetireEvolves(now, records, r, owner);
        AllEvolveTrans(old(records), now, records);
      }
    }

    /** Read the records one by one, then retire the owner's one call at a time, while others use the
        store. It fails at the first record that somebody else has written since it was read. When it
        succeeds, every record that was open when read is retired as it was then, for good; nothing else
        is changed except by others. */
    method InvalidateOwner(owner: nat, ids: seq<nat>, scope: set<nat>) returns (finished: bool, listed: seq<Record>, ghost at: nat)
      requires Valid() && (forall k :: 0 <= k < |ids| ==> ids[k] in records)
      modifies this
      ensures Valid() && AllEvolve(old(records), records) && Listed(old(records), ids, listed, records)
      ensures finished ==> forall k :: 0 <= k < |ids| && Due(listed[k], owner, scope) ==>
                records[ids[k]] == Retired(listed[k], owner)
      ensures !finished ==> at < |ids| && Due(listed[at], owner, scope) && records[ids[at]].revision > listed[at].revision
    {
      ghost var start := records;
      listed := List(ids);
      finished, at := true, |ids|;
      for k := 0 to |ids|
        invariant Valid() && AllEvolve(start, records) && Listed(start, ids, listed, records)
        invariant forall j :: 0 <= j < k && Due(listed[j], owner, scope) ==> records[ids[j]] == Retired(listed[j], owner)
      {
        if Due(listed[k], owner, scope) {
          ghost var before := records;
          var ok := Retire(listed[k], owner, scope);
          AllEvolveTrans(start, before, records);
          ListedEvolve(start, ids, listed, before, records);
          if !ok { return false, listed, k; }
        }
      }
    }
  }

  /** One live owner. Each method is one section under the owner's lock; nothing but a publication is
      awaited inside it, so `fate` says all that can happen there. */
  class LiveBrowserChallenge {
    const store: ChallengeStore
    const scope: set<nat>
    var record: Record
    var response: Option<Response>

    ghost predicate Valid()
      reads this, store
    {
      store.Valid() && record.id in store.records && record.binding.scope <= scope && record.revision > 0
    }

    ghost function Now(): System
      reads this, store
      requires record.id in store.records
    {
      System(record, response, store.records[record.id], [], [])
    }

    /** The owner, its response and the store are as in `s`; other records are untouched. */
    ghost predicate Is(s: System, before: map<nat, Record>)
      reads this, store
    {
      record == s.record && response == s.response && store.records == before[s.record.id := s.stored]
    }

    constructor (record: Record, store: ChallengeStore, scope: set<nat>)
      requires Fresh(record) && store.Valid() && record.id in store.records && record.binding.scope <= scope
      ensures Valid() && this.record == record && response == None && this.store == store
    {
      this.record, this.store, this.scope := record, store, scope;
      response := None;
    }

    method Commit(next: Record, fate: Fate) returns (raised: bool)
      requires Valid() && next.id == record.id && next.binding == record.binding && next.revision > 0
      modifies this`record, store
      ensures Valid() && response == old(response) && record.id == old(record).id
      ensures Is(Publish(old(Now()), next, fate), old(store.records))
      ensures raised <==> Fails(old(Now()), next, fate)
    {
      if fate == Failed { return true; }
      var ok := store.Update(next, record.revision, scope);
      if !ok || fate == Lost { return true; }
      record := next;
      return fate == Interrupted;
    }

    method BindSource(source: nat, fate: Fate) returns (raised: bool)
      requires Valid()
      modifies this`record, store
      ensures Valid() && Is(Do(old(Now()), Owner(Bind(source), fate)), old(store.records))
      ensures raised <==> Raises(old(Now()), Bind(source), fate)
      ensures !raised ==> record.source == Some(source) && store.records[record.id] == record
    {
      if record.state != Waiting || record.source != None { return true; }
      raised := Commit(record.(source := Some(source), revision := record.revision + 1), fate);
    }

    method Respond(answer: Response, replier: nat, now: int, fate: Fate) returns (raised: bool)
      requires Valid()
      modifies this`record, this`response, store
      ensures Valid() && Is(Do(old(Now()), Owner(Op.Respond(answer, replier, now), fate)), old(store.records))
      ensures raised <==> Raises(old(Now()), Op.Respond(answer, replier, now), fate)
      ensures !raised ==> record.state == Responded && response == Some(answer) && store.records[record.id] == record
                          && old(record).source == Some(replier) && now < record.expires
    {
      if record.source != Some(replier) || record.state != Waiting { return true; }
      if now >= record.expires {
        raised := Commit(Moved(record, Expired), fate);
        return true;
      }
      if answer.code.Some? != (record.kind == Otp) { return true; }
      response := Some(answer);
      raised := Commit(Moved(record, Responded), fate);
      if raised && record.state != Responded { response := None; }
    }

    /** The look a waiter takes each time it holds the lock. */
    method Claim(consume: bool) returns (found: Option<Response>, gone: bool)
      requires Valid()
      modifies this`response
      ensures Valid() && Is(Do(old(Now()), Owner(Op.Claim(consume), Written)), old(store.records))
      ensures found == (if record.state == Responded then old(response) else None)
      ensures gone <==> found == None && record.state != Waiting
    {
      if record.state == Responded && response.Some? {
        found := response;
        if consume { response := None; }
        return found, false;
      }
      return None, record.state != Waiting;
    }

    method Finish(to: State, fate: Fate) returns (raised: bool)
      requires Valid()
      modifies this`record, this`response, store
      ensures Valid() && Is(Do(old(Now()), Owner(Op.Finish(to), fate)), old(store.records))
      ensures raised <==> Raises(old(Now()), Op.Finish(to), fate)
      ensures !raised ==> Terminal(old(record).state) || record.state == FinishState(old(record).state, to)
    {
      if Terminal(record.state) { return false; }
      var state := FinishState(record.state, to);
      if !MayMove(record.state, state) { return true; }
      var before := record;
      raised := Commit(Moved(record, state), fate);
      if !raised && Terminal(state) { response := None; }
    }

    method BeginSubmission(binding: Binding, at: int, fate: Fate) returns (raised: bool)
      requires Valid()
      modifies this`record, store
      ensures Valid() && Is(Do(old(Now()), Owner(Begin(binding, at), fate)), old(store.records))
      ensures raised <==> Raises(old(Now()), Begin(binding, at), fate)
      ensures !raised ==> record.state == Submitting && store.records[record.id] == record
                          && old(record).state == Responded && binding == record.binding && at < record.expires
    {
      if record.state != Responded { return true; }
      if at >= record.expires {
        raised := Commit(Moved(record, Expired), fate);
        return true;
      }
      if binding != record.binding {
        raised := Commit(Moved(record, Invalidated), fate);
        return true;
      }
      raised := Commit(Moved(record, Submitting), fate);
    }
  }
}
