/** The run object as the code mutates it: journal search, the resume loops, and the
    synchronous part of a tool step that consults and marks its effect. */
module WorkflowRun {
  import opened EffectJournal
  import S = Scheduler

  class WorkflowRun {
    var records: map<Address, S.Status>
    var journal: seq<Entry>

    function Snap(): Snapshot
      reads this
    {
      Snapshot(records, journal)
    }

    constructor (records: map<Address, S.Status>, journal: seq<Entry>)
      ensures Snap() == Snapshot(records, journal)
    {
      this.records, this.journal := records, journal;
    }

    /** The newest entry at an address, searched from the end. */
    method Newest(a: Address) returns (k: int)
      ensures k == Find(journal, a)
    {
      k := |journal| - 1;
      while k >= 0 && journal[k].address != a
        invariant -1 <= k < |journal|
        invariant Find(journal, a) == Find(journal[..k + 1], a)
      {
        assert journal[..k + 1][..k] == journal[..k];
        k := k - 1;
      }
      if k >= 0 { assert journal[..k + 1][k] == journal[k]; }
    }

    /** Close the door on dispatches without an answer. False when an entry has no record. */
    method DoubtUnanswered() returns (known: bool)
      modifies this
      ensures known <==> forall i :: 0 <= i < |old(journal)| && old(journal)[i].status == Dispatched ==>
                           old(journal)[i].address in old(records)
      ensures known ==> journal == ResumedJournal(old(journal))
      ensures known ==> records.Keys == old(records).Keys
      ensures known ==> forall a :: a in records ==>
                records[a] == if SentEntry(old(journal), a) then S.InDoubt else old(records)[a]
    {
      ghost var journal0, records0 := journal, records;
      for i := 0 to |journal|
        invariant |journal| == |journal0| && records.Keys == records0.Keys
        invariant forall j :: 0 <= j < |journal| ==>
                    journal[j] == if j < i then ResumedJournal(journal0)[j] else journal0[j]
        invariant forall j :: 0 <= j < i && journal0[j].status == Dispatched ==> journal0[j].address in records0
        invariant forall a :: a in records ==>
                    records[a] == if SentEntry(journal0[..i], a) then S.InDoubt else records0[a]
      {
        ghost var records1 := records;
        assert forall a :: SentEntry(journal0[..i + 1], a) <==>
                           SentEntry(journal0[..i], a) || (journal0[i].status == Dispatched && journal0[i].address == a) by {
          SentPrefix(journal0, i);
        }
        if journal[i].status == Dispatched {
          var a := journal[i].address;
          journal := journal[i := journal[i].(status := Unclear)];
          if a !in records {
            return false;
          }
          records := records[a := S.InDoubt];
        }
      }
      assert journal0[..|journal0|] == journal0;
      return true;
    }

    /** Put unfinished records whose effect is not closed back to pending. */
    method ReopenUnfinished()
      modifies this`records
      ensures records.Keys == old(records).Keys
      ensures forall a :: a in records ==>
                records[a] == if old(records)[a] in {S.Ready, S.Running, S.Interrupted} && !ClosesRecord(journal, a)
                              then S.Pending else old(records)[a]
    {
      var closed := ClosedAddresses(journal);
      ghost var before := records;
      var rest := records.Keys;
      while rest != {}
        invariant rest <= records.Keys == before.Keys
        invariant forall a :: a in records ==>
                    records[a] == if a !in rest && before[a] in {S.Ready, S.Running, S.Interrupted} && a !in closed
                                  then S.Pending else before[a]
        decreases rest
      {
        var a :| a in rest;
        rest := rest - {a};
        if records[a] in {S.Ready, S.Running, S.Interrupted} && a !in closed {
          records := records[a := S.Pending];
        }
      }
    }

    /** Classify what a previous process left behind. */
    method Resume() returns (known: bool)
      modifies this
      ensures known <==> forall i :: 0 <= i < |old(journal)| && old(journal)[i].status == Dispatched ==>
                           old(journal)[i].address in old(records)
      ensures known ==> Snap() == Resumed(old(Snap()))
    {
      ghost var before := Snap();
      known := DoubtUnanswered();
      if known {
        ReopenUnfinished();
        assert records == Resumed(before).records;
      }
    }

    /** Consult the journal for a step and, unless refused, leave the entry marked for dispatch. */
    method TakeEffect(a: Address, call: Call, safeReplay: bool, dryRun: bool) returns (c: Consulted)
      modifies this`journal
      ensures c == Consult(old(Snap()), a, call, safeReplay, dryRun)
      ensures journal ==
              match c
              case Append(e) => old(journal) + [e]
              case Reuse =>
                if !dryRun then SetStatus(old(Snap()), a, Dispatched).journal
                else if EntryAt(old(Snap()), a).value.status == NotDone then SetStatus(old(Snap()), a, Prepared).journal
                else old(journal)
              case _ => old(journal)
    {
      var k := Newest(a);
      if k < 0 {
        var e := Entry(a, call, safeReplay, if dryRun then WouldDispatch else Prepared);
        journal := journal + [e];
        return Append(e);
      }
      var e := journal[k];
      if e.call.tool != call.tool || e.call.args != call.args { return Mismatch; }
      if e.status == Succeeded { return Refuse; }
      if e.status in {Dispatched, Unclear} { return Doubt; }
      if e.status == NotDone {
        if !e.safeReplay || e.call.key != call.key { return Refuse; }
        journal := journal[k := e.(status := Prepared)];
      } else if e.status == WouldDispatch && !dryRun {
        return Refuse;
      }
      if !dryRun {
        journal := journal[k := journal[k].(status := Dispatched)];
      }
      return Reuse;
    }
  }

  function ClosedAddresses(journal: seq<Entry>): (r: set<Address>)
    ensures forall a :: a in r <==> ClosesRecord(journal, a)
  {
    set e | e in journal && e.status in {Dispatched, Unclear, Succeeded, NotDone} :: e.address
  }

  lemma SentPrefix(journal: seq<Entry>, i: nat)
    requires i < |journal|
    ensures forall a :: SentEntry(journal[..i + 1], a) <==>
                        SentEntry(journal[..i], a) || (journal[i].status == Dispatched && journal[i].address == a)
  {
    assert journal[..i + 1] == journal[..i] + [journal[i]];
    assert forall e :: e in journal[..i + 1] <==> e in journal[..i] || e == journal[i];
    forall a ensures SentEntry(journal[..i + 1], a) <==>
                     SentEntry(journal[..i], a) || (journal[i].status == Dispatched && journal[i].address == a)
    {
      if SentEntry(journal[..i], a) {
        var e :| e in journal[..i] && e.address == a && e.status == Dispatched;
        assert e in journal[..i + 1];
      }
      if journal[i].status == Dispatched && journal[i].address == a { assert journal[i] in journal[..i + 1]; }
    }
  }
}
