/**
 The mutable objects behind the journal: the shared ledger, one guard per call
 and the writer's ticket counters, each proved against the ledger and journal
 functions (`native/src/broker.rs`).
 */
module CallRecords {
  import opened Outcomes
  import opened Ledger
  import Journal = EffectJournal

  lemma {:induction false} NewRecordIsNotEvicted(j: seq<Record>, r: Record)
    requires Dispatched(r)
    ensures OldestTerminal(j + [r]) == OldestTerminal(j)
  {
    var k := OldestTerminal(j + [r]);
    if k.Some? {
      assert (j + [r])[k.value] != r;
      assert forall i :: 0 <= i < k.value ==> (j + [r])[i] == j[i];
    } else {
      assert forall i :: 0 <= i < |j| ==> (j + [r])[i] == j[i];
    }
  }

  lemma EvictionStep(kept: seq<Record>, r: Record, oldest: Option<nat>)
    requires Dispatched(r) && Width(kept + [r]) > ENCODE_BUDGET && oldest == OldestTerminal(kept + [r])
    ensures oldest.None? ==> Shrink(kept, r) == (BudgetExhausted, kept)
    ensures oldest.Some? ==>
              oldest.value < |kept|
              && Without(kept + [r], oldest.value) == Without(kept, oldest.value) + [r]
              && Shrink(kept, r) == Shrink(Without(kept, oldest.value), r)
  {
    NewRecordIsNotEvicted(kept, r);
  }

  class EffectLedger {
    var journal: seq<Record>

    constructor ()
      ensures journal == []
    {
      journal := [];
    }

    /** The index scan behind both evictions. */
    method OldestTerminalIndex() returns (k: Option<nat>)
      ensures k == OldestTerminal(journal)
    {
      var i := 0;
      while i < |journal|
        invariant 0 <= i <= |journal|
        invariant forall n :: 0 <= n < i ==> Dispatched(journal[n])
      {
        if !Dispatched(journal[i]) { return Some(i); }
        i := i + 1;
      }
      return None;
    }

    /** Admit a call before it is sent; on refusal no in-flight record is lost. */
    method Admit(r: Record) returns (outcome: Admission)
      requires Dispatched(r)
      modifies this
      ensures (outcome, journal) == Ledger.Admit(old(journal), r)
    {
      if |journal| >= MAX_RECORDS {
        var oldest := OldestTerminalIndex();
        if oldest.None? { return AllInFlight; }
        journal := Without(journal, oldest.value);
      }
      outcome := AppendWithinBudget(r);
    }

    method AppendWithinBudget(r: Record) returns (outcome: Admission)
      requires Dispatched(r)
      modifies this
      ensures (outcome, journal) == Shrink(old(journal), r)
    {
      ghost var kept := journal;
      journal := journal + [r];
      while Width(journal) > ENCODE_BUDGET
        invariant journal == kept + [r] && Shrink(kept, r) == Shrink(old(journal), r)
        decreases |journal|
      {
        var oldest := OldestTerminalIndex();
        EvictionStep(kept, r, oldest);
        if oldest.None? {
          journal := journal[..|journal| - 1];
          return BudgetExhausted;
        }
        journal := Without(journal, oldest.value);
        kept := Without(kept, oldest.value);
      }
      return Admitted;
    }

    /** The first record with this id takes its terminal status and finish time. */
    method SetStatus(id: string, status: string, now: nat)
      modifies this
      ensures journal == Ledger.SetStatus(old(journal), id, status, now)
    {
      var i := 0;
      while i < |journal|
        invariant 0 <= i <= |journal| && journal == old(journal)
        invariant forall n :: 0 <= n < i ==> !Named(journal[n], id)
      {
        if Named(journal[i], id) {
          journal := journal[i := Stamp(journal[i], status, now)];
          return;
        }
        i := i + 1;
      }
    }

    /**
     Load a parsed file: validate and recover every record, write the result back,
     then replace the ledger, or change nothing. `saved` is how the write went.
     */
    method Load(file: File, saved: bool) returns (loaded: Result<(), LoadError>)
      modifies this
      ensures match Ledger.Load(file)
              case Ok(records) =>
                if saved then loaded == Ok(()) && journal == records
                else loaded == Err(NotSaved) && journal == old(journal)
              case Err(e) => loaded == Err(e) && journal == old(journal)
    {
      if file.bytes > RELOAD_CAP { return Err(TooLarge); }
      if |file.elements| > MAX_RECORDS { return Err(TooMany); }
      var records: seq<Record> := [];
      var i := 0;
      assert file.elements[0..] == file.elements;
      assert LoadRecords(file.elements).Ok? ==>
               records + LoadRecords(file.elements).value == LoadRecords(file.elements).value;
      while i < |file.elements|
        invariant 0 <= i <= |file.elements| && journal == old(journal)
        invariant LoadRecords(file.elements)
                  == match LoadRecords(file.elements[i..])
                     case Ok(rest) => Ok(records + rest)
                     case Err(e) => Err(e)
      {
        if file.elements[i].None? { return Err(Foreign); }
        if !MetadataOk(file.elements[i].value) { return Err(BadMetadata); }
        ghost var rest := LoadRecords(file.elements[i + 1..]);
        var next := [Recovered(file.elements[i].value)];
        assert file.elements[i..][1..] == file.elements[i + 1..];
        assert rest.Ok? ==> records + (next + rest.value) == (records + next) + rest.value;
        records := records + next;
        i := i + 1;
      }
      assert LoadRecords(file.elements[i..]) == Ok([]);
      assert records + [] == records;
      if !saved { return Err(NotSaved); }
      journal := records;
      return Ok(());
    }
  }

  class JournalIo {
    var requested: nat
    var completed: nat
    var running: bool
    var failed: bool

    function Value(): Journal.Io
      reads this
    {
      Journal.Io(requested, completed, running, failed)
    }

    constructor ()
      ensures Value() == Journal.Io(0, 0, false, false)
    {
      requested, completed, running, failed := 0, 0, false, false;
    }

    /** `start` tells exactly one caller to spawn the writer. */
    method Schedule() returns (target: nat, start: bool)
      modifies this
      ensures (Value(), start) == Journal.Schedule(old(Value())) && target == requested
    {
      if requested != Journal.MAX_TICKET { requested := requested + 1; }
      start := !running;
      running := true;
      target := requested;
    }

    method FinishRound(target: nat, ok: bool) returns (again: bool)
      modifies this
      ensures (Value(), again) == Journal.FinishRound(old(Value()), target, ok)
    {
      completed := target;
      failed := !ok;
      again := requested > target;
      if !again { running := false; }
    }

    method Poll(target: nat) returns (outcome: Option<bool>)
      ensures outcome == Journal.Poll(Value(), target)
    {
      if completed >= target { return Some(!failed); }
      return None;
    }
  }

  /**
   The guard a call holds: whichever of finish and drop comes first sets the
   status, and asks the writer for a round when there is a journal path.
   */
  class CallRecord {
    const ledger: EffectLedger
    const io: JournalIo
    const durable: bool
    const id: string
    var finished: bool

    constructor (ledger: EffectLedger, io: JournalIo, durable: bool, id: string)
      ensures this.ledger == ledger && this.io == io && this.durable == durable && this.id == id && !finished
    {
      this.ledger := ledger;
      this.io := io;
      this.durable := durable;
      this.id := id;
      finished := false;
    }

    method SetStatus(status: string, now: nat)
      modifies this, ledger
      ensures finished && ledger.journal == Ledger.SetStatus(old(ledger.journal), id, status, now)
    {
      ledger.SetStatus(id, status, now);
      finished := true;
    }

    /** The status first, then a ticket taken after it; the caller waits for that ticket. */
    method Finish(status: string, now: nat) returns (target: Option<nat>, start: bool)
      requires !finished
      modifies this, ledger, io
      ensures finished && ledger.journal == Ledger.SetStatus(old(ledger.journal), id, status, now)
      ensures durable ==> (io.Value(), start) == Journal.Schedule(old(io.Value())) && target == Some(io.requested)
      ensures !durable ==> io.Value() == old(io.Value()) && !start && target.None?
    {
      SetStatus(status, now);
      target, start := None, false;
      if durable {
        var ticket;
        ticket, start := io.Schedule();
        target := Some(ticket);
      }
    }

    /** Dropping after finish changes nothing; before it, an unknown outcome is recorded and a round asked for. */
    method Drop(now: nat) returns (start: bool)
      modifies this, ledger, io
      ensures finished
      ensures old(finished) ==>
                ledger.journal == old(ledger.journal) && io.Value() == old(io.Value()) && !start
      ensures !old(finished) ==>
                ledger.journal == Ledger.SetStatus(old(ledger.journal), id, "outcome_unknown", now)
      ensures !old(finished) && durable ==> (io.Value(), start) == Journal.Schedule(old(io.Value()))
      ensures !durable ==> io.Value() == old(io.Value()) && !start
    {
      start := false;
      if !finished {
        SetStatus("outcome_unknown", now);
        if durable {
          var ticket;
          ticket, start := io.Schedule();
        }
      }
    }
  }

  /** A call that finishes and is then dropped keeps its status and asks for one round only. */
  method FinishThenDrop(ledger: EffectLedger, io: JournalIo, durable: bool, id: string, status: string,
                        now: nat, later: nat)
    modifies ledger, io
    ensures ledger.journal == Ledger.SetStatus(old(ledger.journal), id, status, now)
    ensures io.Value() == if durable then Journal.Schedule(old(io.Value())).0 else old(io.Value())
  {
    var record := new CallRecord(ledger, io, durable, id);
    var target, start := record.Finish(status, now);
    start := record.Drop(later);
  }
}
