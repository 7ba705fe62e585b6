/**
 The supervisor object whose fields the run machine describes: reservation, the
 bounded run history, lookup and cancellation (`native/src/supervisor.rs`).
 */
module Supervisor {
  import opened Outcomes
  import Slot = RunSlot

  /** A finished run as the history keeps it. */
  datatype Record = Record(id: nat, result: string)

  datatype View = Running(id: nat) | Stored(record: Record) | NotFound

  function Ids(q: seq<Record>): (r: seq<nat>)
    ensures |r| == |q| && forall i :: 0 <= i < |q| ==> r[i] == q[i].id
  {
    if q == [] then [] else [q[0].id] + Ids(q[1..])
  }

  /** retain: everything but the records of one run. */
  function Retained(q: seq<Record>, id: nat): (r: seq<Record>)
    ensures |r| <= |q|
    ensures forall x :: x in r <==> x in q && x.id != id
  {
    if q == [] then []
    else if q[0].id == id then Retained(q[1..], id)
    else [q[0]] + Retained(q[1..], id)
  }

  function Trim(q: seq<Record>): seq<Record> {
    if |q| > Slot.HISTORY_LIMIT then q[|q| - Slot.HISTORY_LIMIT..] else q
  }

  function Remembered(q: seq<Record>, r: Record): seq<Record> {
    Trim(Retained(q, r.id) + [r])
  }

  /** The newest record of a run, or of any run. */
  function Find(q: seq<Record>, id: Option<nat>): Option<Record> {
    if q == [] then None
    else if id.None? || q[|q| - 1].id == id.value then Some(q[|q| - 1])
    else Find(q[..|q| - 1], id)
  }

  lemma {:induction false} IdsRetained(q: seq<Record>, id: nat)
    ensures Ids(Retained(q, id)) == Slot.Others(Ids(q), id)
  {
    if q != [] {
      IdsRetained(q[1..], id);
      assert Ids(q)[1..] == Ids(q[1..]);
      if q[0].id != id { assert ([q[0]] + Retained(q[1..], id))[1..] == Retained(q[1..], id); }
    }
  }

  lemma IdsAppend(q: seq<Record>, r: Record)
    ensures Ids(q + [r]) == Ids(q) + [r.id]
  {}

  lemma IdsDrop(q: seq<Record>, k: nat)
    requires k <= |q|
    ensures Ids(q[k..]) == Ids(q)[k..]
  {}

  /** The history object holds the ids the run machine says it holds. */
  lemma RememberedIds(q: seq<Record>, r: Record)
    ensures Ids(Remembered(q, r)) == Slot.Remembered(Ids(q), r.id)
  {
    var all := Retained(q, r.id) + [r];
    IdsRetained(q, r.id);
    IdsAppend(Retained(q, r.id), r);
    if |all| > Slot.HISTORY_LIMIT { IdsDrop(all, |all| - Slot.HISTORY_LIMIT); }
  }

  lemma {:induction false} FindConcat(a: seq<Record>, b: seq<Record>, id: Option<nat>)
    ensures Find(a + b, id) == if Find(b, id).Some? then Find(b, id) else Find(a, id)
    decreases |b|
  {
    if b == [] {
      assert a + b == a;
    } else {
      var n := |b| - 1;
      assert (a + b)[..|a| + n] == a + b[..n];
      FindConcat(a, b[..n], id);
    }
  }

  lemma FindOne(r: Record, id: Option<nat>)
    ensures Find([r], id) == if id.None? || id.value == r.id then Some(r) else None
  {
    assert [r][..0] == [];
  }

  lemma {:induction false} FindListed(q: seq<Record>, id: nat)
    ensures Find(q, Some(id)).Some? <==> exists i :: 0 <= i < |q| && q[i].id == id
  {
    if q != [] {
      var n := |q| - 1;
      FindListed(q[..n], id);
      if i :| 0 <= i < |q| && q[i].id == id { assert q[i].id == id && (i < n ==> q[..n][i].id == id); }
    }
  }

  lemma {:induction false} FindRetained(q: seq<Record>, gone: nat, id: nat)
    requires id != gone
    ensures Find(Retained(q, gone), Some(id)) == Find(q, Some(id))
  {
    if q != [] {
      var x, rest := q[0], q[1..];
      assert q == [x] + rest;
      FindRetained(rest, gone, id);
      FindOne(x, Some(id));
      FindConcat([x], rest, Some(id));
      FindConcat([x], Retained(rest, gone), Some(id));
    }
  }

  /** After a run is recorded a lookup finds it, and any other run still listed is found as before. */
  lemma RememberedIsFound(q: seq<Record>, r: Record, id: nat)
    ensures Find(Remembered(q, r), Some(r.id)) == Some(r) && Find(Remembered(q, r), None) == Some(r)
    ensures id != r.id && id in Ids(Remembered(q, r)) ==> Find(Remembered(q, r), Some(id)) == Find(q, Some(id))
  {
    var all := Retained(q, r.id) + [r];
    var k := if |all| > Slot.HISTORY_LIMIT then |all| - Slot.HISTORY_LIMIT else 0;
    assert Remembered(q, r) == all[k..] && all[k..] == Retained(q, r.id)[k..] + [r];
    FindNewest(Retained(q, r.id)[k..], r);
    if id != r.id && id in Ids(Remembered(q, r)) {
      assert all == all[..k] + all[k..];
      FindConcat(all[..k], all[k..], Some(id));
      FindListed(all[k..], id);
      FindConcat(Retained(q, r.id), [r], Some(id));
      FindOne(r, Some(id));
      FindRetained(q, r.id, id);
    }
  }

  lemma FindNewest(q: seq<Record>, r: Record)
    ensures Find(q + [r], Some(r.id)) == Some(r) && Find(q + [r], None) == Some(r)
  {}

  class Supervisor {
    var busy: bool
    var active: Option<nat>
    var records: seq<Record>
    var cancelled: set<nat>

    constructor ()
      ensures !busy && active.None? && records == [] && cancelled == {}
    {
      busy, active, records, cancelled := false, None, [], {};
    }

    /** A compare-and-exchange on busy, then the active run. */
    method Reserve(id: nat) returns (ok: bool)
      modifies this`busy, this`active
      ensures ok == !old(busy) && busy
      ensures active == if ok then Some(id) else old(active)
    {
      if busy { return false; }
      busy := true;
      active := Some(id);
      return true;
    }

    method RetainOthers(id: nat)
      modifies this`records
      ensures records == Retained(old(records), id)
    {
      var kept: seq<Record> := [];
      var i := 0;
      assert records[0..] == records;
      while i < |records|
        invariant 0 <= i <= |records| && records == old(records)
        invariant kept + Retained(records[i..], id) == Retained(records, id)
      {
        assert records[i..][0] == records[i] && records[i..][1..] == records[i + 1..];
        if records[i].id != id { kept := kept + [records[i]]; }
        i := i + 1;
      }
      assert kept == Retained(records, id);
      records := kept;
    }

    method DropOldest()
      modifies this`records
      ensures records == Trim(old(records))
    {
      while |records| > Slot.HISTORY_LIMIT
        invariant Trim(records) == Trim(old(records))
        decreases |records|
      {
        records := records[1..];
      }
    }

    /** One record per run, the newest last, and at most 64 of them. */
    method Remember(r: Record)
      modifies this`records
      ensures records == Remembered(old(records), r)
    {
      RetainOthers(r.id);
      records := records + [r];
      DropOldest();
    }

    /** The reservation's guard: an active run left behind is recorded as abandoned. */
    method Release(id: nat, record: bool, abandoned: string)
      modifies this`busy, this`active, this`records
      ensures !busy && active.None?
      ensures records ==
              if old(active).Some? && record then Remembered(old(records), Record(id, abandoned)) else old(records)
    {
      var left := active.Some?;
      active := None;
      if left && record { Remember(Record(id, abandoned)); }
      busy := false;
    }

    method Cancel(id: Option<nat>) returns (hit: Option<nat>)
      modifies this`cancelled
      ensures hit == if active.Some? && (id.None? || id == active) then active else None
      ensures cancelled == old(cancelled) + if hit.Some? then {hit.value} else {}
    {
      if active.Some? && (id.None? || id.value == active.value) {
        cancelled := cancelled + {active.value};
        return active;
      }
      return None;
    }

    /** The active run if it is the one asked for, else its newest record. */
    method Run(id: Option<nat>) returns (view: View)
      ensures view ==
              if active.Some? && (id.None? || id == active) then Running(active.value)
              else match Find(records, id)
                case Some(r) => Stored(r)
                case None => NotFound
    {
      if active.Some? && (id.None? || id.value == active.value) { return Running(active.value); }
      var i := |records|;
      assert records[..i] == records;
      while i > 0
        invariant 0 <= i <= |records| && Find(records[..i], id) == Find(records, id)
      {
        assert records[..i][..i - 1] == records[..i - 1] && records[..i][i - 1] == records[i - 1];
        i := i - 1;
        if id.None? || records[i].id == id.value { return Stored(records[i]); }
      }
      return NotFound;
    }
  }
}
