/**
 The worker's bounded history of executed sources (`src/repl_mcp/native_worker.py`,
 `remember_source`): at most 64 runs and 1 MiB, oldest dropped first.
 */
module SourceHistory {
  import opened Outcomes

  const RUN_LIMIT: nat := 64
  const BYTE_LIMIT: nat := 1024 * 1024

  datatype Entry = Entry(id: string, source: string, weight: nat)

  /** `bytes` is the running total the worker keeps beside the entries. */
  datatype History = History(entries: seq<Entry>, bytes: int)

  function Weight(es: seq<Entry>): nat {
    if es == [] then 0 else es[0].weight + Weight(es[1..])
  }

  predicate Room(h: History, weight: nat) {
    |h.entries| < RUN_LIMIT && h.bytes + weight <= BYTE_LIMIT
  }

  /** Drop from the front until there is room or nothing is left. */
  function Evict(h: History, weight: nat): History
    decreases |h.entries|
  {
    if h.entries == [] || Room(h, weight) then h
    else Evict(History(h.entries[1..], h.bytes - h.entries[0].weight), weight)
  }

  /** Assigning to a key that is present keeps its place. */
  function Assign(es: seq<Entry>, e: Entry): seq<Entry> {
    if es == [] then [e]
    else if es[0].id == e.id then [e] + es[1..]
    else [es[0]] + Assign(es[1..], e)
  }

  function Remember(h: History, e: Entry): History {
    var kept := Evict(h, e.weight);
    if e.weight > BYTE_LIMIT then kept else History(Assign(kept.entries, e), kept.bytes + e.weight)
  }

  predicate Has(es: seq<Entry>, id: string) {
    exists i :: 0 <= i < |es| && es[i].id == id
  }

  /** The running total is what the entries weigh. */
  predicate Exact(h: History) {
    h.bytes == Weight(h.entries)
  }

  /** Enough for the limits even when an identifier was used twice. */
  predicate Bounded(h: History) {
    |h.entries| <= RUN_LIMIT && Weight(h.entries) <= BYTE_LIMIT && Weight(h.entries) <= h.bytes
  }

  lemma {:induction false} WeightAppend(es: seq<Entry>, e: Entry)
    ensures Weight(es + [e]) == Weight(es) + e.weight
  {
    if es == [] {
      assert (es + [e])[1..] == [];
    } else {
      assert (es + [e])[1..] == es[1..] + [e];
      WeightAppend(es[1..], e);
    }
  }

  lemma {:induction false} AssignNew(es: seq<Entry>, e: Entry)
    requires !Has(es, e.id)
    ensures Assign(es, e) == es + [e]
  {
    if es != [] {
      assert es[0].id != e.id;
      forall i | 0 <= i < |es[1..]| ensures es[1..][i].id != e.id { assert es[1..][i] == es[i + 1]; }
      AssignNew(es[1..], e);
    }
  }

  lemma {:induction false} AssignKnown(es: seq<Entry>, e: Entry)
    ensures |Assign(es, e)| <= |es| + 1 && Weight(Assign(es, e)) <= Weight(es) + e.weight
    ensures Has(es, e.id) ==> |Assign(es, e)| == |es|
  {
    if es != [] {
      if es[0].id == e.id {
        assert ([e] + es[1..])[1..] == es[1..];
      } else {
        AssignKnown(es[1..], e);
        assert ([es[0]] + Assign(es[1..], e))[1..] == Assign(es[1..], e);
        if i :| 0 <= i < |es| && es[i].id == e.id { assert es[1..][i - 1].id == e.id; }
      }
    }
  }

  /** What is left after dropping the first i entries. */
  function After(h: History, i: nat): History
    requires i <= |h.entries|
  {
    History(h.entries[i..], h.bytes - Weight(h.entries) + Weight(h.entries[i..]))
  }

  lemma AfterOne(h: History, i: nat)
    requires h.entries != [] && i < |h.entries|
    ensures After(h, 0) == h
    ensures After(After(h, 1), i) == After(h, i + 1)
  {
    assert h.entries[0..] == h.entries;
    assert h.entries[1..][i..] == h.entries[i + 1..];
  }

  /** Eviction drops as few entries as leave room, or all of them. */
  lemma {:induction false} EvictKeepsSuffix(h: History, weight: nat) returns (k: nat)
    ensures k <= |h.entries| && Evict(h, weight) == After(h, k)
    ensures k == |h.entries| || Room(After(h, k), weight)
    ensures forall i :: 0 <= i < k ==> !Room(After(h, i), weight)
    decreases |h.entries|
  {
    if h.entries == [] || Room(h, weight) {
      k := 0;
      assert h.entries[0..] == h.entries;
    } else {
      var m := EvictKeepsSuffix(After(h, 1), weight);
      k := m + 1;
      assert After(After(h, 1), m) == After(h, k) by { assert h.entries[1..][m..] == h.entries[k..]; }
      forall i | 0 <= i < k ensures !Room(After(h, i), weight) {
        if i > 0 { AfterOne(h, i - 1); }
      }
    }
  }

  /** A total from which an entry of this weight cannot fit drops everything there is. */
  lemma {:induction false} OversizedClears(h: History, weight: nat)
    requires weight > BYTE_LIMIT && Weight(h.entries) <= h.bytes
    ensures Evict(h, weight).entries == []
    decreases |h.entries|
  {
    if h.entries != [] {
      OversizedClears(History(h.entries[1..], h.bytes - h.entries[0].weight), weight);
    }
  }

  /** The limits hold after every run, whatever the sources weigh and whichever identifiers come. */
  lemma RememberKeepsBounded(h: History, e: Entry)
    requires Bounded(h)
    ensures Bounded(Remember(h, e))
  {
    var k := EvictKeepsSuffix(h, e.weight);
    var kept := Evict(h, e.weight);
    if e.weight > BYTE_LIMIT {
      OversizedClears(h, e.weight);
    } else {
      AssignKnown(kept.entries, e);
    }
  }

  /**
   With a new identifier and an exact total: a source over 1 MiB is not kept and
   clears the whole history; any other is kept last, after the longest run of the
   newest entries that leaves room for it.
   */
  lemma RememberKeepsNewest(h: History, e: Entry) returns (k: nat)
    requires Exact(h) && Bounded(h) && !Has(h.entries, e.id)
    ensures Exact(Remember(h, e)) && k <= |h.entries|
    ensures e.weight > BYTE_LIMIT ==> Remember(h, e).entries == []
    ensures e.weight <= BYTE_LIMIT ==> Remember(h, e).entries == h.entries[k..] + [e]
    ensures e.weight <= BYTE_LIMIT ==>
              forall i :: 0 <= i < k ==>
                |h.entries[i..]| >= RUN_LIMIT || Weight(h.entries[i..]) + e.weight > BYTE_LIMIT
  {
    k := EvictKeepsSuffix(h, e.weight);
    if e.weight > BYTE_LIMIT {
      OversizedClears(h, e.weight);
    } else {
      forall i | 0 <= i < |h.entries[k..]| ensures h.entries[k..][i].id != e.id {
        assert h.entries[k..][i] == h.entries[k + i];
      }
      AssignNew(h.entries[k..], e);
      forall i | 0 <= i < k
        ensures |h.entries[i..]| >= RUN_LIMIT || Weight(h.entries[i..]) + e.weight > BYTE_LIMIT
      {
        assert !Room(After(h, i), e.weight);
      }
      WeightAppend(h.entries[k..], e);
    }
  }

  lemma {:induction false} AssignWeight(es: seq<Entry>, e: Entry)
    ensures Weight(Assign(es, e)) == Weight(es) + e.weight - Replaced(es, e.id)
  {
    if es != [] {
      if es[0].id == e.id {
        assert ([e] + es[1..])[1..] == es[1..];
      } else {
        AssignWeight(es[1..], e);
        assert ([es[0]] + Assign(es[1..], e))[1..] == Assign(es[1..], e);
      }
    }
  }

  /** The weight of the entry an identifier would overwrite. */
  function Replaced(es: seq<Entry>, id: string): nat {
    if es == [] then 0 else if es[0].id == id then es[0].weight else Replaced(es[1..], id)
  }

  /**
   What a repeated identifier would do; the worker's only caller never repeats
   one. The total stays exact if and only if no entry still there after eviction
   is overwritten, because its old weight is not given back.
   */
  lemma TotalStaysExact(h: History, e: Entry)
    requires Exact(h) && e.weight <= BYTE_LIMIT
    ensures Remember(h, e).bytes - Weight(Remember(h, e).entries) == Replaced(Evict(h, e.weight).entries, e.id)
    ensures Exact(Remember(h, e)) <==> Replaced(Evict(h, e.weight).entries, e.id) == 0
  {
    var k := EvictKeepsSuffix(h, e.weight);
    AssignWeight(Evict(h, e.weight).entries, e);
  }

  lemma RepeatedIdDrifts()
    ensures Remember(Remember(History([], 0), Entry("a", "", 10)), Entry("a", "", 5))
            == History([Entry("a", "", 5)], 15)
  {
    assert Remember(History([], 0), Entry("a", "", 10)) == History([Entry("a", "", 10)], 10);
  }

  // ----- whole sessions -----

  /** What is remembered after these runs, the first one first. */
  function RememberAll(es: seq<Entry>): History {
    if es == [] then History([], 0) else Remember(RememberAll(es[..|es| - 1]), es[|es| - 1])
  }

  predicate DistinctIds(es: seq<Entry>) {
    forall i, j :: 0 <= i < j < |es| ==> es[i].id != es[j].id
  }

  predicate Fits(es: seq<Entry>) {
    |es| <= RUN_LIMIT && Weight(es) <= BYTE_LIMIT
  }

  lemma WeightOfLast(es: seq<Entry>, e: Entry, i: nat)
    requires i <= |es|
    ensures |(es + [e])[i..]| == |es[i..]| + 1 && Weight((es + [e])[i..]) == Weight(es[i..]) + e.weight
  {
    assert (es + [e])[i..] == es[i..] + [e];
    WeightAppend(es[i..], e);
  }

  /** The history is these entries from m on: the most of them that fit, counted from the end. */
  predicate Newest(es: seq<Entry>, m: nat, h: History) {
    && m <= |es| && h == History(es[m..], Weight(es[m..])) && Fits(es[m..])
    && forall i :: 0 <= i < m ==> !Fits(es[i..])
  }

  lemma NewestAfterOversized(es: seq<Entry>, e: Entry, m: nat, h: History)
    requires Newest(es, m, h) && e.weight > BYTE_LIMIT
    ensures Newest(es + [e], |es| + 1, Remember(h, e))
  {
    OversizedClears(h, e.weight);
    RememberedNothing(h, e);
    forall i | 0 <= i < |es| + 1 ensures !Fits((es + [e])[i..]) { WeightOfLast(es, e, i); }
  }

  lemma RememberedNothing(h: History, e: Entry)
    requires Exact(h) && e.weight > BYTE_LIMIT && Evict(h, e.weight).entries == []
    ensures Remember(h, e) == History([], 0)
  {
    var k := EvictKeepsSuffix(h, e.weight);
  }

  lemma NewestAfterFitting(es: seq<Entry>, e: Entry, m: nat, h: History) returns (k: nat)
    requires Newest(es, m, h) && e.weight <= BYTE_LIMIT && !Has(es, e.id)
    ensures Newest(es + [e], k, Remember(h, e))
  {
    forall i | 0 <= i < |es[m..]| ensures es[m..][i].id != e.id { assert es[m..][i] == es[m + i]; }
    var j := RememberKeepsNewest(h, e);
    RememberKeepsBounded(h, e);
    k := m + j;
    assert es[m..][j..] + [e] == (es + [e])[k..];
    forall i | 0 <= i < k ensures !Fits((es + [e])[i..]) {
      WeightOfLast(es, e, i);
      if m <= i { assert es[m..][i - m..] == es[i..]; }
    }
  }

  /**
   Over any sequence of runs, each with its own identifier: what is remembered is
   the longest run of the newest sources within 64 entries and 1 MiB, and the
   running total is exactly what they weigh. A source over 1 MiB is in no such
   run, so it leaves nothing.
   */
  lemma {:induction false} HistoryIsNewest(es: seq<Entry>) returns (k: nat)
    requires DistinctIds(es)
    ensures k <= |es| && RememberAll(es) == History(es[k..], Weight(es[k..])) && Fits(es[k..])
    ensures forall i :: 0 <= i < k ==> !Fits(es[i..])
  {
    if es == [] {
      k := 0;
    } else {
      var first, e := es[..|es| - 1], es[|es| - 1];
      var m := HistoryIsNewest(first);
      assert first + [e] == es && !Has(first, e.id);
      if e.weight > BYTE_LIMIT {
        NewestAfterOversized(first, e, m, RememberAll(first));
        k := |es|;
      } else {
        k := NewestAfterFitting(first, e, m, RememberAll(first));
      }
    }
  }

  class Sources {
    var entries: seq<Entry>
    var bytes: int

    ghost function Value(): History
      reads this
    {
      History(entries, bytes)
    }

    constructor ()
      ensures Value() == History([], 0)
    {
      entries, bytes := [], 0;
    }

    method RememberSource(e: Entry)
      modifies this
      ensures Value() == Remember(old(Value()), e)
    {
      while entries != [] && (|entries| >= RUN_LIMIT || bytes + e.weight > BYTE_LIMIT)
        invariant Evict(Value(), e.weight) == Evict(old(Value()), e.weight)
        decreases |entries|
      {
        bytes := bytes - entries[0].weight;
        entries := entries[1..];
      }
      if e.weight <= BYTE_LIMIT {
        entries := Assign(entries, e);
        bytes := bytes + e.weight;
      }
    }

    /** Retrieval by run, or the unknown-or-evicted error. */
    method Source(id: string) returns (source: Option<string>)
      ensures source.Some? <==> Has(entries, id)
      ensures source.Some? ==>
                exists i :: 0 <= i < |entries| && entries[i].id == id && entries[i].source == source.value
    {
      var i := 0;
      while i < |entries|
        invariant 0 <= i <= |entries| && forall j :: 0 <= j < i ==> entries[j].id != id
      {
        if entries[i].id == id { return Some(entries[i].source); }
        i := i + 1;
      }
      return None;
    }
  }
}
