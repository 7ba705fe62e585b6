/**
 checkpoint and restore of a session's variables (`src/repl_mcp/native_worker.py`).
 JSON text is represented by the value it denotes and its length in bytes.
 */
module Checkpoint {
  import opened Outcomes
  import opened Text
  import opened SafeValue

  const BYTE_LIMIT: nat := 256 * 1024
  const VALUES_LIMIT: nat := 256 * 1024 - 16384
  const COUNT_LIMIT: nat := 256
  const NAME_LIMIT: nat := 256

  /** Names of the session's helpers, and the sizes json.dumps would give. */
  datatype Setting = Setting(reserved: set<Text>, valuesWidth: seq<Pair> -> nat, recordWidth: Snapshot -> nat)

  /** What the checkpoint loop has gathered: saved values, names reported as skipped, entries counted. */
  datatype Snapshot = Snapshot(values: seq<Pair>, skipped: seq<Text>, count: nat)

  /** A parsed file: a record of the right format with its "values" field, or anything else. */
  datatype Document = Foreign | Record(values: Value)

  datatype File = File(length: nat, document: Option<Document>)

  const EMPTY: Snapshot := Snapshot([], [], 0)

  predicate Reserved(c: Setting, k: Key) {
    k.Name? && k.text in c.reserved
  }

  /** The value of a variable that may be saved, or None for any ValueError. */
  function Candidate(c: Setting, s: Snapshot, p: Pair): Option<Value>
    requires p.key.Name?
  {
    match Safe(p.value, 0, NODE_BUDGET)
    case None => None
    case Some(r) =>
      if !Encodable(p.key.text) || c.valuesWidth(Put(s.values, Pair(p.key, r.0))) > VALUES_LIMIT then None
      else Some(r.0)
  }

  /** One examined entry; an odd or over-long name is counted and left unreported. */
  function Examined(c: Setting, s: Snapshot, p: Pair): Snapshot {
    var t := s.(count := s.count + 1);
    if !p.key.Name? || |p.key.text| > NAME_LIMIT then t
    else match Candidate(c, s, p)
      case Some(v) => t.(values := Put(s.values, Pair(p.key, v)))
      case None => t.(skipped := s.skipped + [p.key.text])
  }

  /** The loop over the namespace: helpers are passed over, and it stops after 256 entries. */
  function Collect(c: Setting, s: Snapshot, ns: seq<Pair>): Snapshot
    decreases |ns|
  {
    if ns == [] then s
    else if Reserved(c, ns[0].key) then Collect(c, s, ns[1..])
    else if s.count >= COUNT_LIMIT then s
    else Collect(c, Examined(c, s, ns[0]), ns[1..])
  }

  /** Encoding the record fails on a skipped name that has no encoding. */
  predicate Writable(c: Setting, s: Snapshot) {
    (forall t :: t in s.skipped ==> Encodable(t)) && c.recordWidth(s) <= BYTE_LIMIT
  }

  function Save(c: Setting, ns: seq<Pair>): Option<File> {
    var s := Collect(c, EMPTY, ns);
    if Writable(c, s) then Some(File(c.recordWidth(s), Some(Record(Dict(true, s.values))))) else None
  }

  /** The validated bindings of a file's values, or None for the first refusal. */
  function Validated(c: Setting, ps: seq<Pair>): Option<seq<Pair>> {
    if ps == [] then Some([])
    else
      var last := ps[|ps| - 1];
      match Validated(c, ps[..|ps| - 1])
      case None => None
      case Some(before) =>
        if !last.key.Name? || |last.key.text| > NAME_LIMIT || Reserved(c, last.key) then None
        else match Safe(last.value, 0, NODE_BUDGET)
          case None => None
          case Some(r) => Some(Put(before, Pair(last.key, r.0)))
  }

  /** dict.update: each binding in turn. */
  function Update(ns: seq<Pair>, ps: seq<Pair>): seq<Pair> {
    if ps == [] then ns else Put(Update(ns, ps[..|ps| - 1]), ps[|ps| - 1])
  }

  /** What restore would bind, when it accepts the file. */
  function Accepted(c: Setting, file: File): Option<seq<Pair>> {
    if file.length > BYTE_LIMIT || file.document.None? then None
    else match file.document.value
      case Foreign => None
      case Record(values) =>
        if !values.Dict? || |values.pairs| > COUNT_LIMIT then None else Validated(c, values.pairs)
  }

  // ----- what a snapshot holds -----

  /** A saved binding is the normal form of that variable's value, and fit to be restored. */
  predicate SavedOk(c: Setting, ns: seq<Pair>, p: Pair) {
    && p.key.Name? && |p.key.text| <= NAME_LIMIT && !Reserved(c, p.key) && Encodable(p.key.text)
    && exists i :: 0 <= i < |ns| && ns[i].key == p.key
                   && Shape(ns[i].value, 0) && Nodes(ns[i].value) <= NODE_BUDGET && p.value == Normal(ns[i].value)
  }

  predicate SnapshotOk(c: Setting, ns: seq<Pair>, s: Snapshot) {
    && DistinctKeys(s.values) && |s.values| <= s.count <= COUNT_LIMIT
    && forall p :: p in s.values ==> SavedOk(c, ns, p)
  }

  lemma ExaminedOk(c: Setting, ns: seq<Pair>, s: Snapshot, i: nat)
    requires i < |ns| && SnapshotOk(c, ns, s) && s.count < COUNT_LIMIT && !Reserved(c, ns[i].key)
    ensures SnapshotOk(c, ns, Examined(c, s, ns[i]))
  {
    var p := ns[i];
    SafeExact(p.value, 0, NODE_BUDGET);
    if p.key.Name? && |p.key.text| <= NAME_LIMIT && Candidate(c, s, p).Some? {
      var saved := Pair(p.key, Normal(p.value));
      assert SavedOk(c, ns, saved);
      PutDistinct(s.values, saved);
    }
  }

  lemma {:induction false} CollectOk(c: Setting, ns: seq<Pair>, s: Snapshot, k: nat)
    requires k <= |ns| && SnapshotOk(c, ns, s)
    ensures SnapshotOk(c, ns, Collect(c, s, ns[k..]))
    decreases |ns| - k
  {
    if k < |ns| {
      assert ns[k..][1..] == ns[k + 1..];
      if Reserved(c, ns[k].key) {
        CollectOk(c, ns, s, k + 1);
      } else if s.count < COUNT_LIMIT {
        ExaminedOk(c, ns, s, k);
        CollectOk(c, ns, Examined(c, s, ns[k]), k + 1);
      }
    }
  }

  /** What is saved is bound to distinct, permitted names and is the normal form of the namespace's values. */
  lemma SavedFile(c: Setting, ns: seq<Pair>)
    ensures SnapshotOk(c, ns, Collect(c, EMPTY, ns))
  {
    assert ns[0..] == ns;
    CollectOk(c, ns, EMPTY, 0);
  }

  // ----- round trip -----

  lemma NormalAccepted(v: Value)
    requires Shape(v, 0) && Nodes(v) <= NODE_BUDGET
    ensures Safe(Normal(v), 0, NODE_BUDGET).Some? && Safe(Normal(v), 0, NODE_BUDGET).value.0 == Normal(v)
  {
    SafeExact(v, 0, NODE_BUDGET);
    SafeIdempotent(v, 0, NODE_BUDGET);
  }

  lemma SavedOneMore(c: Setting, ns: seq<Pair>, ps: seq<Pair>, p: Pair)
    requires Validated(c, ps) == Some(ps) && !HasKey(ps, p.key) && SavedOk(c, ns, p)
    ensures Validated(c, ps + [p]) == Some(ps + [p])
  {
    var i :| 0 <= i < |ns| && Shape(ns[i].value, 0) && Nodes(ns[i].value) <= NODE_BUDGET
             && p.value == Normal(ns[i].value);
    NormalAccepted(ns[i].value);
    assert (ps + [p])[..|ps|] == ps;
    assert p == Pair(p.key, p.value);
  }

  lemma NewLastKey(before: seq<Pair>, p: Pair)
    requires DistinctKeys(before + [p])
    ensures DistinctKeys(before) && !HasKey(before, p.key)
  {
    var all := before + [p];
    forall j | 0 <= j < |before| ensures before[j].key != p.key { assert all[j].key != all[|before|].key; }
    forall i, j | 0 <= i < j < |before| ensures before[i].key != before[j].key { assert all[i].key != all[j].key; }
  }

  lemma {:induction false} SavedIsValidated(c: Setting, ns: seq<Pair>, ps: seq<Pair>)
    requires DistinctKeys(ps) && forall p :: p in ps ==> SavedOk(c, ns, p)
    ensures Validated(c, ps) == Some(ps)
  {
    if ps != [] {
      var before, p := ps[..|ps| - 1], ps[|ps| - 1];
      assert ps == before + [p];
      NewLastKey(before, p);
      SavedIsValidated(c, ns, before);
      SavedOneMore(c, ns, before, p);
    }
  }

  lemma {:induction false} LookupAppend(ps: seq<Pair>, p: Pair, k: Key)
    requires !HasKey(ps, p.key)
    ensures Lookup(ps + [p], k) == if k == p.key then Some(p.value) else Lookup(ps, k)
  {
    assert Put(ps, p) == ps + [p];
    LookupPut(ps, p, k);
  }

  /** Updating binds the given names and leaves every other name alone. */
  lemma {:induction false} UpdateBinds(ns: seq<Pair>, ps: seq<Pair>, k: Key)
    requires DistinctKeys(ps)
    ensures Lookup(Update(ns, ps), k) == match Lookup(ps, k) case Some(v) => Some(v) case None => Lookup(ns, k)
  {
    if ps != [] {
      var n := |ps| - 1;
      UpdateBinds(ns, ps[..n], k);
      LookupPut(Update(ns, ps[..n]), ps[n], k);
      forall j | 0 <= j < n ensures ps[..n][j].key != ps[n].key { assert ps[j].key != ps[n].key; }
      LookupAppend(ps[..n], ps[n], k);
      assert ps == ps[..n] + [ps[n]];
    }
  }

  /**
   Whatever a checkpoint wrote, restore accepts, into any namespace: each saved
   name is bound to the normal form of the value it had, and every other name
   keeps its value.
   */
  lemma RoundTrip(c: Setting, ns: seq<Pair>, into: seq<Pair>, k: Key)
    requires DistinctKeys(ns) && Save(c, ns).Some?
    ensures var values := Collect(c, EMPTY, ns).values;
            && Accepted(c, Save(c, ns).value) == Some(values)
            && (HasKey(values, k) ==>
                  Lookup(ns, k).Some? && Lookup(Update(into, values), k) == Some(Normal(Lookup(ns, k).value)))
            && (!HasKey(values, k) ==> Lookup(Update(into, values), k) == Lookup(into, k))
  {
    var values := Collect(c, EMPTY, ns).values;
    SavedFile(c, ns);
    SavedIsValidated(c, ns, values);
    UpdateBinds(into, values, k);
    LookupHas(values, k);
    if HasKey(values, k) {
      var p := Pair(k, Lookup(values, k).value);
      assert SavedOk(c, ns, p);
      var i :| 0 <= i < |ns| && ns[i].key == k && p.value == Normal(ns[i].value);
      LookupMember(ns, ns[i]);
    }
  }

  lemma {:induction false} ValidatedDistinct(c: Setting, ps: seq<Pair>)
    requires Validated(c, ps).Some?
    ensures DistinctKeys(Validated(c, ps).value)
    ensures forall p :: p in Validated(c, ps).value ==> p.key.Name? && !Reserved(c, p.key)
  {
    if ps != [] {
      var n := |ps| - 1;
      ValidatedDistinct(c, ps[..n]);
      PutDistinct(Validated(c, ps[..n]).value, Pair(ps[n].key, Safe(ps[n].value, 0, NODE_BUDGET).value.0));
    }
  }

  /** No file can replace a helper: a reserved name keeps its value through any accepted restore. */
  lemma HelpersSurvive(c: Setting, file: File, into: seq<Pair>, k: Key)
    requires Accepted(c, file).Some? && Reserved(c, k)
    ensures Lookup(Update(into, Accepted(c, file).value), k) == Lookup(into, k)
  {
    var ps := Accepted(c, file).value;
    ValidatedDistinct(c, file.document.value.values.pairs);
    UpdateBinds(into, ps, k);
    LookupHas(ps, k);
  }

  // ----- when checkpoint cannot write at all -----

  predicate Scanned(c: Setting, ns: seq<Pair>, i: nat) {
    i < |ns| && !Reserved(c, ns[i].key) && CountBefore(c, ns, i) < COUNT_LIMIT
  }

  /** Entries before i that the loop counts. */
  function CountBefore(c: Setting, ns: seq<Pair>, i: nat): nat
    requires i <= |ns|
  {
    if i == 0 then 0 else CountBefore(c, ns, i - 1) + if Reserved(c, ns[i - 1].key) then 0 else 1
  }

  /** A name the loop reports as skipped although it has no encoding. */
  predicate BadName(c: Setting, ns: seq<Pair>, i: nat) {
    Scanned(c, ns, i) && ns[i].key.Name? && |ns[i].key.text| <= NAME_LIMIT && !Encodable(ns[i].key.text)
  }

  predicate SkipsUnencodable(s: Snapshot) {
    exists i :: 0 <= i < |s.skipped| && !Encodable(s.skipped[i])
  }

  lemma {:induction false} SkippedStays(c: Setting, s: Snapshot, ns: seq<Pair>)
    requires SkipsUnencodable(s)
    ensures SkipsUnencodable(Collect(c, s, ns))
    decreases |ns|
  {
    if ns != [] {
      if Reserved(c, ns[0].key) {
        SkippedStays(c, s, ns[1..]);
      } else if s.count < COUNT_LIMIT {
        var i :| 0 <= i < |s.skipped| && !Encodable(s.skipped[i]);
        assert Examined(c, s, ns[0]).skipped[i] == s.skipped[i];
        SkippedStays(c, Examined(c, s, ns[0]), ns[1..]);
      }
    }
  }

  lemma {:induction false} ReachesName(c: Setting, ns: seq<Pair>, s: Snapshot, k: nat, i: nat)
    requires k <= i < |ns| && s.count == CountBefore(c, ns, k) && Scanned(c, ns, i)
    requires ns[i].key.Name? && |ns[i].key.text| <= NAME_LIMIT && !Encodable(ns[i].key.text)
    ensures SkipsUnencodable(Collect(c, s, ns[k..]))
    decreases i - k
  {
    assert ns[k..][1..] == ns[k + 1..];
    CountGrows(c, ns, k, i);
    if k == i {
      var t := Examined(c, s, ns[i]);
      assert !Encodable(t.skipped[|t.skipped| - 1]);
      SkippedStays(c, t, ns[k + 1..]);
    } else if Reserved(c, ns[k].key) {
      ReachesName(c, ns, s, k + 1, i);
    } else {
      ReachesName(c, ns, Examined(c, s, ns[k]), k + 1, i);
    }
  }

  lemma {:induction false} CountGrows(c: Setting, ns: seq<Pair>, k: nat, i: nat)
    requires k <= i <= |ns|
    ensures CountBefore(c, ns, k) <= CountBefore(c, ns, i)
  {
    if k < i { CountGrows(c, ns, k, i - 1); }
  }

  /**
   One variable is enough to stop every checkpoint: among the entries it looks
   at, a name of at most 256 characters with a lone surrogate is reported as
   skipped, and the report itself then has no encoding.
   */
  lemma SurrogateNameStopsCheckpoint(c: Setting, ns: seq<Pair>, i: nat)
    requires BadName(c, ns, i)
    ensures Save(c, ns).None?
  {
    assert ns[0..] == ns;
    ReachesName(c, ns, EMPTY, 0, i);
  }

  lemma ExaminedSkips(c: Setting, s: Snapshot, p: Pair)
    requires !SkipsUnencodable(s) && SkipsUnencodable(Examined(c, s, p))
    ensures p.key.Name? && |p.key.text| <= NAME_LIMIT && !Encodable(p.key.text)
  {
    var t := Examined(c, s, p);
    var i :| 0 <= i < |t.skipped| && !Encodable(t.skipped[i]);
  }

  lemma {:induction false} SkippedComesFrom(c: Setting, ns: seq<Pair>, s: Snapshot, k: nat) returns (i: nat)
    requires k <= |ns| && s.count == CountBefore(c, ns, k)
    requires !SkipsUnencodable(s) && SkipsUnencodable(Collect(c, s, ns[k..]))
    ensures BadName(c, ns, i)
    decreases |ns| - k
  {
    assert ns[k..][1..] == ns[k + 1..];
    if Reserved(c, ns[k].key) {
      i := SkippedComesFrom(c, ns, s, k + 1);
    } else if SkipsUnencodable(Examined(c, s, ns[k])) {
      ExaminedSkips(c, s, ns[k]);
      i := k;
    } else {
      i := SkippedComesFrom(c, ns, Examined(c, s, ns[k]), k + 1);
    }
  }

  /**
   Exactly when a checkpoint is written: none of the names looked at is one of
   those, and the record with its report of skipped names is within 256 KiB.
   */
  lemma CheckpointFailsExactly(c: Setting, ns: seq<Pair>)
    ensures Save(c, ns).None? <==>
            (exists i: nat :: BadName(c, ns, i)) || c.recordWidth(Collect(c, EMPTY, ns)) > BYTE_LIMIT
  {
    assert ns[0..] == ns;
    var s := Collect(c, EMPTY, ns);
    if i: nat :| BadName(c, ns, i) { SurrogateNameStopsCheckpoint(c, ns, i); }
    if t :| t in s.skipped && !Encodable(t) {
      var n :| 0 <= n < |s.skipped| && s.skipped[n] == t;
      assert SkipsUnencodable(s);
      var i := SkippedComesFrom(c, ns, EMPTY, 0);
    }
  }

  /** Keys that differ only in a lone surrogate are merged, so a saved dictionary can come back smaller. */
  lemma KeysCanMerge(a: Value, b: Value)
    ensures var d := Dict(true, [Pair(Name([0xD800]), a), Pair(Name([QUESTION]), b)]);
            DistinctKeys(d.pairs) && Normal(d).pairs == [Pair(Name([QUESTION]), Normal(b))]
  {
    var ps := [Pair(Name([0xD800]), a), Pair(Name([QUESTION]), b)];
    assert Clean([0xD800]) == [QUESTION] && Clean([QUESTION]) == [QUESTION];
    var x, y := Pair(Name([QUESTION]), Normal(a)), Pair(Name([QUESTION]), Normal(b));
    assert NormalPairs(ps) == [x, y];
    NormalOfDict(true, ps);
    LastOfTwo(x, y);
  }

  lemma LastOfTwo(x: Pair, y: Pair)
    requires x.key == y.key
    ensures Collapse([x, y]) == [y]
  {
    assert [x, y][..1] == [x] && [x][..0] == [];
    assert Collapse([x]) == [x];
    assert Put([x], y) == [y];
  }

  // ----- the worker -----

  class Worker {
    var namespace: seq<Pair>
    const setting: Setting

    constructor (setting: Setting, namespace: seq<Pair>)
      ensures this.setting == setting && this.namespace == namespace
    {
      this.setting := setting;
      this.namespace := namespace;
    }

    method Checkpoint() returns (file: Option<File>)
      ensures file == Save(setting, namespace)
    {
      var s := EMPTY;
      var i := 0;
      assert namespace[0..] == namespace;
      while i < |namespace|
        invariant 0 <= i <= |namespace|
        invariant Collect(setting, s, namespace[i..]) == Collect(setting, EMPTY, namespace)
      {
        var p := namespace[i];
        assert namespace[i..][0] == p && namespace[i..][1..] == namespace[i + 1..];
        i := i + 1;
        if Reserved(setting, p.key) { continue; }
        if s.count >= COUNT_LIMIT { break; }
        s := Examined(setting, s, p);
      }
      if !Writable(setting, s) { return None; }
      return Some(File(setting.recordWidth(s), Some(Record(Dict(true, s.values)))));
    }

    /** The validation loop: the first bad name or value refuses the file. */
    method Validate(ps: seq<Pair>) returns (validated: Option<seq<Pair>>)
      ensures validated == Validated(setting, ps)
    {
      var bound: seq<Pair> := [];
      var i := 0;
      while i < |ps|
        invariant 0 <= i <= |ps| && Validated(setting, ps[..i]) == Some(bound)
      {
        var p := ps[i];
        assert ps[..i + 1][..i] == ps[..i];
        var safe := Safe(p.value, 0, NODE_BUDGET);
        if !p.key.Name? || |p.key.text| > NAME_LIMIT || Reserved(setting, p.key) || safe.None? {
          RefusalStays(setting, ps, i + 1);
          return None;
        }
        bound := Put(bound, Pair(p.key, safe.value.0));
        i := i + 1;
      }
      assert ps[..i] == ps;
      return Some(bound);
    }

    /** All or nothing: a refused file changes no variable. */
    method Restore(file: File) returns (restored: Option<nat>)
      modifies this
      ensures restored.None? <==> Accepted(setting, file).None?
      ensures restored.None? ==> namespace == old(namespace)
      ensures restored.Some? ==>
                && namespace == Update(old(namespace), Accepted(setting, file).value)
                && restored.value == |Accepted(setting, file).value|
    {
      if file.length > BYTE_LIMIT || file.document.None? { return None; }
      if file.document.value.Foreign? { return None; }
      var values := file.document.value.values;
      if !values.Dict? || |values.pairs| > COUNT_LIMIT { return None; }
      var validated := Validate(values.pairs);
      if validated.None? { return None; }
      namespace := Update(namespace, validated.value);
      return Some(|validated.value|);
    }
  }

  lemma {:induction false} RefusalStays(c: Setting, ps: seq<Pair>, i: nat)
    requires i <= |ps| && Validated(c, ps[..i]).None?
    ensures Validated(c, ps).None?
  {
    if i < |ps| {
      assert ps[..|ps| - 1][..i] == ps[..i];
      RefusalStays(c, ps[..|ps| - 1], i);
    } else {
      assert ps[..i] == ps;
    }
  }
}
