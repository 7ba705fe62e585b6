/**
 The broker's bounded ledger of external calls: admission, the single terminal
 status of each record, the encoded size of a snapshot, and the rules a file
 must meet to be loaded again (`native/src/broker.rs`).
 */
module Ledger {
  import opened Outcomes

  const MAX_RECORDS: nat := 256
  const ENCODE_BUDGET: nat := 900000
  const RELOAD_CAP: nat := 1024 * 1024
  /** Most bytes one record can gain when it finishes; see FinishGrowth. */
  const FINISH_GROWTH: nat := 59
  /** now_ms is a u128, so it never has more decimal digits than this. */
  const CLOCK_DIGITS: nat := 39

  /** A metadata value; Token stands for any JSON value that is neither text nor a number. */
  datatype Json = Text(text: string) | Number(value: nat) | Token(width: nat)
  type Field = Option<Json>

  /** One journal object: each of the nine permitted keys is present or absent. */
  datatype Record = Record(
    id: Field, session: Field, project: Field, run: Field, server: Field,
    tool: Field, started: Field, finished: Field, status: Field)

  predicate Dispatched(r: Record) {
    r.status == Some(Text("dispatched"))
  }

  predicate Named(r: Record, id: string) {
    r.id == Some(Text(id))
  }

  /** The three statuses a call can end with. */
  predicate Terminal(status: string) {
    status == "completed" || status == "tool_error" || status == "outcome_unknown"
  }

  // ----- encoded size -----

  function Utf8Width(c: char): (w: nat)
    ensures 1 <= w <= 4
  {
    if c as int < 0x80 then 1
    else if c as int < 0x800 then 2
    else if c as int < 0x1_0000 then 3
    else 4
  }

  /** Bytes serde_json spends on one character of a string. */
  function CharWidth(c: char): nat {
    if c == '\"' || c == '\\' || c == '\n' || c == '\r' || c == '\t' then 2
    else if c as int == 8 || c as int == 12 then 2
    else if c as int < 0x20 then 6
    else Utf8Width(c)
  }

  function TextWidth(s: string): nat {
    if s == "" then 0 else CharWidth(s[0]) + TextWidth(s[1..])
  }

  function Digits(n: nat): nat {
    if n < 10 then 1 else 1 + Digits(n / 10)
  }

  function Pow10(k: nat): nat {
    if k == 0 then 1 else 10 * Pow10(k - 1)
  }

  function JsonWidth(v: Json): nat {
    match v
    case Text(s) => 2 + TextWidth(s)
    case Number(n) => Digits(n)
    case Token(w) => w
  }

  /** Each key's length with its member; the two that change when a call finishes come last. */
  function Fields(r: Record): seq<(nat, Field)> {
    [(2, r.id), (10, r.session), (7, r.project), (6, r.run), (6, r.server), (4, r.tool),
     (10, r.started), (11, r.finished), (6, r.status)]
  }

  /** A present member costs its quoted key, a colon, its value and one comma. */
  function Members(fields: seq<(nat, Field)>): nat {
    if fields == [] then 0 else MemberWidth(fields[0].0, fields[0].1) + Members(fields[1..])
  }

  function MemberWidth(key: nat, f: Field): nat {
    match f
    case None => 0
    case Some(v) => key + 4 + JsonWidth(v)
  }

  /** The last member carries no comma. */
  function RecordWidth(r: Record): nat {
    var m := Members(Fields(r));
    if m == 0 then 2 else m + 1
  }

  function Sum(j: seq<Record>): nat {
    if j == [] then 0 else RecordWidth(j[0]) + Sum(j[1..])
  }

  /** Bytes of the whole JSON array. */
  function Width(j: seq<Record>): nat {
    2 + Sum(j) + if j == [] then 0 else |j| - 1
  }

  function InFlight(j: seq<Record>): seq<Record> {
    if j == [] then []
    else if Dispatched(j[0]) then [j[0]] + InFlight(j[1..])
    else InFlight(j[1..])
  }

  lemma {:induction false} SumAppend(a: seq<Record>, b: seq<Record>)
    ensures Sum(a + b) == Sum(a) + Sum(b)
  {
    if a == [] {
      assert a + b == b;
    } else {
      assert (a + b)[1..] == a[1..] + b;
      SumAppend(a[1..], b);
    }
  }

  lemma {:induction false} InFlightAppend(a: seq<Record>, b: seq<Record>)
    ensures InFlight(a + b) == InFlight(a) + InFlight(b)
  {
    if a == [] {
      assert a + b == b;
    } else {
      assert (a + b)[1..] == a[1..] + b;
      InFlightAppend(a[1..], b);
      assert [a[0]] + (InFlight(a[1..]) + InFlight(b)) == [a[0]] + InFlight(a[1..]) + InFlight(b);
    }
  }

  lemma {:induction false} Around(j: seq<Record>, i: nat)
    requires i < |j|
    ensures j == j[..i] + [j[i]] + j[i + 1..]
    ensures Sum(j) == Sum(j[..i]) + RecordWidth(j[i]) + Sum(j[i + 1..])
    ensures InFlight(j) == InFlight(j[..i]) + InFlight([j[i]]) + InFlight(j[i + 1..])
  {
    assert j == j[..i] + [j[i]] + j[i + 1..];
    SumAppend(j[..i] + [j[i]], j[i + 1..]);
    SumAppend(j[..i], [j[i]]);
    InFlightAppend(j[..i] + [j[i]], j[i + 1..]);
    InFlightAppend(j[..i], [j[i]]);
  }

  // ----- admission -----

  function OldestTerminal(j: seq<Record>): (k: Option<nat>)
    ensures k.Some? ==> k.value < |j| && !Dispatched(j[k.value])
    ensures k.Some? ==> forall i :: 0 <= i < k.value ==> Dispatched(j[i])
    ensures k.None? ==> forall i :: 0 <= i < |j| ==> Dispatched(j[i])
  {
    if j == [] then None
    else if !Dispatched(j[0]) then Some(0)
    else match OldestTerminal(j[1..])
      case None => None
      case Some(i) => Some(i + 1)
  }

  function Without(j: seq<Record>, i: nat): seq<Record>
    requires i < |j|
  {
    j[..i] + j[i + 1..]
  }

  datatype Admission = Admitted | AllInFlight | BudgetExhausted

  /** Dropping terminal records until `j` followed by the new record fits the budget. */
  function Shrink(j: seq<Record>, r: Record): (Admission, seq<Record>)
    decreases |j|
  {
    if Width(j + [r]) <= ENCODE_BUDGET then (Admitted, j + [r])
    else match OldestTerminal(j)
      case Some(i) => Shrink(Without(j, i), r)
      case None => (BudgetExhausted, j)
  }

  function Admit(j: seq<Record>, r: Record): (Admission, seq<Record>) {
    if |j| < MAX_RECORDS then Shrink(j, r)
    else match OldestTerminal(j)
      case Some(i) => Shrink(Without(j, i), r)
      case None => (AllInFlight, j)
  }

  /** The ledger with its `k` oldest terminal records removed. */
  function DropOldest(j: seq<Record>, k: nat): seq<Record> {
    if k == 0 then j
    else match OldestTerminal(j)
      case Some(i) => DropOldest(Without(j, i), k - 1)
      case None => j
  }

  predicate Fits(j: seq<Record>, r: Record) {
    |j| + 1 <= MAX_RECORDS && Width(j + [r]) <= ENCODE_BUDGET
  }

  lemma WithoutKeepsInFlight(j: seq<Record>, i: nat)
    requires i < |j| && !Dispatched(j[i])
    ensures InFlight(Without(j, i)) == InFlight(j)
  {
    Around(j, i);
    InFlightAppend(j[..i], j[i + 1..]);
  }

  /** Eviction never touches an in-flight record and never reorders the rest. */
  lemma {:induction false} DropKeepsInFlight(j: seq<Record>, k: nat)
    ensures InFlight(DropOldest(j, k)) == InFlight(j)
    ensures |DropOldest(j, k)| <= |j|
    decreases k
  {
    if k > 0 {
      match OldestTerminal(j)
      case Some(i) =>
        WithoutKeepsInFlight(j, i);
        DropKeepsInFlight(Without(j, i), k - 1);
      case None =>
    }
  }

  /** The limits hold once the `k` oldest terminal records are gone. */
  predicate FitsAfter(j: seq<Record>, r: Record, k: nat) {
    Fits(DropOldest(j, k), r)
  }

  /** How many records admission evicts. */
  function Evictions(j: seq<Record>, r: Record): nat
    decreases |j|
  {
    if Fits(j, r) then 0
    else match OldestTerminal(j)
      case Some(i) => 1 + Evictions(Without(j, i), r)
      case None => 0
  }

  lemma {:induction false} ShrinkDrops(j: seq<Record>, r: Record)
    requires |j| < MAX_RECORDS
    ensures Shrink(j, r).0.Admitted? <==> FitsAfter(j, r, Evictions(j, r))
    ensures Shrink(j, r).1
            == DropOldest(j, Evictions(j, r)) + if Shrink(j, r).0.Admitted? then [r] else []
    decreases |j|
  {
    if !Fits(j, r) {
      match OldestTerminal(j)
      case Some(i) => ShrinkDrops(Without(j, i), r);
      case None =>
    }
  }

  lemma {:induction false} NoneFitsBefore(j: seq<Record>, r: Record, k: nat)
    requires k < Evictions(j, r)
    ensures !FitsAfter(j, r, k)
    decreases |j|
  {
    if k > 0 {
      NoneFitsBefore(Without(j, OldestTerminal(j).value), r, k - 1);
    }
  }

  lemma {:induction false} NoneFitsAtAll(j: seq<Record>, r: Record, k: nat)
    requires !FitsAfter(j, r, Evictions(j, r))
    ensures !FitsAfter(j, r, k)
    ensures InFlight(DropOldest(j, Evictions(j, r))) == DropOldest(j, Evictions(j, r))
    decreases |j|
  {
    match OldestTerminal(j)
    case Some(i) => NoneFitsAtAll(Without(j, i), r, if k > 0 then k - 1 else 0);
    case None => AllDispatched(j);
  }

  lemma {:induction false} AllDispatched(j: seq<Record>)
    requires forall i :: 0 <= i < |j| ==> Dispatched(j[i])
    ensures InFlight(j) == j
  {
    if j != [] {
      AllDispatched(j[1..]);
    }
  }

  lemma AdmitDrops(j: seq<Record>, r: Record)
    requires |j| <= MAX_RECORDS
    ensures Admit(j, r).0.Admitted? <==> FitsAfter(j, r, Evictions(j, r))
    ensures Admit(j, r).1
            == DropOldest(j, Evictions(j, r)) + if Admit(j, r).0.Admitted? then [r] else []
  {
    if |j| < MAX_RECORDS {
      ShrinkDrops(j, r);
    } else if OldestTerminal(j).Some? {
      AdmitWhenFull(j, r, OldestTerminal(j).value);
      ShrinkDrops(Without(j, OldestTerminal(j).value), r);
    }
  }

  lemma EvictOne(j: seq<Record>, r: Record, i: nat)
    requires !Fits(j, r) && OldestTerminal(j) == Some(i)
    ensures Evictions(j, r) == 1 + Evictions(Without(j, i), r)
    ensures DropOldest(j, Evictions(j, r)) == DropOldest(Without(j, i), Evictions(Without(j, i), r))
  {}

  lemma AdmitWhenFull(j: seq<Record>, r: Record, i: nat)
    requires |j| == MAX_RECORDS && OldestTerminal(j) == Some(i)
    ensures Admit(j, r) == Shrink(Without(j, i), r)
    ensures FitsAfter(j, r, Evictions(j, r)) == FitsAfter(Without(j, i), r, Evictions(Without(j, i), r))
    ensures DropOldest(j, Evictions(j, r)) == DropOldest(Without(j, i), Evictions(Without(j, i), r))
  {
    EvictOne(j, r, i);
  }

  /**
   Admission in terms of what it means rather than how it loops: it succeeds
   exactly when some number of evictions meets both limits, it then makes the
   least such number, and on refusal only in-flight records remain. Either way
   no in-flight record is lost.
   */
  lemma AdmissionIsMinimal(j: seq<Record>, r: Record) returns (k: nat)
    requires |j| <= MAX_RECORDS && Dispatched(r)
    ensures Admit(j, r).0.Admitted? <==> exists i: nat :: FitsAfter(j, r, i)
    ensures Admit(j, r).0.Admitted? ==>
              Admit(j, r).1 == DropOldest(j, k) + [r] && FitsAfter(j, r, k)
              && forall i: nat :: i < k ==> !FitsAfter(j, r, i)
    ensures !Admit(j, r).0.Admitted? ==>
              Admit(j, r).1 == DropOldest(j, k) && InFlight(Admit(j, r).1) == Admit(j, r).1
    ensures InFlight(Admit(j, r).1)
            == InFlight(j) + if Admit(j, r).0.Admitted? then [r] else []
    ensures |Admit(j, r).1| <= MAX_RECORDS
  {
    k := Evictions(j, r);
    AdmitDrops(j, r);
    if FitsAfter(j, r, k) {
      forall i: nat | i < k ensures !FitsAfter(j, r, i) { NoneFitsBefore(j, r, i); }
    } else {
      forall i: nat ensures !FitsAfter(j, r, i) { NoneFitsAtAll(j, r, i); }
      NoneFitsAtAll(j, r, 0);
    }
    DropKeepsInFlight(j, k);
    InFlightAppend(DropOldest(j, k), [r]);
  }

  // ----- finishing -----

  function Find(j: seq<Record>, id: string): (k: Option<nat>)
    ensures k.Some? ==> k.value < |j| && Named(j[k.value], id)
    ensures k.Some? ==> forall i :: 0 <= i < k.value ==> !Named(j[i], id)
    ensures k.None? ==> forall i :: 0 <= i < |j| ==> !Named(j[i], id)
  {
    if j == [] then None
    else if Named(j[0], id) then Some(0)
    else match Find(j[1..], id)
      case None => None
      case Some(i) => Some(i + 1)
  }

  function Stamp(r: Record, status: string, now: nat): Record {
    r.(status := Some(Text(status)), finished := Some(Number(now)))
  }

  function SetStatus(j: seq<Record>, id: string, status: string, now: nat): seq<Record> {
    match Find(j, id)
    case None => j
    case Some(i) => j[i := Stamp(j[i], status, now)]
  }

  lemma {:induction false} DigitsBound(n: nat, k: nat)
    requires k >= 1 && n < Pow10(k)
    ensures Digits(n) <= k
  {
    if n >= 10 {
      assert Pow10(k) == 10 * Pow10(k - 1);
      DigitsBound(n / 10, k - 1);
    }
  }

  predicate Plain(s: string) {
    forall i :: 0 <= i < |s| ==> '_' <= s[i] <= 'z'
  }

  lemma {:induction false} PlainWidth(s: string)
    requires Plain(s)
    ensures TextWidth(s) == |s|
  {
    if s != "" {
      PlainWidth(s[1..]);
    }
  }

  lemma {:induction false} MembersConcat(a: seq<(nat, Field)>, b: seq<(nat, Field)>)
    ensures Members(a + b) == Members(a) + Members(b)
  {
    if a == [] {
      assert a + b == b;
    } else {
      assert (a + b)[1..] == a[1..] + b;
      MembersConcat(a[1..], b);
    }
  }

  /** The width of a record apart from its finish time and status. */
  function Rest(r: Record): nat {
    Members(Fields(r)[..7])
  }

  lemma StatusLast(r: Record)
    ensures Members(Fields(r)) == Rest(r) + MemberWidth(11, r.finished) + MemberWidth(6, r.status)
  {
    var tail := [(11, r.finished), (6, r.status)];
    assert Fields(r) == Fields(r)[..7] + tail;
    MembersConcat(Fields(r)[..7], tail);
    assert tail[1..] == [(6, r.status)];
    assert Members(tail) == MemberWidth(11, r.finished) + Members(tail[1..]);
  }

  lemma StatusesArePlain(s: string)
    requires s == "dispatched" || Terminal(s)
    ensures Plain(s) && |s| <= 15
    ensures s == "dispatched" ==> |s| == 10
    ensures s == "outcome_unknown" ==> |s| == 15
  {}

  lemma GrowthOf(r: Record, before: string, status: string, now: nat)
    requires r.status == Some(Text(before)) && Plain(before) && |before| == 10 && r.finished.None?
    requires Plain(status) && |status| <= 15 && now < Pow10(CLOCK_DIGITS)
    ensures RecordWidth(Stamp(r, status, now)) <= RecordWidth(r) + FINISH_GROWTH
  {
    var s := Stamp(r, status, now);
    PlainWidth(before);
    PlainWidth(status);
    DigitsBound(now, CLOCK_DIGITS);
    StatusLast(r);
    StatusLast(s);
    assert Fields(s)[..7] == Fields(r)[..7];
  }

  /** Finishing one in-flight record adds at most FINISH_GROWTH bytes to it. */
  lemma FinishGrowth(r: Record, status: string, now: nat)
    requires Dispatched(r) && r.finished.None? && Terminal(status)
    requires now < Pow10(CLOCK_DIGITS)
    ensures RecordWidth(Stamp(r, status, now)) <= RecordWidth(r) + FINISH_GROWTH
  {
    StatusesArePlain(r.status.value.text);
    StatusesArePlain(status);
    GrowthOf(r, r.status.value.text, status, now);
  }

  /** Every in-flight record was created by a dispatch, so it has no finish time yet. */
  predicate Fresh(j: seq<Record>) {
    forall i :: 0 <= i < |j| && Dispatched(j[i]) ==> j[i].finished.None?
  }

  /** Bytes now plus the bytes every in-flight record may still gain. */
  function Potential(j: seq<Record>): nat {
    Width(j) + FINISH_GROWTH * |InFlight(j)|
  }

  const POTENTIAL_CAP: nat := ENCODE_BUDGET + FINISH_GROWTH * MAX_RECORDS

  predicate Bounded(j: seq<Record>) {
    |j| <= MAX_RECORDS && Fresh(j) && Potential(j) <= POTENTIAL_CAP
  }

  lemma {:induction false} InFlightCount(j: seq<Record>)
    ensures |InFlight(j)| <= |j|
  {
    if j != [] { InFlightCount(j[1..]); }
  }

  lemma {:induction false} DropMembers(j: seq<Record>, k: nat)
    ensures forall r :: r in DropOldest(j, k) ==> r in j
    decreases k
  {
    if k > 0 {
      match OldestTerminal(j)
      case Some(i) => DropMembers(Without(j, i), k - 1);
      case None =>
    }
  }

  lemma WithoutNarrows(j: seq<Record>, i: nat)
    requires i < |j|
    ensures Width(Without(j, i)) <= Width(j)
  {
    Around(j, i);
    SumAppend(j[..i], j[i + 1..]);
  }

  lemma {:induction false} DropNarrows(j: seq<Record>, k: nat)
    ensures Width(DropOldest(j, k)) <= Width(j)
    decreases k
  {
    if k > 0 && OldestTerminal(j).Some? {
      var i := OldestTerminal(j).value;
      WithoutNarrows(j, i);
      DropNarrows(Without(j, i), k - 1);
    }
  }

  lemma AdmitKeepsBounded(j: seq<Record>, r: Record)
    requires Bounded(j) && Dispatched(r) && r.finished.None?
    ensures Bounded(Admit(j, r).1)
  {
    var k := AdmissionIsMinimal(j, r);
    var q := Admit(j, r).1;
    DropMembers(j, k);
    DropNarrows(j, k);
    DropKeepsInFlight(j, k);
    InFlightCount(q);
    forall i | 0 <= i < |q| && Dispatched(q[i]) ensures q[i].finished.None? {
      if i < |DropOldest(j, k)| { assert q[i] in DropOldest(j, k); }
    }
  }

  lemma ReplaceKeepsPotential(j: seq<Record>, i: nat, r: Record)
    requires i < |j| && Dispatched(j[i]) && !Dispatched(r)
    requires RecordWidth(r) <= RecordWidth(j[i]) + FINISH_GROWTH
    ensures Potential(j[i := r]) <= Potential(j)
  {
    var q := j[i := r];
    Around(j, i);
    Around(q, i);
    assert q[..i] == j[..i] && q[i + 1..] == j[i + 1..];
    assert |InFlight([j[i]])| == 1 && |InFlight([q[i]])| == 0;
  }

  lemma FinishKeepsBounded(j: seq<Record>, id: string, status: string, now: nat)
    requires Bounded(j) && Terminal(status) && now < Pow10(CLOCK_DIGITS)
    requires Find(j, id).Some? ==> Dispatched(j[Find(j, id).value])
    ensures Bounded(SetStatus(j, id, status, now))
  {
    match Find(j, id)
    case None =>
    case Some(i) =>
      FinishGrowth(j[i], status, now);
      ReplaceKeepsPotential(j, i, Stamp(j[i], status, now));
  }

  // ----- reload -----

  predicate ControlFree(s: string) {
    forall i :: 0 <= i < |s| ==> !(s[i] as int < 0x20 || 0x7f <= s[i] as int < 0xa0)
  }

  function ByteLength(s: string): nat {
    if s == "" then 0 else Utf8Width(s[0]) + ByteLength(s[1..])
  }

  predicate FieldOk(f: Field, limit: nat) {
    f.Some? && f.value.Text? ==> ByteLength(f.value.text) <= limit && ControlFree(f.value.text)
  }

  /** The metadata rules a record must meet when the file is loaded. */
  predicate MetadataOk(r: Record) {
    FieldOk(r.id, 400) && FieldOk(r.session, 400) && FieldOk(r.project, 4096)
    && FieldOk(r.run, 400) && FieldOk(r.server, 400) && FieldOk(r.tool, 400)
    && FieldOk(r.started, 400) && FieldOk(r.finished, 400) && FieldOk(r.status, 400)
  }

  function Recovered(r: Record): Record {
    if Dispatched(r) then r.(status := Some(Text("outcome_unknown"))) else r
  }

  function RecoveredAll(j: seq<Record>): (q: seq<Record>)
    ensures |q| == |j|
    ensures forall i :: 0 <= i < |j| ==> q[i] == Recovered(j[i])
  {
    if j == [] then [] else [Recovered(j[0])] + RecoveredAll(j[1..])
  }

  /** A file as it is read back: its byte count and each element; None is a foreign object. */
  datatype File = File(bytes: nat, elements: seq<Option<Record>>)

  function Written(j: seq<Record>): File {
    File(Width(j), Wrap(j))
  }

  function Wrap(j: seq<Record>): (q: seq<Option<Record>>)
    ensures |q| == |j|
    ensures forall i :: 0 <= i < |j| ==> q[i] == Some(j[i])
  {
    if j == [] then [] else [Some(j[0])] + Wrap(j[1..])
  }

  datatype LoadError = TooLarge | TooMany | Foreign | BadMetadata | NotSaved

  /** The validation loop of a load: the first bad record decides the error. */
  function LoadRecords(file: seq<Option<Record>>): Result<seq<Record>, LoadError> {
    if file == [] then Ok([])
    else if file[0].None? then Err(Foreign)
    else if !MetadataOk(file[0].value) then Err(BadMetadata)
    else match LoadRecords(file[1..])
      case Ok(rest) => Ok([Recovered(file[0].value)] + rest)
      case Err(e) => Err(e)
  }

  function Load(file: File): Result<seq<Record>, LoadError> {
    if file.bytes > RELOAD_CAP then Err(TooLarge)
    else if |file.elements| > MAX_RECORDS then Err(TooMany)
    else LoadRecords(file.elements)
  }

  lemma {:induction false} LoadRecordsOfWritten(j: seq<Record>)
    ensures LoadRecords(Wrap(j)).Ok? <==> forall r :: r in j ==> MetadataOk(r)
    ensures LoadRecords(Wrap(j)).Ok? ==> LoadRecords(Wrap(j)).value == RecoveredAll(j)
  {
    if j != [] {
      assert Wrap(j)[1..] == Wrap(j[1..]);
      LoadRecordsOfWritten(j[1..]);
      assert forall r :: r in j <==> r == j[0] || r in j[1..];
    }
  }

  /**
   A snapshot of a bounded ledger loads again exactly when every record's text
   metadata is short and control-free. Dispatch itself never checks the tool
   name, so this is the caller's condition to meet.
   */
  lemma ReloadExact(j: seq<Record>)
    requires Bounded(j)
    ensures Load(Written(j)).Ok? <==> forall r :: r in j ==> MetadataOk(r)
    ensures Load(Written(j)).Ok? ==> Load(Written(j)).value == RecoveredAll(j)
  {
    LoadRecordsOfWritten(j);
  }

  /** Replacing one plain status by another changes the width by their lengths alone. */
  lemma StatusSwap(r: Record, before: string, status: string)
    requires r.status == Some(Text(before)) && Plain(before) && Plain(status)
    ensures RecordWidth(r.(status := Some(Text(status)))) + |before| == RecordWidth(r) + |status|
  {
    var q := r.(status := Some(Text(status)));
    PlainWidth(before);
    PlainWidth(status);
    StatusLast(r);
    StatusLast(q);
    assert Fields(q)[..7] == Fields(r)[..7];
  }

  lemma RecoveredRecordWidth(r: Record)
    requires Dispatched(r)
    ensures RecordWidth(Recovered(r)) == RecordWidth(r) + 5
  {
    StatusesArePlain("dispatched");
    StatusesArePlain("outcome_unknown");
    StatusSwap(r, "dispatched", "outcome_unknown");
  }

  lemma {:induction false} RecoveredWidth(j: seq<Record>)
    ensures Width(RecoveredAll(j)) == Width(j) + 5 * |InFlight(j)|
    ensures InFlight(RecoveredAll(j)) == []
  {
    if j != [] {
      RecoveredWidth(j[1..]);
      assert RecoveredAll(j)[1..] == RecoveredAll(j[1..]);
      if Dispatched(j[0]) { RecoveredRecordWidth(j[0]); }
    }
  }

  /** Recovery keeps the bound, so a recovered file can itself be recovered. */
  lemma RecoveryKeepsBounded(j: seq<Record>)
    requires Bounded(j)
    ensures Bounded(RecoveredAll(j))
  {
    RecoveredWidth(j);
  }

  function LongName(n: nat): (s: string)
    ensures |s| == n && forall i :: 0 <= i < n ==> s[i] == 'a'
  {
    if n == 0 then "" else ['a'] + LongName(n - 1)
  }

  lemma {:induction false} LongNameBytes(n: nat)
    ensures ByteLength(LongName(n)) == n && TextWidth(LongName(n)) == n
  {
    if n > 0 {
      LongNameBytes(n - 1);
      assert LongName(n)[1..] == LongName(n - 1);
    }
  }

  lemma {:induction false} MembersBound(fields: seq<(nat, Field)>)
    requires forall i :: 0 <= i < |fields| ==> MemberWidth(fields[i].0, fields[i].1) <= 2500
    ensures Members(fields) <= 2500 * |fields|
  {
    if fields != [] { MembersBound(fields[1..]); }
  }

  function CallTo(tool: string): Record {
    Record(Some(Text("i")), Some(Text("s")), Some(Text("p")), Some(Text("r")),
           Some(Text("v")), Some(Text(tool)), Some(Number(0)), None, Some(Text("dispatched")))
  }

  lemma {:induction false} TextWidthBound(s: string)
    ensures TextWidth(s) <= 6 * |s|
  {
    if s != "" { TextWidthBound(s[1..]); }
  }

  lemma FieldBound(key: nat, f: Field)
    requires key <= 11
    requires f.Some? ==> (f.value.Text? && |f.value.text| <= 401) || f.value == Number(0)
    ensures MemberWidth(key, f) <= 2500
  {
    if f.Some? && f.value.Text? { TextWidthBound(f.value.text); }
  }

  lemma CallWidth(r: Record)
    requires forall i :: 0 <= i < 9 ==> Fields(r)[i].1.Some? ==>
               (Fields(r)[i].1.value.Text? && |Fields(r)[i].1.value.text| <= 401) || Fields(r)[i].1.value == Number(0)
    ensures RecordWidth(r) <= 22501
  {
    forall i | 0 <= i < 9 ensures MemberWidth(Fields(r)[i].0, Fields(r)[i].1) <= 2500 {
      FieldBound(Fields(r)[i].0, Fields(r)[i].1);
    }
    MembersBound(Fields(r));
  }

  lemma AdmitAlone(r: Record)
    requires Dispatched(r) && r.finished.None? && RecordWidth(r) <= ENCODE_BUDGET - 2
    ensures Admit([], r) == (Admitted, [r]) && Bounded([r])
  {
    assert [] + [r] == [r];
    assert Sum([r]) == RecordWidth(r);
    assert InFlight([r]) == [r];
  }

  lemma LoadRefuses(r: Record)
    requires RecordWidth(r) <= ENCODE_BUDGET - 2 && !MetadataOk(r)
    ensures Load(Written([r])) == Err(BadMetadata)
  {
    assert Sum([r]) == RecordWidth(r);
    assert Wrap([r]) == [Some(r)];
  }

  /** A granted tool name of 401 bytes is admitted, and the file it leaves is then refused. */
  lemma LongToolNameBlocksReload(name: string, r: Record)
    requires |name| == 401 && name == LongName(|name|) && r == CallTo(name)
    ensures Admit([], r) == (Admitted, [r]) && Load(Written([r])) == Err(BadMetadata)
  {
    LongNameBytes(|name|);
    CallWidth(r);
    AdmitAlone(r);
    assert !FieldOk(r.tool, 400);
    LoadRefuses(r);
  }
}
