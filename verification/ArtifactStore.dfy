/**
 The artifact store: liveness guards, FIFO eviction under two limits, the upload
 protocol and range reads, first as functions on the store's value and then as
 the class whose methods hold the locks (`native/src/artifacts.rs`).
 */
module ArtifactStore {
  import opened Outcomes
  import opened Bytes
  import opened Base64

  const ITEM_LIMIT: nat := 16 * 1024 * 1024
  const TOTAL_LIMIT: nat := 64 * 1024 * 1024
  const COUNT_LIMIT: nat := 64
  const RANGE_LIMIT: nat := 65536
  const CHUNK_LIMIT: nat := 32768
  const ENCODED_LIMIT: nat := 43692
  const UPLOAD_SLOTS: nat := 4
  const GUARD_LIMIT: nat := 256

  /** A published artifact; `hashed` is the byte string its digest was taken over. */
  datatype Entry = Entry(id: nat, owner: string, file: nat, size: nat, format: string, hashed: seq<Byte>)

  datatype Upload = Upload(
    owner: string, run: string, format: string, alive: bool, file: nat, size: nat, hashed: seq<Byte>)

  /**
   Guards, uploads, entries and files are numbered from one counter. `live` holds
   the guards whose flag is still set; `arena` keeps every upload ever begun,
   because a job may hold one after it left the registry `uploads`; `files` is
   the content of every unlinked file, shared by whoever holds its number.
   */
  datatype Store = Store(
    entries: seq<Entry>, owners: map<string, nat>, runs: map<(string, string), nat>,
    uploads: set<nat>, arena: map<nat, Upload>, live: set<nat>, files: map<nat, seq<Byte>>, next: nat)

  /** The guards a job captured when it was dispatched. */
  datatype Context = Context(owner: string, ownerGuard: nat, run: Option<string>, runGuard: Option<nat>)

  function Empty(): Store {
    Store([], map[], map[], {}, map[], {}, map[], 0)
  }

  // ----- owners and runs -----

  function RegisterOwner(s: Store, owner: string): (Store, bool) {
    if |s.owners| >= GUARD_LIMIT && owner !in s.owners then (s, false)
    else if owner in s.owners then (s, true)
    else (s.(owners := s.owners[owner := s.next], live := s.live + {s.next}, next := s.next + 1), true)
  }

  function RegisterRun(s: Store, owner: string, run: string): (Store, bool) {
    if owner !in s.owners || |s.runs| >= GUARD_LIMIT then (s, false)
    else if (owner, run) in s.runs then (s, true)
    else (s.(runs := s.runs[(owner, run) := s.next], live := s.live + {s.next}, next := s.next + 1), true)
  }

  /** Clear the alive flag of each upload in `dead` and take it out of the registry. */
  function Retire(s: Store, dead: set<nat>): Store {
    s.(uploads := s.uploads - dead,
       arena := map u | u in s.arena :: if u in dead then s.arena[u].(alive := false) else s.arena[u])
  }

  function RunUploads(s: Store, owner: string, run: string): set<nat> {
    set u | u in s.uploads && u in s.arena && s.arena[u].owner == owner && s.arena[u].run == run
  }

  function OwnerUploads(s: Store, owner: string): set<nat> {
    set u | u in s.uploads && u in s.arena && s.arena[u].owner == owner
  }

  function EndRun(s: Store, owner: string, run: string): (Store, nat) {
    var key := (owner, run);
    var dead := RunUploads(s, owner, run);
    var t := if key in s.runs then s.(runs := s.runs - {key}, live := s.live - {s.runs[key]}) else s;
    (Retire(t, dead), |dead|)
  }

  function OwnerRuns(s: Store, owner: string): set<(string, string)> {
    set key | key in s.runs && key.0 == owner
  }

  function OwnerGuards(s: Store, owner: string): set<nat> {
    (if owner in s.owners then {s.owners[owner]} else {})
    + set key | key in s.runs && key.0 == owner :: s.runs[key]
  }

  function KeepOthers(q: seq<Entry>, owner: string): (r: seq<Entry>)
    ensures forall e :: e in r <==> e in q && e.owner != owner
    ensures |r| <= |q|
  {
    if q == [] then []
    else if q[0].owner == owner then KeepOthers(q[1..], owner)
    else [q[0]] + KeepOthers(q[1..], owner)
  }

  function RemoveOwner(s: Store, owner: string): (Store, nat) {
    var kept := KeepOthers(s.entries, owner);
    var t := s.(owners := s.owners - {owner}, runs := s.runs - OwnerRuns(s, owner),
                live := s.live - OwnerGuards(s, owner), entries := kept);
    (Retire(t, OwnerUploads(s, owner)), |s.entries| - |kept|)
  }

  /** Both flags the publishing sections re-check. */
  predicate GuardsLive(s: Store, c: Context) {
    c.ownerGuard in s.live && (c.runGuard.Some? ==> c.runGuard.value in s.live)
  }

  // ----- publication -----

  function Total(q: seq<Entry>): nat {
    if q == [] then 0 else q[0].size + Total(q[1..])
  }

  predicate Room(q: seq<Entry>, size: nat) {
    |q| < COUNT_LIMIT && Total(q) + size <= TOTAL_LIMIT
  }

  /** Pop from the front until one more entry of this size fits. */
  function Evict(q: seq<Entry>, size: nat): seq<Entry>
    requires size <= TOTAL_LIMIT
    decreases |q|
  {
    if Room(q, size) || q == [] then q else Evict(q[1..], size)
  }

  function Published(q: seq<Entry>, e: Entry): seq<Entry>
    requires e.size <= TOTAL_LIMIT
  {
    Evict(q, e.size) + [e]
  }

  lemma {:induction false} TotalAppend(q: seq<Entry>, e: Entry)
    ensures Total(q + [e]) == Total(q) + e.size
  {
    if q == [] {
      assert [] + [e] == [e];
    } else {
      assert (q + [e])[1..] == q[1..] + [e];
      TotalAppend(q[1..], e);
    }
  }

  /**
   Eviction keeps the longest suffix of the old queue that leaves room: every
   longer suffix, that is every earlier starting point, has none.
   */
  lemma {:induction false} EvictKeepsLongestSuffix(q: seq<Entry>, size: nat) returns (k: nat)
    requires size <= TOTAL_LIMIT
    ensures k <= |q| && Evict(q, size) == q[k..] && Room(q[k..], size)
    ensures forall i :: 0 <= i < k ==> !Room(q[i..], size)
    decreases |q|
  {
    if Room(q, size) || q == [] {
      k := 0;
      assert q[0..] == q;
    } else {
      var m := EvictKeepsLongestSuffix(q[1..], size);
      k := m + 1;
      assert q[k..] == q[1..][m..];
      forall i | 0 <= i < k ensures !Room(q[i..], size) {
        if i > 0 { assert q[i..] == q[1..][i - 1..]; } else { assert q[0..] == q; }
      }
    }
  }

  /** The store's two limits. */
  predicate WithinLimits(q: seq<Entry>) {
    |q| <= COUNT_LIMIT && Total(q) <= TOTAL_LIMIT
  }

  /** Whatever the queue was, publishing keeps the new entry last and meets both limits. */
  lemma PublishedWithinLimits(q: seq<Entry>, e: Entry)
    requires e.size <= ITEM_LIMIT
    ensures WithinLimits(Published(q, e))
    ensures Published(q, e)[|Published(q, e)| - 1] == e
    ensures forall x :: x in Published(q, e) ==> x == e || x in q
  {
    var k := EvictKeepsLongestSuffix(q, e.size);
    TotalAppend(q[k..], e);
  }

  /** From index k on, these are the most of the newest entries that the limits allow. */
  predicate NewestFrom(all: seq<Entry>, k: nat) {
    k <= |all| && WithinLimits(all[k..]) && forall i :: 0 <= i < k ==> !WithinLimits(all[i..])
  }

  lemma SuffixAppend(all: seq<Entry>, e: Entry, i: nat)
    requires i <= |all|
    ensures (all + [e])[i..] == all[i..] + [e] && Total(all[i..] + [e]) == Total(all[i..]) + e.size
  {
    TotalAppend(all[i..], e);
  }

  /** One publication after another keeps exactly the newest entries that fit. */
  lemma PublishKeepsNewest(all: seq<Entry>, m: nat, e: Entry) returns (k: nat)
    requires NewestFrom(all, m) && e.size <= ITEM_LIMIT
    ensures NewestFrom(all + [e], k) && Published(all[m..], e) == (all + [e])[k..]
  {
    var j := EvictKeepsLongestSuffix(all[m..], e.size);
    k := m + j;
    assert all[m..][j..] == all[k..];
    SuffixAppend(all, e, k);
    forall i | 0 <= i < k ensures !WithinLimits((all + [e])[i..]) {
      SuffixAppend(all, e, i);
      if m <= i { assert all[m..][i - m..] == all[i..]; }
    }
  }

  function Publish(s: Store, owner: string, file: nat, size: nat, format: string, hashed: seq<Byte>): Store
    requires size <= TOTAL_LIMIT
  {
    s.(entries := Published(s.entries, Entry(s.next, owner, file, size, format, hashed)), next := s.next + 1)
  }

  /** create: the finished private file is published unless its owner or run is gone. */
  function Create(s: Store, c: Context, file: nat, format: string): (Store, bool)
    requires file in s.files && |s.files[file]| <= ITEM_LIMIT
  {
    if !GuardsLive(s, c) then (s, false)
    else (Publish(s, c.owner, file, |s.files[file]|, format, s.files[file]), true)
  }

  // ----- uploads -----

  function Begin(s: Store, c: Context, format: string): (Store, Option<nat>)
    requires c.run.Some? && c.runGuard.Some?
  {
    if !GuardsLive(s, c) || |s.uploads| >= UPLOAD_SLOTS then (s, None)
    else
      var upload := Upload(c.owner, c.run.value, format, true, s.next, 0, []);
      (s.(uploads := s.uploads + {s.next}, arena := s.arena[s.next := upload],
          files := s.files[s.next := []], next := s.next + 1),
       Some(s.next))
  }

  /** The registry lookup every other upload operation starts with. */
  predicate Registered(s: Store, c: Context, u: nat) {
    u in s.uploads && u in s.arena && s.arena[u].owner == c.owner && c.run == Some(s.arena[u].run)
  }

  /** The liveness test made under the upload's data lock. */
  predicate UploadLive(s: Store, c: Context, u: nat) {
    u in s.arena && s.arena[u].alive && GuardsLive(s, c)
  }

  function Abort(s: Store, u: nat): Store {
    Retire(s, {u})
  }

  /** What the file system did with a write: all of it, or only some prefix and an error. */
  datatype Written = Whole | Torn(kept: nat)

  /** Every refusal an append can meet before it writes. */
  predicate Appendable(size: nat, offset: nat, data: string) {
    |data| <= ENCODED_LIMIT && Decode(data).Some? && |Decode(data).value| <= CHUNK_LIMIT
    && offset == size && size + |Decode(data).value| <= ITEM_LIMIT
  }

  lemma PaddedLength(n: nat)
    requires n <= CHUNK_LIMIT
    ensures 4 * ((n + 2) / 3) <= ENCODED_LIMIT
  {}

  /** Base64 of at most 32768 bytes passes every test an append makes. */
  lemma RequestIsAppendable(size: nat, bytes: seq<Byte>)
    requires |bytes| <= CHUNK_LIMIT && size + |bytes| <= ITEM_LIMIT
    ensures Appendable(size, size, Encode(bytes))
    ensures Decode(Encode(bytes)) == Some(bytes)
  {
    DecodeEncode(bytes);
    EncodedLength(bytes);
    PaddedLength(|bytes|);
  }

  function Append(s: Store, u: nat, offset: nat, data: string, written: Written): (Store, bool)
    requires u in s.arena && s.arena[u].file in s.files
  {
    var up := s.arena[u];
    if !Appendable(up.size, offset, data) then (s, false)
    else
      var bytes := Decode(data).value;
      match written
      case Torn(kept) =>
        var landed := if kept < |bytes| then bytes[..kept] else bytes;
        (s.(files := s.files[up.file := s.files[up.file] + landed]), false)
      case Whole =>
        (s.(files := s.files[up.file := s.files[up.file] + bytes],
            arena := s.arena[u := up.(size := up.size + |bytes|, hashed := up.hashed + bytes)]),
         true)
  }

  function Commit(s: Store, c: Context, u: nat): (Store, bool)
    requires u in s.arena && s.arena[u].size <= ITEM_LIMIT
  {
    if !UploadLive(s, c, u) then (s, false)
    else
      var up := s.arena[u];
      (Retire(Publish(s, c.owner, up.file, up.size, up.format, up.hashed), {u}), true)
  }

  // ----- reads -----

  function Lookup(q: seq<Entry>, owner: string, id: nat): (e: Option<Entry>)
    ensures e.Some? ==> e.value in q && e.value.id == id && e.value.owner == owner
    ensures e.None? ==> forall x :: x in q ==> !(x.id == id && x.owner == owner)
  {
    if q == [] then None
    else if q[0].id == id && q[0].owner == owner then Some(q[0])
    else Lookup(q[1..], owner, id)
  }

  function Position(q: seq<Entry>, owner: string, id: nat): (k: Option<nat>)
    ensures k.Some? ==> k.value < |q| && q[k.value].id == id && q[k.value].owner == owner
    ensures forall i :: 0 <= i < |q| && (k.Some? ==> i < k.value) ==> !(q[i].id == id && q[i].owner == owner)
  {
    if q == [] then None
    else if q[0].id == id && q[0].owner == owner then Some(0)
    else match Position(q[1..], owner, id)
      case None => None
      case Some(i) => Some(i + 1)
  }

  function DropEntry(q: seq<Entry>, owner: string, id: nat): (seq<Entry>, bool) {
    match Position(q, owner, id)
    case None => (q, false)
    case Some(i) => (q[..i] + q[i + 1..], true)
  }

  /** A drop takes out one entry, the owner's own, and leaves the order and everything else. */
  lemma DropRemovesOne(q: seq<Entry>, owner: string, id: nat)
    ensures var (kept, ok) := DropEntry(q, owner, id);
            && (ok <==> exists e :: e in q && e.id == id && e.owner == owner)
            && (!ok ==> kept == q)
            && (ok ==> exists i :: 0 <= i < |q| && q[i].id == id && q[i].owner == owner
                                   && |kept| == |q| - 1 && kept[..i] == q[..i] && kept[i..] == q[i + 1..])
  {
    match Position(q, owner, id)
    case None =>
    case Some(i) =>
      var kept := q[..i] + q[i + 1..];
      assert kept[..i] == q[..i] && kept[i..] == q[i + 1..];
      assert q[i] in q;
  }

  lemma {:induction false} TotalConcat(a: seq<Entry>, b: seq<Entry>)
    ensures Total(a + b) == Total(a) + Total(b)
  {
    if a == [] {
      assert a + b == b;
    } else {
      assert (a + b)[1..] == a[1..] + b;
      TotalConcat(a[1..], b);
    }
  }

  datatype Page = Page(bytes: seq<Byte>, hasMore: bool)

  /** One range read; a range past the end or over the limit is refused. */
  function ReadRange(content: seq<Byte>, size: nat, offset: nat, length: nat): Option<Page>
    requires size <= |content|
  {
    if length > RANGE_LIMIT || offset > size then None
    else
      var n := if length < size - offset then length else size - offset;
      Some(Page(content[offset..offset + n], offset + n < size))
  }

  /** A client that follows has_more, asking for `length` bytes at a time from `offset`. */
  function ReadAll(content: seq<Byte>, size: nat, offset: nat, length: nat): seq<Byte>
    requires size <= |content| && offset <= size && 1 <= length <= RANGE_LIMIT
    decreases size - offset
  {
    var page := ReadRange(content, size, offset, length).value;
    page.bytes + if page.hasMore then ReadAll(content, size, offset + |page.bytes|, length) else []
  }

  /** Following has_more from the start returns exactly the artifact's bytes. */
  lemma {:induction false} PagesReassemble(content: seq<Byte>, size: nat, offset: nat, length: nat)
    requires size <= |content| && offset <= size && 1 <= length <= RANGE_LIMIT
    ensures ReadAll(content, size, offset, length) == content[offset..size]
    decreases size - offset
  {
    var page := ReadRange(content, size, offset, length).value;
    if page.hasMore {
      PagesReassemble(content, size, offset + |page.bytes|, length);
    }
  }

  /** verify: size, digest and the file's own length must all agree. */
  predicate Verifies(hash: seq<Byte> -> int, e: Entry, content: seq<Byte>) {
    |content| == e.size && hash(content) == hash(e.hashed)
  }
}
