/**
 The worker's half of an artifact upload (`src/repl_mcp/native_worker.py`,
 `artifact`): whatever pieces a value arrives in, they are regrouped into full
 32768-byte appends, each of which the store accepts.
 */
module Chunker {
  import opened Outcomes
  import opened Bytes
  import opened Base64
  import opened ArtifactStore
  import Utf8 = Text

  /** One append call, as it reaches the store. */
  datatype Request = Request(offset: nat, data: string)

  function Payload(rs: seq<Request>): seq<Byte> {
    if rs == [] then []
    else
      var last := |rs| - 1;
      Payload(rs[..last]) + match Decode(rs[last].data) case Some(b) => b case None => []
  }

  /** The store's own test, request by request, its size being what was appended before. */
  predicate Accepted(rs: seq<Request>) {
    rs != [] ==>
      var last := |rs| - 1;
      Accepted(rs[..last]) && Appendable(|Payload(rs[..last])|, rs[last].offset, rs[last].data)
  }

  predicate Full(r: Request) {
    Decode(r.data).Some? && |Decode(r.data).value| == CHUNK_LIMIT
  }

  predicate AllFull(rs: seq<Request>) {
    forall i :: 0 <= i < |rs| ==> Full(rs[i])
  }

  function AppendOf(size: nat, pending: seq<Byte>): Request {
    Request(size, Encode(pending))
  }

  lemma AppendIsAccepted(rs: seq<Request>, pending: seq<Byte>)
    requires Accepted(rs) && |pending| <= CHUNK_LIMIT && |Payload(rs)| + |pending| <= ITEM_LIMIT
    ensures var all := rs + [AppendOf(|Payload(rs)|, pending)];
            Accepted(all) && Payload(all) == Payload(rs) + pending
    ensures |pending| == CHUNK_LIMIT ==> Full(AppendOf(|Payload(rs)|, pending))
  {
    var r := AppendOf(|Payload(rs)|, pending);
    RequestIsAppendable(|Payload(rs)|, pending);
    OneMore(rs, r);
  }

  lemma OneMore(rs: seq<Request>, r: Request)
    requires Accepted(rs) && Appendable(|Payload(rs)|, r.offset, r.data)
    ensures Accepted(rs + [r]) && Payload(rs + [r]) == Payload(rs) + Decode(r.data).value
  {
    assert (rs + [r])[..|rs|] == rs;
  }

  /** Why an upload ended. A piece is absent where producing it raised an error. */
  datatype Outcome = Committed | TooLarge | Unencodable

  /** The pieces before the first one that could not be produced. */
  function Produced(pieces: seq<Option<seq<Byte>>>): (r: seq<seq<Byte>>)
    ensures |r| <= |pieces|
    ensures |r| == |pieces| <==> forall i :: 0 <= i < |pieces| ==> pieces[i].Some?
  {
    if pieces == [] || pieces[0].None? then [] else [pieces[0].value] + Produced(pieces[1..])
  }

  lemma {:induction false} ProducedPrefix(pieces: seq<Option<seq<Byte>>>, i: nat)
    requires i <= |pieces| && forall j :: 0 <= j < i ==> pieces[j].Some?
    ensures i <= |Produced(pieces)|
    ensures forall j :: 0 <= j < i ==> Produced(pieces)[j] == pieces[j].value
    ensures i < |pieces| ==> (i == |Produced(pieces)| <==> pieces[i].None?)
  {
    if i > 0 { ProducedPrefix(pieces[1..], i - 1); }
  }

  /** Between pieces: full appends sent so far, and less than one more held back. */
  predicate Building(rs: seq<Request>, size: nat, pending: seq<Byte>) {
    Accepted(rs) && AllFull(rs) && |pending| < CHUNK_LIMIT && size == |Payload(rs)|
  }

  lemma SendFull(rs: seq<Request>, pending: seq<Byte>)
    requires Accepted(rs) && AllFull(rs) && |pending| == CHUNK_LIMIT && |Payload(rs)| + |pending| <= ITEM_LIMIT
    ensures var all := rs + [AppendOf(|Payload(rs)|, pending)];
            Building(all, |Payload(rs)| + |pending|, []) && Payload(all) == Payload(rs) + pending
  {
    AppendIsAccepted(rs, pending);
  }

  /** The inner loop: one piece is added, and every time 32768 bytes are held they are sent. */
  method Feed(sent: seq<Request>, start: nat, held: seq<Byte>, chunk: seq<Byte>)
    returns (rs: seq<Request>, size: nat, pending: seq<Byte>)
    requires Building(sent, start, held) && start + |held| + |chunk| <= ITEM_LIMIT
    ensures Building(rs, size, pending) && Payload(rs) + pending == Payload(sent) + held + chunk
  {
    rs, size, pending := sent, start, held;
    ghost var before := Payload(sent) + held;
    var position := 0;
    assert before + chunk[..0] == before;
    while position < |chunk|
      invariant 0 <= position <= |chunk| && Building(rs, size, pending)
      invariant Payload(rs) + pending == before + chunk[..position]
    {
      var room, left := CHUNK_LIMIT - |pending|, |chunk| - position;
      var count := if room < left then room else left;
      Regroup(Payload(rs), pending, before, chunk, position, count);
      pending := pending + chunk[position..position + count];
      position := position + count;
      if |pending| == CHUNK_LIMIT {
        SendFull(rs, pending);
        rs := rs + [AppendOf(size, pending)];
        size := size + |pending|;
        pending := [];
      }
    }
    assert chunk[..position] == chunk;
  }

  /** After the last piece: what is held back is sent if there is any. */
  method Flush(sent: seq<Request>, size: nat, pending: seq<Byte>) returns (rs: seq<Request>)
    requires Building(sent, size, pending) && size + |pending| <= ITEM_LIMIT
    ensures Accepted(rs) && Payload(rs) == Payload(sent) + pending
    ensures rs != [] ==> AllFull(rs[..|rs| - 1]) && |Payload(rs[..|rs| - 1])| < |Payload(rs)|
  {
    rs := sent;
    if pending != [] {
      AppendIsAccepted(sent, pending);
      rs := sent + [AppendOf(size, pending)];
      assert rs[..|rs| - 1] == sent;
    } else {
      assert Payload(sent) + [] == Payload(sent);
      if rs != [] { LastIsFull(rs); }
    }
  }

  /** Some piece is missing. */
  predicate Broken(pieces: seq<Option<seq<Byte>>>) {
    exists i :: 0 <= i < |pieces| && pieces[i].None?
  }

  /** The first i pieces were produced, and are these bytes. */
  ghost predicate Reached(pieces: seq<Option<seq<Byte>>>, i: nat, bytes: seq<Byte>) {
    && i <= |pieces| && i <= |Produced(pieces)| && (forall j :: 0 <= j < i ==> pieces[j].Some?)
    && bytes == Flatten(Produced(pieces)[..i]) && |bytes| <= ITEM_LIMIT
  }

  lemma ReachedStops(pieces: seq<Option<seq<Byte>>>, i: nat, bytes: seq<Byte>)
    requires Reached(pieces, i, bytes) && i < |pieces| && pieces[i].None?
    ensures bytes == Flatten(Produced(pieces)) && Broken(pieces)
  {
    ProducedPrefix(pieces, i);
    assert Produced(pieces)[..i] == Produced(pieces);
  }

  lemma ReachedNext(pieces: seq<Option<seq<Byte>>>, i: nat, bytes: seq<Byte>)
    requires Reached(pieces, i, bytes) && i < |pieces| && pieces[i].Some?
    ensures bytes + pieces[i].value <= Flatten(Produced(pieces))
    ensures |bytes + pieces[i].value| <= ITEM_LIMIT ==> Reached(pieces, i + 1, bytes + pieces[i].value)
  {
    ProducedPrefix(pieces, i + 1);
    FlattenSplit(Produced(pieces), i);
    FlattenRest(Produced(pieces), i + 1);
  }

  lemma ReachedEnd(pieces: seq<Option<seq<Byte>>>, bytes: seq<Byte>)
    requires Reached(pieces, |pieces|, bytes)
    ensures bytes == Flatten(Produced(pieces)) && !Broken(pieces)
  {
    var all := Produced(pieces);
    assert |all| == |pieces| && all[..|pieces|] == all;
  }

  /**
   The regrouping loop. It commits exactly when every piece could be produced
   and all of them together are within the limit; then the appended bytes are
   the value, in appends the store accepts, all full but perhaps the last, which
   is not empty. A refused upload sent only acceptable appends, of a prefix.
   */
  method Upload(pieces: seq<Option<seq<Byte>>>) returns (rs: seq<Request>, outcome: Outcome)
    ensures Accepted(rs) && Payload(rs) <= Flatten(Produced(pieces))
    ensures outcome.Committed? <==> !Broken(pieces) && |Flatten(Produced(pieces))| <= ITEM_LIMIT
    ensures outcome.TooLarge? <==> |Flatten(Produced(pieces))| > ITEM_LIMIT
    ensures outcome.Committed? ==> Payload(rs) == Flatten(Produced(pieces))
    ensures outcome.Committed? && rs != [] ==>
              AllFull(rs[..|rs| - 1]) && |Payload(rs[..|rs| - 1])| < |Payload(rs)|
  {
    rs := [];
    var size: nat := 0;
    var pending: seq<Byte> := [];
    var i := 0;
    while i < |pieces|
      invariant i <= |pieces| && Building(rs, size, pending) && Reached(pieces, i, Payload(rs) + pending)
    {
      if pieces[i].None? {
        ReachedStops(pieces, i, Payload(rs) + pending);
        return rs, Unencodable;
      }
      var chunk := pieces[i].value;
      ReachedNext(pieces, i, Payload(rs) + pending);
      if size + |pending| + |chunk| > ITEM_LIMIT {
        return rs, TooLarge;
      }
      rs, size, pending := Feed(rs, size, pending, chunk);
      i := i + 1;
    }
    ReachedEnd(pieces, Payload(rs) + pending);
    rs := Flush(rs, size, pending);
    return rs, Committed;
  }

  lemma Regroup(sent: seq<Byte>, pending: seq<Byte>, done: seq<Byte>, chunk: seq<Byte>, p: nat, n: nat)
    requires p + n <= |chunk| && sent + pending == done + chunk[..p]
    ensures sent + (pending + chunk[p..p + n]) == done + chunk[..p + n]
    ensures sent + (pending + chunk[p..p + n]) + [] == done + chunk[..p + n]
  {
    assert chunk[..p + n] == chunk[..p] + chunk[p..p + n];
    assert sent + (pending + chunk[p..p + n]) == sent + pending + chunk[p..p + n];
    assert done + chunk[..p] + chunk[p..p + n] == done + (chunk[..p] + chunk[p..p + n]);
  }

  lemma LastIsFull(rs: seq<Request>)
    requires rs != [] && Accepted(rs) && AllFull(rs)
    ensures AllFull(rs[..|rs| - 1]) && |Payload(rs[..|rs| - 1])| < |Payload(rs)|
  {
    assert Full(rs[|rs| - 1]);
  }

  // ----- what the store makes of it -----

  /** The store receiving the requests in order, no write being torn. */
  function Replay(s: Store, u: nat, rs: seq<Request>): (Store, bool)
    requires u in s.arena && s.arena[u].file in s.files
    ensures u in Replay(s, u, rs).0.arena && Replay(s, u, rs).0.arena[u].file in Replay(s, u, rs).0.files
  {
    if rs == [] then (s, true)
    else
      var last := |rs| - 1;
      var (t, ok) := Replay(s, u, rs[..last]);
      var (v, more) := Append(t, u, rs[last].offset, rs[last].data, Whole);
      (v, ok && more)
  }

  /**
   Client meets server: from a just-begun upload the store accepts every append,
   and holds, records and would publish exactly the bytes the client sent.
   */
  lemma {:induction false} StoreAcceptsUpload(s: Store, u: nat, rs: seq<Request>)
    requires u in s.arena && s.arena[u].file in s.files
    requires s.arena[u].size == 0 && s.arena[u].hashed == [] && s.files[s.arena[u].file] == []
    requires Accepted(rs)
    ensures var (t, ok) := Replay(s, u, rs);
            && ok && t.arena[u] == s.arena[u].(size := |Payload(rs)|, hashed := Payload(rs))
            && t.files[s.arena[u].file] == Payload(rs)
  {
    if rs != [] {
      StoreAcceptsUpload(s, u, rs[..|rs| - 1]);
    }
  }

  // ----- where the pieces come from -----

  function Slices<T>(value: seq<T>, n: nat): seq<seq<T>>
    requires n > 0
    decreases |value|
  {
    if value == [] then []
    else if |value| <= n then [value]
    else [value[..n]] + Slices(value[n..], n)
  }

  /** A bytes value cut into slices is the slices put together. */
  lemma {:induction false} SlicesOfBytes(value: seq<Byte>, n: nat)
    requires n > 0
    ensures Flatten(Slices(value, n)) == value
    decreases |value|
  {
    if |value| > n { SlicesOfBytes(value[n..], n); }
  }

  /** Strict encoding: a lone surrogate raises an error. */
  function Strict(t: Utf8.Text): Option<seq<Byte>> {
    if Utf8.Encodable(t) then Some(Utf8.Encode(t)) else None
  }

  function StrictAll(ts: seq<Utf8.Text>): (r: seq<Option<seq<Byte>>>)
    ensures |r| == |ts| && forall i :: 0 <= i < |ts| ==> r[i] == Strict(ts[i])
  {
    if ts == [] then [] else [Strict(ts[0])] + StrictAll(ts[1..])
  }

  lemma {:induction false} SlicesEncodable(t: Utf8.Text, n: nat)
    requires n > 0
    ensures (forall s :: s in Slices(t, n) ==> Utf8.Encodable(s)) <==> Utf8.Encodable(t)
    decreases |t|
  {
    if |t| > n {
      SlicesEncodable(t[n..], n);
      assert t == t[..n] + t[n..];
      var rest := Slices(t[n..], n);
      assert Slices(t, n)[0] == t[..n];
      assert forall s :: s in rest ==> s in Slices(t, n);
      assert Utf8.Encodable(t[..n]) && Utf8.Encodable(t[n..]) ==> Utf8.Encodable(t);
    } else if t != [] {
      assert Slices(t, n)[0] == t;
    }
  }

  /** Encoding a text slice by slice gives the encoding of the whole text. */
  lemma {:induction false} SlicesOfText(t: Utf8.Text, n: nat)
    requires n > 0 && Utf8.Encodable(t)
    ensures Flatten(Produced(StrictAll(Slices(t, n)))) == Utf8.Encode(t)
    decreases |t|
  {
    if |t| > n {
      SlicesOfText(t[n..], n);
      assert t == t[..n] + t[n..];
      Utf8.EncodeConcat(t[..n], t[n..]);
      var all := StrictAll(Slices(t, n));
      assert all[1..] == StrictAll(Slices(t[n..], n));
    } else if t != [] {
      var all := StrictAll(Slices(t, n));
      assert all == [Strict(t)] && all[1..] == [];
    }
  }

  /**
   A text value is uploaded exactly when it has an encoding of at most 16 MiB,
   and what is committed is that encoding.
   */
  method UploadText(t: Utf8.Text) returns (rs: seq<Request>, outcome: Outcome)
    ensures outcome.Committed? <==> Utf8.Encodable(t) && |Utf8.Encode(t)| <= ITEM_LIMIT
    ensures outcome.Committed? ==> Accepted(rs) && Payload(rs) == Utf8.Encode(t)
  {
    var slices := Slices(t, 8192);
    var pieces := StrictAll(slices);
    SlicesEncodable(t, 8192);
    if Utf8.Encodable(t) { SlicesOfText(t, 8192); }
    rs, outcome := Upload(pieces);
    assert (forall s :: s in slices ==> Utf8.Encodable(s)) <==> !Broken(pieces);
  }
}
