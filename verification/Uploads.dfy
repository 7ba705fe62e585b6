/**
 An artifact upload from end to end: the worker's appends, as `Chunker` makes
 them, through the store's jobs, as `ArtifactJobs` interleaves them, and back
 out page by page (`src/repl_mcp/native_worker.py`, `native/src/artifacts.rs`).
 */
module Uploads {
  import opened Outcomes
  import opened Bytes
  import opened Base64
  import opened ArtifactStore
  import opened ArtifactJobs
  import opened Chunker
  import Schedules

  /** The accepted appends to `u` over a schedule, as the store saw them. */
  function AcceptedRequests(s: State, es: seq<Event>, u: nat): seq<Request>
    decreases |es|
  {
    if es == [] || !Enabled(s, es[0]) then []
    else
      (if Accepts(s, es[0], u) then [Request(es[0].offset, es[0].data)] else [])
      + AcceptedRequests(ArtifactJobs.Apply(s, es[0]), es[1..], u)
  }

  /** `rs` are among `all`, in order; others may come before, between and after. */
  predicate Within(rs: seq<Request>, all: seq<Request>) {
    rs == []
    || (all != []
        && var first := all[..|all| - 1];
           Within(rs, first)
           || (rs[|rs| - 1] == all[|all| - 1] && Within(rs[..|rs| - 1], first)))
  }

  lemma AcceptedStep(s: State, e: Event, u: nat, sent: seq<Request>)
    requires UploadsOk(s.store) && Enabled(s, e) && Accepts(s, e, u)
    requires Accepted(sent) && Payload(sent) == Hashed(s, u)
    ensures var all := sent + [Request(e.offset, e.data)];
            Accepted(all) && Payload(all) == Hashed(s, u) + Decode(e.data).value
  {
    assert UploadOk(s.store, u);
    OneMore(sent, Request(e.offset, e.data));
  }

  lemma {:induction false} AcceptedRun(s: State, es: seq<Event>, t: State, u: nat, sent: seq<Request>)
    requires Inv(s) && Runs(s, es, t) && Accepted(sent) && Payload(sent) == Hashed(s, u)
    ensures var all := sent + AcceptedRequests(s, es, u);
            Accepted(all) && Payload(all) == Hashed(t, u)
    decreases |es|
  {
    if es != [] {
      var e := es[0];
      RunsFirst(s, es, t);
      StepKeeps(s, e);
      HashedStep(s, e, u);
      var more := if Accepts(s, e, u) then [Request(e.offset, e.data)] else [];
      if Accepts(s, e, u) { AcceptedStep(s, e, u, sent); } else { assert sent + [] == sent; }
      AcceptedRun(ArtifactJobs.Apply(s, e), es[1..], t, u, sent + more);
      Associative(sent, more, AcceptedRequests(ArtifactJobs.Apply(s, e), es[1..], u));
    } else {
      Schedules.NothingOnly(Steps, s, t);
      assert sent + [] == sent;
    }
  }

  lemma Associative(a: seq<Request>, b: seq<Request>, c: seq<Request>)
    ensures a + b + c == a + (b + c)
  {}

  lemma LastRequest(all: seq<Request>) returns (bytes: seq<Byte>)
    requires Accepted(all) && all != []
    ensures var first, last := all[..|all| - 1], all[|all| - 1];
            && Accepted(first) && last.offset == |Payload(first)|
            && Decode(last.data) == Some(bytes) && Payload(all) == Payload(first) + bytes
  {
    bytes := Decode(all[|all| - 1].data).value;
  }

  lemma EqualPrefix(a: seq<Byte>, b: seq<Byte>)
    requires a <= b && |a| == |b|
    ensures a == b
  {}

  /** The same request accepted at the same offset, after bytes that begin alike. */
  lemma SameOffset(rs: seq<Request>, all: seq<Request>)
    requires rs != [] && all != [] && Accepted(rs) && Accepted(all) && rs[|rs| - 1] == all[|all| - 1]
    requires Payload(rs[..|rs| - 1]) <= Payload(all[..|all| - 1])
    ensures Payload(rs) == Payload(all)
  {
    var mine := LastRequest(rs);
    var theirs := LastRequest(all);
    EqualPrefix(Payload(rs[..|rs| - 1]), Payload(all[..|all| - 1]));
  }

  /**
   Offsets alone keep a client's bytes together: if its appends were accepted in
   order, nothing was accepted before or between them that added a byte.
   */
  lemma {:induction false} OffsetsKeepTogether(rs: seq<Request>, all: seq<Request>)
    requires Accepted(rs) && Accepted(all) && Within(rs, all)
    ensures Payload(rs) <= Payload(all)
    decreases |all|
  {
    if rs != [] {
      var first := all[..|all| - 1];
      var last := LastRequest(all);
      if Within(rs, first) {
        OffsetsKeepTogether(rs, first);
      } else {
        OffsetsKeepTogether(rs[..|rs| - 1], first);
        SameOffset(rs, all);
      }
    }
  }

  /**
   The value a client uploaded comes back, under every interleaving of jobs with
   each other, with run ends and with session closes. The client's appends are
   acceptable ones that make up the value, as the worker's are; each was accepted
   by the store, in order, whatever else was sent to the same upload. Then the
   published digest covers the value first; when the recorded size is the value's,
   it covers nothing else, and unless an append failed half-way the file is the
   value, verify passes and paging through it returns the value.
   */
  lemma ValueComesBack(
    es: seq<Event>, t: State, i: nat, rs: seq<Request>, value: seq<Byte>, hash: seq<Byte> -> int, length: nat)
    requires Runs(START, es, t) && i < |t.released| && t.released[i].entry.file in t.store.arena
    requires Accepted(rs) && Payload(rs) == value
    requires Within(rs, AcceptedRequests(START, es, t.released[i].entry.file)) && 1 <= length <= RANGE_LIMIT
    ensures var r := t.released[i];
            && value <= r.entry.hashed && |value| <= r.entry.size
            && (r.entry.size == |value| ==>
                  r.entry.hashed == value && (r.content == value <==> TornIn(START, es, r.entry.file) == 0))
            && (r.entry.size == |value| && TornIn(START, es, r.entry.file) == 0 ==>
                  Verifies(hash, r.entry, r.content) && ReadAll(r.content, r.entry.size, 0, length) == value)
  {
    var u := t.released[i].entry.file;
    StartInv();
    AcceptedRun(START, es, t, u, []);
    var all := AcceptedRequests(START, es, u);
    assert [] + all == all;
    OffsetsKeepTogether(rs, all);
    HashedFromStart(es, t, u);
    UploadRoundTrip(es, t, i, hash, length);
  }
}
