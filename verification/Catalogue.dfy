/**
 Reading a peer's whole tool catalogue by following its cursors
 (`native/src/broker.rs`, `tools`), against a peer that may answer anything.
 */
module Catalogue {
  import opened Outcomes

  const PAGE_LIMIT: nat := 128
  const BYTE_LIMIT: nat := 1024 * 1024
  const ENTRY_LIMIT: nat := 10000

  /** A tool definition: its name, when it has a string one, and its serialised size. */
  datatype Tool = Tool(name: Option<string>, size: nat)

  datatype Reply = Failure | Malformed | Page(tools: seq<Tool>, next: Option<string>)

  /** Any peer at all: the reply may depend on the request's number and its cursor. */
  type Peer = (nat, Option<string>) -> Reply

  datatype Refusal = RequestFailed | InvalidResponse | TooManyBytes | DuplicateName | TooManyEntries | CursorRepeated
    | TooManyPages

  // ----- what a complete catalogue is -----

  /** The cursor of request n, and its reply. */
  function CursorAt(peer: Peer, n: nat): Option<string> {
    if n == 0 then None
    else match peer(n - 1, CursorAt(peer, n - 1))
      case Page(_, next) => next
      case _ => None
  }

  /** The cursor reply n names. */
  function NextCursor(peer: Peer, n: nat): Option<string> {
    CursorAt(peer, n + 1)
  }

  function ReplyAt(peer: Peer, n: nat): Reply {
    peer(n, CursorAt(peer, n))
  }

  predicate Granted(grant: Option<set<string>>, t: Tool) {
    grant.None? || (t.name.Some? && t.name.value in grant.value)
  }

  function Visible(grant: Option<set<string>>, tools: seq<Tool>): seq<Tool> {
    if tools == [] then []
    else (if Granted(grant, tools[0]) then [tools[0]] else []) + Visible(grant, tools[1..])
  }

  function PageTools(r: Reply): seq<Tool> {
    if r.Page? then r.tools else []
  }

  /** The granted tools of the first n pages, in order. */
  function Gathered(peer: Peer, grant: Option<set<string>>, n: nat): seq<Tool> {
    if n == 0 then [] else Gathered(peer, grant, n - 1) + Visible(grant, PageTools(ReplyAt(peer, n - 1)))
  }

  /** The first n replies are pages, each naming a next one, by cursors never seen before. */
  predicate Continues(peer: Peer, n: nat) {
    n > 0 ==>
      Continues(peer, n - 1) && ReplyAt(peer, n - 1).Page? && ReplyAt(peer, n - 1).next.Some? && NewCursor(peer, n - 1)
  }

  /** The cursor named by reply n was named by none before it. */
  predicate NewCursor(peer: Peer, n: nat) {
    forall i :: 0 <= i < n ==> NextCursor(peer, i) != NextCursor(peer, n)
  }

  lemma {:induction false} ContinuesPrefix(peer: Peer, m: nat, n: nat)
    requires m <= n && Continues(peer, n)
    ensures Continues(peer, m)
  {
    if m < n { ContinuesPrefix(peer, m, n - 1); }
  }

  lemma {:induction false} ContinuesAt(peer: Peer, n: nat, i: nat)
    requires Continues(peer, n) && i < n
    ensures ReplyAt(peer, i).Page? && ReplyAt(peer, i).next.Some? && NewCursor(peer, i)
  {
    if i < n - 1 { ContinuesAt(peer, n - 1, i); }
  }

  /** In other words: all are pages with a next cursor, and the cursors are distinct. */
  lemma {:induction false} ContinuesMeans(peer: Peer, n: nat)
    ensures Continues(peer, n) <==>
            (forall i :: 0 <= i < n ==> ReplyAt(peer, i).Page? && ReplyAt(peer, i).next.Some?)
            && forall k :: 0 <= k < n ==> NewCursor(peer, k)
  {
    if n > 0 { ContinuesMeans(peer, n - 1); }
  }

  /** n + 1 pages, within the page limit, make the whole catalogue. */
  predicate Complete(limit: nat, peer: Peer, n: nat) {
    n < limit && Continues(peer, n) && ReplyAt(peer, n).Page? && ReplyAt(peer, n).next.None?
  }

  function Bytes(tools: seq<Tool>): nat {
    if tools == [] then 0 else Bytes(tools[..|tools| - 1]) + tools[|tools| - 1].size
  }

  /** A name is used once: the tool has no string name, or none of these has it. */
  predicate NewName(tools: seq<Tool>, t: Tool) {
    t.name.Some? ==> forall i :: 0 <= i < |tools| ==> tools[i].name != t.name
  }

  predicate DistinctNames(tools: seq<Tool>) {
    tools != [] ==> DistinctNames(tools[..|tools| - 1]) && NewName(tools[..|tools| - 1], tools[|tools| - 1])
  }

  /** In other words: no two tools share a string name. */
  lemma {:induction false} DistinctNamesMeans(tools: seq<Tool>)
    ensures DistinctNames(tools) <==>
            forall i, k :: 0 <= i < k < |tools| && tools[k].name.Some? ==> tools[i].name != tools[k].name
  {
    if tools != [] {
      var n := |tools| - 1;
      DistinctNamesMeans(tools[..n]);
      assert forall i :: 0 <= i < n ==> tools[..n][i] == tools[i];
    }
  }

  predicate Fits(tools: seq<Tool>) {
    Bytes(tools) <= BYTE_LIMIT && DistinctNames(tools) && |tools| <= ENTRY_LIMIT
  }

  /** A catalogue the broker may return: complete after page n, and within every limit. */
  predicate Acceptable(limit: nat, peer: Peer, grant: Option<set<string>>, n: nat) {
    Complete(limit, peer, n) && Fits(Gathered(peer, grant, n + 1))
  }

  // ----- prefixes of catalogues -----

  lemma {:induction false} BytesPrefix(tools: seq<Tool>, n: nat)
    requires n <= |tools|
    ensures Bytes(tools[..n]) <= Bytes(tools)
  {
    if n < |tools| {
      assert tools[..|tools| - 1][..n] == tools[..n];
      BytesPrefix(tools[..|tools| - 1], n);
    } else {
      assert tools[..n] == tools;
    }
  }

  lemma {:induction false} DistinctPrefix(tools: seq<Tool>, n: nat)
    requires n <= |tools| && DistinctNames(tools)
    ensures DistinctNames(tools[..n])
  {
    if n < |tools| {
      assert tools[..|tools| - 1][..n] == tools[..n];
      DistinctPrefix(tools[..|tools| - 1], n);
    } else {
      assert tools[..n] == tools;
    }
  }

  /** What breaks a limit in a prefix breaks it in the whole. */
  lemma FitsPrefix(a: seq<Tool>, b: seq<Tool>)
    requires a <= b && Fits(b)
    ensures Fits(a)
  {
    BytesPrefix(b, |a|);
    DistinctPrefix(b, |a|);
    assert b[..|a|] == a;
  }

  lemma {:induction false} GatheredPrefix(peer: Peer, grant: Option<set<string>>, m: nat, n: nat)
    requires m <= n
    ensures Gathered(peer, grant, m) <= Gathered(peer, grant, n)
  {
    if m < n { GatheredPrefix(peer, grant, m, n - 1); }
  }

  lemma {:induction false} VisibleConcat(grant: Option<set<string>>, a: seq<Tool>, b: seq<Tool>)
    ensures Visible(grant, a + b) == Visible(grant, a) + Visible(grant, b)
  {
    if a == [] {
      assert a + b == b;
    } else {
      assert (a + b)[0] == a[0] && (a + b)[1..] == a[1..] + b;
      VisibleConcat(grant, a[1..], b);
      var first := if Granted(grant, a[0]) then [a[0]] else [];
      assert first + (Visible(grant, a[1..]) + Visible(grant, b)) == first + Visible(grant, a[1..]) + Visible(grant, b);
    }
  }

  lemma VisibleSplit(grant: Option<set<string>>, tools: seq<Tool>, j: nat)
    requires j < |tools|
    ensures Visible(grant, tools[..j + 1]) ==
            Visible(grant, tools[..j]) + if Granted(grant, tools[j]) then [tools[j]] else []
    ensures Visible(grant, tools[..j + 1]) <= Visible(grant, tools)
  {
    assert tools[..j + 1] == tools[..j] + [tools[j]];
    VisibleConcat(grant, tools[..j], [tools[j]]);
    assert tools == tools[..j + 1] + tools[j + 1..];
    VisibleConcat(grant, tools[..j + 1], tools[j + 1..]);
  }

  /** The peer has no chain of pages the broker may return. */
  ghost predicate NoCatalogue(limit: nat, peer: Peer, grant: Option<set<string>>) {
    forall n: nat :: !Acceptable(limit, peer, grant, n)
  }

  /** A complete chain does not end where the peer names a next page. */
  lemma EndsLater(limit: nat, peer: Peer, n: nat, m: nat)
    requires Continues(peer, n) && Complete(limit, peer, m)
    ensures n <= m
  {
    if m < n { ContinuesAt(peer, n, m); }
  }

  lemma NotBefore(limit: nat, peer: Peer, n: nat, m: nat)
    requires Continues(peer, n) && m < n
    ensures !Complete(limit, peer, m)
  {
    ContinuesAt(peer, n, m);
  }

  lemma EarlierNotAcceptable(limit: nat, peer: Peer, grant: Option<set<string>>, n: nat, m: nat)
    requires Continues(peer, n) && m < n
    ensures !Acceptable(limit, peer, grant, m)
  {
    NotBefore(limit, peer, n, m);
  }

  lemma LaterNotAcceptable(limit: nat, peer: Peer, grant: Option<set<string>>, n: nat, m: nat)
    requires n <= m && !Fits(Gathered(peer, grant, n + 1))
    ensures !Acceptable(limit, peer, grant, m)
  {
    Overflows(peer, grant, n + 1, m + 1);
  }

  /** After n continuing pages, whatever is complete includes all that was gathered and more. */
  lemma OverflowNoCatalogue(limit: nat, peer: Peer, grant: Option<set<string>>, n: nat)
    requires Continues(peer, n) && !Fits(Gathered(peer, grant, n + 1))
    ensures NoCatalogue(limit, peer, grant)
  {
    forall m: nat ensures !Acceptable(limit, peer, grant, m) {
      if m < n {
        EarlierNotAcceptable(limit, peer, grant, n, m);
      } else {
        LaterNotAcceptable(limit, peer, grant, n, m);
      }
    }
  }

  lemma Overflows(peer: Peer, grant: Option<set<string>>, m: nat, n: nat)
    requires m <= n && !Fits(Gathered(peer, grant, m))
    ensures !Fits(Gathered(peer, grant, n))
  {
    GatheredPrefix(peer, grant, m, n);
    if Fits(Gathered(peer, grant, n)) { FitsPrefix(Gathered(peer, grant, m), Gathered(peer, grant, n)); }
  }

  /** A reply that is no page, or repeats a cursor, stops every chain through it. */
  lemma StuckNoCatalogue(limit: nat, peer: Peer, grant: Option<set<string>>, n: nat)
    requires Continues(peer, n) && !Continues(peer, n + 1)
    requires ReplyAt(peer, n).Page? ==> ReplyAt(peer, n).next.Some?
    ensures NoCatalogue(limit, peer, grant)
    ensures n < limit ==> !Continues(peer, limit)
  {
    if n < limit && Continues(peer, limit) { ContinuesPrefix(peer, n + 1, limit); }
    forall m: nat ensures !Complete(limit, peer, m) { StuckNotComplete(limit, peer, n, m); }
  }

  lemma StuckNotComplete(limit: nat, peer: Peer, n: nat, m: nat)
    requires Continues(peer, n) && !Continues(peer, n + 1)
    requires ReplyAt(peer, n).Page? ==> ReplyAt(peer, n).next.Some?
    ensures !Complete(limit, peer, m)
  {
    if m < n {
      NotBefore(limit, peer, n, m);
    } else if m > n && Continues(peer, m) {
      ContinuesPrefix(peer, n + 1, m);
    }
  }

  lemma EndlessNoCatalogue(limit: nat, peer: Peer, grant: Option<set<string>>)
    requires Continues(peer, limit)
    ensures NoCatalogue(limit, peer, grant)
  {
    forall m: nat | Complete(limit, peer, m) ensures false { EndsLater(limit, peer, limit, m); }
  }

  // ----- the loop -----

  /** The names after one more tool. */
  function Named(names: set<string>, t: Tool): set<string> {
    if t.name.Some? then names + {t.name.value} else names
  }

  function NamesOf(tools: seq<Tool>): set<string> {
    if tools == [] then {} else Named(NamesOf(tools[..|tools| - 1]), tools[|tools| - 1])
  }

  lemma {:induction false} NameUsed(tools: seq<Tool>, n: string)
    ensures n in NamesOf(tools) <==> exists i :: 0 <= i < |tools| && tools[i].name == Some(n)
  {
    if tools != [] {
      var last := |tools| - 1;
      NameUsed(tools[..last], n);
      if i :| 0 <= i < |tools| && tools[i].name == Some(n) { assert i < last ==> tools[..last][i].name == Some(n); }
      if i :| 0 <= i < last && tools[..last][i].name == Some(n) { assert tools[i].name == Some(n); }
    }
  }

  lemma NewNameInSet(tools: seq<Tool>, t: Tool)
    ensures NewName(tools, t) <==> !(t.name.Some? && t.name.value in NamesOf(tools))
  {
    if t.name.Some? {
      assert t.name == Some(t.name.value);
      NameUsed(tools, t.name.value);
    }
  }

  /** The accumulators after some tools: their bytes, and the names among them. */
  predicate Tallied(tools: seq<Tool>, bytes: nat, names: set<string>) {
    bytes == Bytes(tools) && bytes <= BYTE_LIMIT && DistinctNames(tools) && names == NamesOf(tools)
  }

  lemma NameAgain(tools: seq<Tool>, bytes: nat, names: set<string>, t: Tool)
    requires Tallied(tools, bytes, names) && t.name.Some? && t.name.value in names
    ensures !DistinctNames(tools + [t])
  {
    assert (tools + [t])[..|tools|] == tools;
    NewNameInSet(tools, t);
  }

  lemma TallyOne(tools: seq<Tool>, bytes: nat, names: set<string>, t: Tool)
    requires Tallied(tools, bytes, names) && bytes + t.size <= BYTE_LIMIT
    requires !(t.name.Some? && t.name.value in names)
    ensures Tallied(tools + [t], bytes + t.size, Named(names, t))
  {
    assert (tools + [t])[..|tools|] == tools;
    NewNameInSet(tools, t);
  }

  /** What one granted tool of a page does to the tally, or to the whole page when it is refused. */
  lemma PageStep(grant: Option<set<string>>, page: seq<Tool>, sofar: seq<Tool>, tools: seq<Tool>, bytes: nat,
                 names: set<string>, j: nat)
    requires j < |page| && Granted(grant, page[j])
    requires Tallied(tools, bytes, names) && tools == sofar + Visible(grant, page[..j])
    ensures tools + [page[j]] == sofar + Visible(grant, page[..j + 1])
    ensures bytes + page[j].size > BYTE_LIMIT ==> Bytes(sofar + Visible(grant, page)) > BYTE_LIMIT
    ensures page[j].name.Some? && page[j].name.value in names ==> !DistinctNames(sofar + Visible(grant, page))
    ensures bytes + page[j].size <= BYTE_LIMIT && !(page[j].name.Some? && page[j].name.value in names) ==>
              Tallied(tools + [page[j]], bytes + page[j].size, Named(names, page[j]))
  {
    var t, part := page[j], tools + [page[j]];
    VisibleSplit(grant, page, j);
    assert part == sofar + Visible(grant, page[..j + 1]);
    assert part[..|tools|] == tools;
    WholePageFails(sofar + Visible(grant, page), part);
    if t.name.Some? && t.name.value in names { NameAgain(tools, bytes, names, t); }
    else if bytes + t.size <= BYTE_LIMIT { TallyOne(tools, bytes, names, t); }
  }

  lemma WholePageFails(whole: seq<Tool>, part: seq<Tool>)
    requires part <= whole
    ensures Bytes(part) <= Bytes(whole) && (!DistinctNames(part) ==> !DistinctNames(whole))
  {
    BytesPrefix(whole, |part|);
    assert whole[..|part|] == part;
    if DistinctNames(whole) { DistinctPrefix(whole, |part|); }
  }

  /** The inner loop over one page: every granted tool is measured, checked and kept. */
  method AddPage(grant: Option<set<string>>, page: seq<Tool>, sofar: seq<Tool>, size: nat, known: set<string>)
    returns (r: Result<seq<Tool>, Refusal>, bytes: nat, names: set<string>)
    requires Tallied(sofar, size, known)
    ensures r.Ok? ==> r.value == sofar + Visible(grant, page) && Tallied(r.value, bytes, names)
    ensures r.Err? ==> (r.error.TooManyBytes? && Bytes(sofar + Visible(grant, page)) > BYTE_LIMIT)
                       || (r.error.DuplicateName? && !DistinctNames(sofar + Visible(grant, page)))
  {
    var tools := sofar;
    bytes, names := size, known;
    var j := 0;
    assert sofar + Visible(grant, page[..0]) == sofar;
    while j < |page|
      invariant 0 <= j <= |page| && Tallied(tools, bytes, names)
      invariant tools == sofar + Visible(grant, page[..j])
    {
      var tool := page[j];
      if Granted(grant, tool) {
        PageStep(grant, page, sofar, tools, bytes, names, j);
        bytes := bytes + tool.size;
        if bytes > BYTE_LIMIT {
          return Err(TooManyBytes), bytes, names;
        }
        if tool.name.Some? {
          if tool.name.value in names {
            return Err(DuplicateName), bytes, names;
          }
          names := names + {tool.name.value};
        }
        tools := tools + [tool];
      } else {
        VisibleSplit(grant, page, j);
        assert Visible(grant, page[..j + 1]) == Visible(grant, page[..j]);
      }
      j := j + 1;
    }
    assert page[..j] == page;
    return Ok(tools), bytes, names;
  }

  /** The cursors the first n replies named. */
  function CursorsOf(peer: Peer, n: nat): set<string> {
    if n == 0 then {}
    else CursorsOf(peer, n - 1) + if NextCursor(peer, n - 1).Some? then {NextCursor(peer, n - 1).value} else {}
  }

  lemma {:induction false} CursorUsed(peer: Peer, n: nat, c: string)
    ensures c in CursorsOf(peer, n) <==> exists i :: 0 <= i < n && NextCursor(peer, i) == Some(c)
  {
    if n > 0 {
      CursorUsed(peer, n - 1, c);
      if i :| 0 <= i < n && NextCursor(peer, i) == Some(c) { assert i < n - 1 || i == n - 1; }
    }
  }

  /** The loop between pages: everything gathered from pages that all went on. */
  predicate Underway(peer: Peer, grant: Option<set<string>>, n: nat, cursor: Option<string>, tools: seq<Tool>,
                     seen: set<string>) {
    && cursor == CursorAt(peer, n) && Continues(peer, n) && tools == Gathered(peer, grant, n)
    && seen == CursorsOf(peer, n)
  }

  lemma NewCursorInSet(peer: Peer, n: nat)
    requires NextCursor(peer, n).Some?
    ensures NewCursor(peer, n) <==> NextCursor(peer, n).value !in CursorsOf(peer, n)
  {
    CursorUsed(peer, n, NextCursor(peer, n).value);
    assert NextCursor(peer, n) == Some(NextCursor(peer, n).value);
  }

  lemma NextIsNamed(peer: Peer, n: nat)
    requires ReplyAt(peer, n).Page?
    ensures NextCursor(peer, n) == ReplyAt(peer, n).next
  {}

  lemma CursorSeen(peer: Peer, grant: Option<set<string>>, n: nat, cursor: Option<string>, tools: seq<Tool>,
                   seen: set<string>)
    requires Underway(peer, grant, n, cursor, tools, seen)
    requires ReplyAt(peer, n).Page? && ReplyAt(peer, n).next.Some?
    ensures ReplyAt(peer, n).next.value in seen <==> !Continues(peer, n + 1)
  {
    NextIsNamed(peer, n);
    NewCursorInSet(peer, n);
  }

  lemma Onward(peer: Peer, grant: Option<set<string>>, n: nat, cursor: Option<string>, tools: seq<Tool>,
               seen: set<string>)
    requires Underway(peer, grant, n, cursor, tools, seen) && Continues(peer, n + 1)
    ensures Underway(peer, grant, n + 1, ReplyAt(peer, n).next, Gathered(peer, grant, n + 1),
                     seen + {ReplyAt(peer, n).next.value})
  {
    NextIsNamed(peer, n);
  }

  /** Everything gathered stays within the limits, page by page. */
  predicate FitThroughout(peer: Peer, grant: Option<set<string>>, n: nat) {
    Fits(Gathered(peer, grant, n)) && (n > 0 ==> FitThroughout(peer, grant, n - 1))
  }

  lemma {:induction false} FitAt(peer: Peer, grant: Option<set<string>>, k: nat, n: nat)
    requires k <= n && FitThroughout(peer, grant, n)
    ensures Fits(Gathered(peer, grant, k))
  {
    if k < n { FitAt(peer, grant, k, n - 1); }
  }

  lemma FitFails(peer: Peer, grant: Option<set<string>>, n: nat, limit: nat)
    requires Continues(peer, n) && n < limit && !Fits(Gathered(peer, grant, n + 1))
    ensures NoCatalogue(limit, peer, grant) && !FitThroughout(peer, grant, limit)
  {
    OverflowNoCatalogue(limit, peer, grant, n);
    if FitThroughout(peer, grant, limit) { FitAt(peer, grant, n + 1, limit); }
  }

  lemma LastPage(limit: nat, peer: Peer, grant: Option<set<string>>, n: nat)
    requires Continues(peer, n) && n < limit && ReplyAt(peer, n).Page? && ReplyAt(peer, n).next.None?
    requires Fits(Gathered(peer, grant, n + 1))
    ensures Complete(limit, peer, n) && !NoCatalogue(limit, peer, grant) && !Continues(peer, limit)
  {
    assert Acceptable(limit, peer, grant, n);
    if Continues(peer, limit) { ContinuesAt(peer, limit, n); }
  }

  /** All the accumulators before request n. */
  predicate Going(peer: Peer, grant: Option<set<string>>, n: nat, cursor: Option<string>, tools: seq<Tool>,
                  bytes: nat, names: set<string>, seen: set<string>) {
    Underway(peer, grant, n, cursor, tools, seen) && Tallied(tools, bytes, names) && FitThroughout(peer, grant, n)
  }

  lemma Beginning(peer: Peer, grant: Option<set<string>>)
    ensures Going(peer, grant, 0, None, [], 0, {}, {})
  {}

  /** One page of the loop: its reply, and what it makes of the accumulators. */
  method NextPage(limit: nat, peer: Peer, grant: Option<set<string>>, page: nat, cursor: Option<string>,
                  tools: seq<Tool>, bytes: nat, names: set<string>)
    returns (r: Result<seq<Tool>, Refusal>, size: nat, known: set<string>, next: Option<string>)
    requires page < limit && Continues(peer, page) && cursor == CursorAt(peer, page)
    requires tools == Gathered(peer, grant, page) && Tallied(tools, bytes, names)
    ensures r.Ok? ==> ReplyAt(peer, page).Page? && next == ReplyAt(peer, page).next
    ensures r.Ok? ==> r.value == Gathered(peer, grant, page + 1) && Fits(r.value) && Tallied(r.value, size, known)
    ensures r.Err? ==> NoCatalogue(limit, peer, grant) && !r.error.TooManyPages?
    ensures r.Err? ==> !Continues(peer, limit) || !FitThroughout(peer, grant, limit)
  {
    size, known, next := bytes, names, None;
    var reply := peer(page, cursor);
    assert reply == ReplyAt(peer, page);
    if !reply.Page? {
      StuckNoCatalogue(limit, peer, grant, page);
      return Err(if reply.Failure? then RequestFailed else InvalidResponse), size, known, next;
    }
    r, size, known := AddPage(grant, reply.tools, tools, bytes, names);
    assert Gathered(peer, grant, page + 1) == tools + Visible(grant, reply.tools);
    if r.Err? {
      FitFails(peer, grant, page, limit);
      return;
    }
    if |r.value| > ENTRY_LIMIT {
      FitFails(peer, grant, page, limit);
      return Err(TooManyEntries), size, known, next;
    }
    next := reply.next;
  }

  /** As many good pages as the limit allows, and every one of them names a next. */
  ghost predicate Endless(limit: nat, peer: Peer, grant: Option<set<string>>) {
    Continues(peer, limit) && FitThroughout(peer, grant, limit)
  }

  lemma RepeatStops(limit: nat, peer: Peer, grant: Option<set<string>>, n: nat, cursor: Option<string>,
                    tools: seq<Tool>, seen: set<string>)
    requires Underway(peer, grant, n, cursor, tools, seen) && n < limit
    requires ReplyAt(peer, n).Page? && ReplyAt(peer, n).next.Some? && ReplyAt(peer, n).next.value in seen
    ensures NoCatalogue(limit, peer, grant) && !Endless(limit, peer, grant)
  {
    CursorSeen(peer, grant, n, cursor, tools, seen);
    StuckNoCatalogue(limit, peer, grant, n);
  }

  lemma NewCursorGoesOn(peer: Peer, grant: Option<set<string>>, n: nat, cursor: Option<string>, tools: seq<Tool>,
                        seen: set<string>)
    requires Underway(peer, grant, n, cursor, tools, seen)
    requires ReplyAt(peer, n).Page? && ReplyAt(peer, n).next.Some? && ReplyAt(peer, n).next.value !in seen
    ensures Underway(peer, grant, n + 1, ReplyAt(peer, n).next, Gathered(peer, grant, n + 1),
                     seen + {ReplyAt(peer, n).next.value})
  {
    CursorSeen(peer, grant, n, cursor, tools, seen);
    Onward(peer, grant, n, cursor, tools, seen);
  }

  /** What the answer after some requests must be. */
  ghost predicate Answers(limit: nat, peer: Peer, grant: Option<set<string>>, requests: nat,
                          r: Result<seq<Tool>, Refusal>) {
    && (r.Ok? <==> !NoCatalogue(limit, peer, grant))
    && (r.Ok? ==> requests > 0 && Complete(limit, peer, requests - 1) && r.value == Gathered(peer, grant, requests))
    && (r == Err(TooManyPages) <==> Endless(limit, peer, grant))
  }

  /** One turn of the loop, ending in an answer or in the accumulators of the next turn. */
  method Turn(limit: nat, peer: Peer, grant: Option<set<string>>, page: nat, cursor: Option<string>, tools: seq<Tool>,
              bytes: nat, names: set<string>, seen: set<string>)
    returns (answer: Option<Result<seq<Tool>, Refusal>>, next: Option<string>, all: seq<Tool>, size: nat,
             known: set<string>, cursors: set<string>)
    requires page < limit && Going(peer, grant, page, cursor, tools, bytes, names, seen)
    ensures answer.None? ==> Going(peer, grant, page + 1, next, all, size, known, cursors)
    ensures answer.Some? ==> Answers(limit, peer, grant, page + 1, answer.value)
  {
    var r;
    r, size, known, next := NextPage(limit, peer, grant, page, cursor, tools, bytes, names);
    all, cursors := tools, seen;
    if r.Err? {
      answer := Some(Err(r.error));
    } else {
      all := r.value;
      if next.None? {
        LastPage(limit, peer, grant, page);
        answer := Some(Ok(all));
      } else if next.value in seen {
        RepeatStops(limit, peer, grant, page, cursor, tools, seen);
        answer := Some(Err(CursorRepeated));
      } else {
        NewCursorGoesOn(peer, grant, page, cursor, tools, seen);
        cursors := seen + {next.value};
        answer := None;
      }
    }
  }

  lemma EndlessEnds(limit: nat, peer: Peer, grant: Option<set<string>>, cursor: Option<string>, tools: seq<Tool>,
                    seen: set<string>)
    requires Underway(peer, grant, limit, cursor, tools, seen) && FitThroughout(peer, grant, limit)
    ensures Answers(limit, peer, grant, limit, Err(TooManyPages))
  {
    EndlessNoCatalogue(limit, peer, grant);
  }

  /** The page loop, for any page limit. */
  method Fetch(limit: nat, peer: Peer, grant: Option<set<string>>)
    returns (r: Result<seq<Tool>, Refusal>, requests: nat)
    ensures requests <= limit
    ensures Answers(limit, peer, grant, requests, r)
  {
    var tools: seq<Tool> := [];
    var bytes: nat := 0;
    var names: set<string> := {};
    var cursor: Option<string> := None;
    var seen: set<string> := {};
    requests := 0;
    Beginning(peer, grant);
    for page := 0 to limit
      invariant requests == page && Going(peer, grant, page, cursor, tools, bytes, names, seen)
    {
      var answer;
      answer, cursor, tools, bytes, names, seen := Turn(limit, peer, grant, page, cursor, tools, bytes, names, seen);
      requests := requests + 1;
      if answer.Some? {
        return answer.value, requests;
      }
    }
    EndlessEnds(limit, peer, grant, cursor, tools, seen);
    return Err(TooManyPages), requests;
  }

  /**
   Whatever the peer, cyclic or endless cursors included: at most 128 requests
   are made, and a list comes back if and only if the peer has a complete chain
   of pages within the limits; the list is then all of it, filtered by the grant.
   No failure returns a list, and only 128 good pages that all went on are
   reported as too many.
   */
  method Tools(peer: Peer, grant: Option<set<string>>) returns (r: Result<seq<Tool>, Refusal>, requests: nat)
    ensures requests <= PAGE_LIMIT
    ensures r.Ok? <==> !NoCatalogue(PAGE_LIMIT, peer, grant)
    ensures r.Ok? ==>
              requests > 0 && Complete(PAGE_LIMIT, peer, requests - 1) && r.value == Gathered(peer, grant, requests)
    ensures r == Err(TooManyPages) <==> Endless(PAGE_LIMIT, peer, grant)
  {
    r, requests := Fetch(PAGE_LIMIT, peer, grant);
  }
}
