/**
 The two streaming limiters of the broker (`native/src/broker.rs`): BoundedRead
 on a peer's newline-ended frames, and the scan of a server-sent event stream.
 Both keep a counter from chunk to chunk; neither verdict depends on where the
 chunks were cut.
 */
module Streams {
  import opened Outcomes
  import opened Bytes

  const LIMIT: nat := 1024 * 1024
  const LF: Byte := 10
  const CR: Byte := 13

  // ----- a counter that some positions reset -----

  /** The counter after `marks`, or None once it has passed `max`; a mark resets it. */
  function Measure(max: nat, count: nat, marks: seq<bool>): Option<nat>
    decreases |marks|
  {
    if marks == [] then Some(count)
    else if marks[0] then Measure(max, 0, marks[1..])
    else if count + 1 > max then None
    else Measure(max, count + 1, marks[1..])
  }

  /** No mark among the `length` positions from `i`. */
  predicate Unmarked(marks: seq<bool>, i: nat, length: nat) {
    i + length <= |marks| && forall j :: i <= j < i + length ==> !marks[j]
  }

  /** max + 1 positions in a row without a mark. */
  predicate Gap(max: nat, marks: seq<bool>, i: nat) {
    Unmarked(marks, i, max + 1)
  }

  ghost predicate Overrun(max: nat, count: nat, marks: seq<bool>) {
    (count <= max && Unmarked(marks, 0, max + 1 - count)) || exists i: nat :: Gap(max, marks, i)
  }

  lemma OverrunTail(max: nat, marks: seq<bool>)
    requires marks != []
    ensures (exists i: nat :: Gap(max, marks, i)) <==>
            Gap(max, marks, 0) || exists i: nat :: Gap(max, marks[1..], i)
  {
    if i: nat :| Gap(max, marks, i) && i > 0 {
      assert Gap(max, marks[1..], i - 1);
    }
    if i: nat :| Gap(max, marks[1..], i) {
      forall j | i + 1 <= j < i + 1 + (max + 1) ensures !marks[j] { assert !marks[1..][j - 1]; }
      assert Gap(max, marks, i + 1);
    }
  }

  lemma UnmarkedTail(marks: seq<bool>, length: nat)
    requires marks != [] && !marks[0] && length > 0
    ensures Unmarked(marks, 0, length) <==> Unmarked(marks[1..], 0, length - 1)
  {
    if Unmarked(marks[1..], 0, length - 1) {
      forall j | 0 <= j < length ensures !marks[j] { if j > 0 { assert !marks[1..][j - 1]; } }
    }
  }

  /** The counter passes its limit exactly when some max + 1 positions in a row have no mark. */
  lemma {:induction false} MeasureFails(max: nat, count: nat, marks: seq<bool>)
    requires count <= max
    ensures Measure(max, count, marks).None? <==> Overrun(max, count, marks)
    decreases |marks|
  {
    if marks == [] {
    } else {
      OverrunTail(max, marks);
      if marks[0] {
        MeasureFails(max, 0, marks[1..]);
        assert Gap(max, marks[1..], 0) <==> Unmarked(marks[1..], 0, max + 1);
      } else {
        UnmarkedTail(marks, max + 1 - count);
        UnmarkedTail(marks, max + 1);
        if count + 1 <= max { MeasureFails(max, count + 1, marks[1..]); }
      }
    }
  }

  lemma FromStart(max: nat, marks: seq<bool>)
    ensures Measure(max, 0, marks).None? <==> exists i: nat :: Gap(max, marks, i)
  {
    MeasureFails(max, 0, marks);
    assert Gap(max, marks, 0) <==> Unmarked(marks, 0, max + 1);
  }

  // ----- BoundedRead -----

  function Newlines(bytes: seq<Byte>): (marks: seq<bool>)
    ensures |marks| == |bytes| && forall i :: 0 <= i < |bytes| ==> marks[i] == (bytes[i] == LF)
  {
    seq(|bytes|, i requires 0 <= i < |bytes| => bytes[i] == LF)
  }

  lemma {:induction false} MeasureConcat(max: nat, count: nat, a: seq<bool>, b: seq<bool>)
    ensures Measure(max, count, a + b) == match Measure(max, count, a)
                                          case None => None
                                          case Some(n) => Measure(max, n, b)
    decreases |a|
  {
    if a == [] {
      assert a + b == b;
    } else {
      assert (a + b)[1..] == a[1..] + b;
      MeasureConcat(max, 0, a[1..], b);
      MeasureConcat(max, count + 1, a[1..], b);
    }
  }

  class BoundedRead {
    var lineBytes: nat

    constructor ()
      ensures lineBytes == 0
    {
      lineBytes := 0;
    }

    /** One read: its bytes are counted as they come, and an over-long line is an error. */
    method PollRead(chunk: seq<Byte>) returns (ok: bool)
      modifies this
      ensures var m := Measure(LIMIT, old(lineBytes), Newlines(chunk));
              ok == m.Some? && (ok ==> lineBytes == m.value)
    {
      var i := 0;
      assert Newlines(chunk)[0..] == Newlines(chunk);
      while i < |chunk|
        invariant 0 <= i <= |chunk|
        invariant Measure(LIMIT, lineBytes, Newlines(chunk)[i..]) == Measure(LIMIT, old(lineBytes), Newlines(chunk))
      {
        assert Newlines(chunk)[i..][1..] == Newlines(chunk)[i + 1..];
        if chunk[i] == LF {
          lineBytes := 0;
        } else {
          lineBytes := lineBytes + 1;
          if lineBytes > LIMIT { return false; }
        }
        i := i + 1;
      }
      return true;
    }
  }

  /** A line of more than 1 MiB: that many bytes in a row with no newline. */
  predicate LongLineAt(bytes: seq<Byte>, i: nat) {
    i + LIMIT + 1 <= |bytes| && forall j :: i <= j <= i + LIMIT ==> bytes[j] != LF
  }

  lemma LongLines(bytes: seq<Byte>)
    ensures Measure(LIMIT, 0, Newlines(bytes)).None? <==> exists i: nat :: LongLineAt(bytes, i)
  {
    FromStart(LIMIT, Newlines(bytes));
    if i: nat :| Gap(LIMIT, Newlines(bytes), i) {
      forall j | i <= j <= i + LIMIT ensures bytes[j] != LF { assert !Newlines(bytes)[j]; }
      assert LongLineAt(bytes, i);
    }
    if i: nat :| LongLineAt(bytes, i) {
      assert Gap(LIMIT, Newlines(bytes), i);
    }
  }

  lemma CountOneMore(before: seq<Byte>, chunk: seq<Byte>, count: nat)
    requires Measure(LIMIT, 0, Newlines(before)) == Some(count)
    ensures Measure(LIMIT, 0, Newlines(before + chunk)) == Measure(LIMIT, count, Newlines(chunk))
  {
    assert Newlines(before + chunk) == Newlines(before) + Newlines(chunk);
    MeasureConcat(LIMIT, 0, Newlines(before), Newlines(chunk));
  }

  lemma FailureStays(before: seq<Byte>, rest: seq<Byte>)
    requires Measure(LIMIT, 0, Newlines(before)).None?
    ensures Measure(LIMIT, 0, Newlines(before + rest)).None?
  {
    assert Newlines(before + rest) == Newlines(before) + Newlines(rest);
    MeasureConcat(LIMIT, 0, Newlines(before), Newlines(rest));
  }

  /** However the peer's bytes were split into reads, all pass if and only if no line is over 1 MiB. */
  method ReadFrames(chunks: seq<seq<Byte>>) returns (ok: bool)
    ensures ok <==> !exists i: nat :: LongLineAt(Flatten(chunks), i)
  {
    var reader := new BoundedRead();
    LongLines(Flatten(chunks));
    var k := 0;
    while k < |chunks|
      invariant 0 <= k <= |chunks|
      invariant Measure(LIMIT, 0, Newlines(Flatten(chunks[..k]))) == Some(reader.lineBytes)
    {
      FlattenSplit(chunks, k);
      CountOneMore(Flatten(chunks[..k]), chunks[k], reader.lineBytes);
      var passed := reader.PollRead(chunks[k]);
      if !passed {
        FlattenRest(chunks, k + 1);
        FailureStays(Flatten(chunks[..k + 1]), Flatten(chunks[k + 1..]));
        return false;
      }
      k := k + 1;
    }
    assert chunks[..k] == chunks;
    return true;
  }

  // ----- the event stream -----

  /** Line ends of section 9.2.5 of the WHATWG HTML Standard: CR, LF and CRLF all become LF. */
  function Normalise(afterCr: bool, bytes: seq<Byte>): seq<Byte>
    decreases |bytes|
  {
    if bytes == [] then []
    else if afterCr && bytes[0] == LF then Normalise(false, bytes[1..])
    else [if bytes[0] == CR then LF else bytes[0]] + Normalise(bytes[0] == CR, bytes[1..])
  }

  /** A blank line, which dispatches the event of section 9.2.6, ends at position k. */
  predicate BlankAt(n: seq<Byte>, k: nat) {
    k < |n| && n[k] == LF && (k == 0 || n[k - 1] == LF)
  }

  /** The scan's counter, its two flags, and whether it has ended. */
  datatype Scan = Scan(count: nat, lineStart: bool, afterCr: bool, done: bool)

  const FRESH: Scan := Scan(0, true, false, false)

  function Marks(lineStart: bool, n: seq<Byte>): (marks: seq<bool>)
    ensures |marks| == |n|
    ensures forall k :: 0 <= k < |n| ==> marks[k] == (n[k] == LF && (if k == 0 then lineStart else n[k - 1] == LF))
  {
    seq(|n|, k requires 0 <= k < |n| => n[k] == LF && (if k == 0 then lineStart else n[k - 1] == LF))
  }

  /** One byte, exactly as the closure steps. */
  function ScanByte(s: Scan, b: Byte): Scan {
    if s.afterCr && b == LF then s.(afterCr := false)
    else if b == CR || b == LF then Scan(if s.lineStart then 0 else s.count + 1, true, b == CR, s.done)
    else Scan(s.count + 1, false, false, s.done)
  }

  /** The bytes of a chunk until one passes the limit. */
  function ScanBytes(max: nat, s: Scan, bytes: seq<Byte>): Option<Scan>
    decreases |bytes|
  {
    if bytes == [] then Some(s)
    else
      var t := ScanByte(s, bytes[0]);
      if t.count > max then None else ScanBytes(max, t, bytes[1..])
  }

  lemma {:induction false} ScanConcat(max: nat, s: Scan, a: seq<Byte>, b: seq<Byte>)
    ensures ScanBytes(max, s, a + b) == match ScanBytes(max, s, a)
                                        case None => None
                                        case Some(t) => ScanBytes(max, t, b)
    decreases |a|
  {
    if a == [] {
      assert a + b == b;
    } else {
      assert (a + b)[1..] == a[1..] + b;
      ScanConcat(max, ScanByte(s, a[0]), a[1..], b);
    }
  }

  lemma MarksHead(lineStart: bool, c: Byte, rest: seq<Byte>)
    ensures Marks(lineStart, [c] + rest) == [c == LF && lineStart] + Marks(c == LF, rest)
  {}

  /** The closure agrees with the counter run over the normalised bytes. */
  lemma {:induction false} ScanMeasures(max: nat, s: Scan, bytes: seq<Byte>)
    requires s.count <= max
    ensures ScanBytes(max, s, bytes).None? <==>
            Measure(max, s.count, Marks(s.lineStart, Normalise(s.afterCr, bytes))).None?
    decreases |bytes|
  {
    if bytes != [] {
      var b, t := bytes[0], ScanByte(s, bytes[0]);
      if t.count <= max { ScanMeasures(max, t, bytes[1..]); }
      if !(s.afterCr && b == LF) {
        var c := if b == CR then LF else b;
        var rest := Normalise(b == CR, bytes[1..]);
        MarksHead(s.lineStart, c, rest);
        MeasureHead(max, s.count, c == LF && s.lineStart, Marks(c == LF, rest));
      }
    }
  }

  lemma MeasureHead(max: nat, count: nat, mark: bool, rest: seq<bool>)
    ensures Measure(max, count, [mark] + rest) ==
            if mark then Measure(max, 0, rest) else if count + 1 > max then None else Measure(max, count + 1, rest)
  {
    assert ([mark] + rest)[1..] == rest;
  }

  /** Nothing but max + 1 normalised bytes in a row, in none of which a blank line ends. */
  predicate LongEventAt(max: nat, n: seq<Byte>, i: nat) {
    i + max + 1 <= |n| && forall k :: i <= k <= i + max ==> !BlankAt(n, k)
  }

  lemma LongEvents(max: nat, bytes: seq<Byte>)
    ensures ScanBytes(max, FRESH, bytes).None? <==> exists i: nat :: LongEventAt(max, Normalise(false, bytes), i)
  {
    var n := Normalise(false, bytes);
    ScanMeasures(max, FRESH, bytes);
    FromStart(max, Marks(true, n));
    if i: nat :| Gap(max, Marks(true, n), i) {
      forall k | i <= k <= i + max ensures !BlankAt(n, k) { assert !Marks(true, n)[k]; }
      assert LongEventAt(max, n, i);
    }
    if i: nat :| LongEventAt(max, n, i) {
      forall k | i <= k < i + (max + 1) ensures !Marks(true, n)[k] { assert !BlankAt(n, k); }
      assert Gap(max, Marks(true, n), i);
    }
  }

  datatype Item = Chunk(bytes: seq<Byte>) | Broken

  datatype Output = Passed(bytes: seq<Byte>) | TooLarge | Failed | Ended

  class SseScan {
    const max: nat
    var count: nat
    var lineStart: bool
    var afterCr: bool
    var done: bool

    ghost function Value(): Scan
      reads this
    {
      Scan(count, lineStart, afterCr, done)
    }

    /** Until the stream has ended the counter is within its limit. */
    ghost predicate Valid()
      reads this
    {
      done || count <= max
    }

    constructor (max: nat)
      ensures Valid() && Value() == FRESH && this.max == max
    {
      this.max := max;
      count, lineStart, afterCr, done := 0, true, false, false;
    }

    /** The closure's byte loop. */
    method Count(chunk: seq<Byte>) returns (tooLarge: bool)
      requires !done && count <= max
      modifies this`count, this`lineStart, this`afterCr
      ensures !tooLarge ==> count <= max
      ensures tooLarge <==> ScanBytes(max, old(Value()), chunk).None?
      ensures !tooLarge ==> ScanBytes(max, old(Value()), chunk) == Some(Value())
    {
      var i := 0;
      assert chunk[0..] == chunk;
      while i < |chunk|
        invariant 0 <= i <= |chunk| && count <= max
        invariant ScanBytes(max, Value(), chunk[i..]) == ScanBytes(max, old(Value()), chunk)
      {
        var b := chunk[i];
        assert chunk[i..][0] == b && chunk[i..][1..] == chunk[i + 1..];
        i := i + 1;
        if afterCr {
          afterCr := false;
          if b == LF { continue; }
        }
        count := count + 1;
        if b == CR || b == LF {
          if lineStart { count := 0; }
          lineStart := true;
          afterCr := b == CR;
        } else {
          lineStart := false;
        }
        if count > max { return true; }
      }
      return false;
    }

    /** One item of the response body: the stream ends at the first error of either kind. */
    method Poll(item: Item) returns (out: Output)
      requires Valid()
      modifies this
      ensures Valid()
      ensures old(done) ==> out == Ended && Value() == old(Value())
      ensures !old(done) && item.Broken? ==> out == Failed && done
      ensures !old(done) && item.Chunk? ==>
                match ScanBytes(max, old(Value()), item.bytes)
                case Some(s) => out == Passed(item.bytes) && Value() == s && !done
                case None => out == TooLarge && done
    {
      if done { return Ended; }
      match item {
        case Broken =>
          done := true;
          return Failed;
        case Chunk(bytes) =>
          ScanKeepsDone(max, Value(), bytes);
          var tooLarge := Count(bytes);
          if tooLarge {
            done := true;
            return TooLarge;
          }
          return Passed(bytes);
      }
    }
  }

  lemma {:induction false} ScanKeepsDone(max: nat, s: Scan, bytes: seq<Byte>)
    ensures ScanBytes(max, s, bytes).Some? ==> ScanBytes(max, s, bytes).value.done == s.done
    decreases |bytes|
  {
    if bytes != [] { ScanKeepsDone(max, ScanByte(s, bytes[0]), bytes[1..]); }
  }

  /** The limit the scan is made with. */
  function EventLimit(max: nat): nat {
    if max < LIMIT then max else LIMIT
  }

  /**
   However the body was split into chunks, every chunk passes if and only if, in
   the normalised stream, a blank line ends within every limit + 1 bytes.
   */
  method ScanBody(limit: nat, chunks: seq<seq<Byte>>) returns (ok: bool)
    ensures ok <==> !exists i: nat :: LongEventAt(EventLimit(limit), Normalise(false, Flatten(chunks)), i)
  {
    var scan := new SseScan(EventLimit(limit));
    ghost var whole := Flatten(chunks);
    LongEvents(scan.max, whole);
    var k := 0;
    while k < |chunks|
      invariant 0 <= k <= |chunks| && !scan.done && scan.Valid()
      invariant ScanBytes(scan.max, FRESH, Flatten(chunks[..k])) == Some(scan.Value())
    {
      FlattenSplit(chunks, k);
      ghost var before := Flatten(chunks[..k]);
      ScanConcat(scan.max, FRESH, before, chunks[k]);
      var out := scan.Poll(Chunk(chunks[k]));
      if !out.Passed? {
        FlattenRest(chunks, k + 1);
        ScanConcat(scan.max, FRESH, Flatten(chunks[..k + 1]), Flatten(chunks[k + 1..]));
        return false;
      }
      k := k + 1;
    }
    assert chunks[..k] == chunks;
    return true;
  }
}
