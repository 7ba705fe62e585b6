/**
 Bounded UTF-8 text on both sides of the worker pipe: the worker's byte-budget
 prefix and capture (`src/repl_mcp/native_worker.py`) and the supervisor's
 character-boundary cut (`native/src/supervisor.rs`). Encodings follow section 3
 of RFC 3629.
 */
module Text {
  import opened Bytes

  /** A Python string element: any code point, lone surrogates included. */
  type Point = p: int | 0 <= p <= 0x10FFFF

  type Text = seq<Point>

  const QUESTION: Point := 63

  predicate Surrogate(p: Point) {
    0xD800 <= p <= 0xDFFF
  }

  /** Text that has an encoding. */
  predicate Encodable(t: Text) {
    forall i :: 0 <= i < |t| ==> !Surrogate(t[i])
  }

  /** clean_text and the "replace" error mode: a lone surrogate becomes a question mark. */
  function Clean(t: Text): (r: Text)
    ensures |r| == |t| && Encodable(r)
    ensures forall i :: 0 <= i < |t| ==> r[i] == if Surrogate(t[i]) then QUESTION else t[i]
  {
    seq(|t|, i requires 0 <= i < |t| => if Surrogate(t[i]) then QUESTION else t[i])
  }

  function Octets(p: Point): seq<Byte> {
    if p < 0x80 then [p]
    else if p < 0x800 then [0xC0 + p / 64, 0x80 + p % 64]
    else if p < 0x10000 then [0xE0 + p / 4096, 0x80 + p / 64 % 64, 0x80 + p % 64]
    else [0xF0 + p / 262144, 0x80 + p / 4096 % 64, 0x80 + p / 64 % 64, 0x80 + p % 64]
  }

  function Encode(t: Text): seq<Byte> {
    if t == [] then [] else Octets(t[0]) + Encode(t[1..])
  }

  predicate Continuation(b: Byte) {
    0x80 <= b < 0xC0
  }

  /** Length of the well-formed character at the front of `b`, or zero. */
  function Front(b: seq<Byte>): nat {
    if |b| >= 1 && b[0] < 0x80 then 1
    else if |b| >= 2 && 0xC2 <= b[0] < 0xE0 && Continuation(b[1]) then 2
    else if |b| >= 3 && 0xE0 <= b[0] < 0xF0 && Continuation(b[1]) && Continuation(b[2])
            && (b[0] == 0xE0 ==> b[1] >= 0xA0) && (b[0] == 0xED ==> b[1] < 0xA0) then 3
    else if |b| >= 4 && 0xF0 <= b[0] < 0xF5 && Continuation(b[1]) && Continuation(b[2]) && Continuation(b[3])
            && (b[0] == 0xF0 ==> b[1] >= 0x90) && (b[0] == 0xF4 ==> b[1] < 0x90) then 4
    else 0
  }

  function Assemble(b: seq<Byte>): Point
    requires Front(b) > 0
  {
    if Front(b) == 1 then b[0]
    else if Front(b) == 2 then Sum2(b[0], b[1])
    else if Front(b) == 3 then Sum3(b[0], b[1], b[2])
    else Sum4(b[0], b[1], b[2], b[3])
  }

  function Sum2(x: int, y: int): int {
    (x - 0xC0) * 64 + (y - 0x80)
  }

  function Sum3(x: int, y: int, z: int): int {
    (x - 0xE0) * 4096 + (y - 0x80) * 64 + (z - 0x80)
  }

  function Sum4(x: int, y: int, z: int, w: int): int {
    (x - 0xF0) * 262144 + (y - 0x80) * 4096 + (z - 0x80) * 64 + (w - 0x80)
  }

  /** Decoding in "ignore" mode: whatever begins no well-formed character is skipped. */
  function DecodeIgnoring(b: seq<Byte>): Text
    decreases |b|
  {
    if b == [] then []
    else if Front(b) == 0 then DecodeIgnoring(b[1..])
    else [Assemble(b)] + DecodeIgnoring(b[Front(b)..])
  }

  function Take<T>(s: seq<T>, n: nat): (r: seq<T>)
    ensures |r| == (if n < |s| then n else |s|) && r == s[..|r|]
  {
    if n < |s| then s[..n] else s
  }

  /** The worker's prefix: cut characters, encode, cut bytes, decode. */
  function Prefix(text: Text, budget: nat): Text {
    DecodeIgnoring(Take(Encode(Clean(Take(text, budget))), budget))
  }

  /** How many characters from the front of `t` fit in `budget` bytes. */
  function Fit(t: Text, budget: nat): (k: nat)
    ensures k <= |t|
  {
    if t == [] || |Octets(t[0])| > budget then 0 else 1 + Fit(t[1..], budget - |Octets(t[0])|)
  }

  // ----- the encoding -----

  lemma {:induction false} EncodeConcat(a: Text, b: Text)
    ensures Encode(a + b) == Encode(a) + Encode(b)
  {
    if a == [] {
      assert a + b == b;
    } else {
      assert (a + b)[1..] == a[1..] + b;
      EncodeConcat(a[1..], b);
    }
  }

  lemma OctetsShape(p: Point)
    ensures !Continuation(Octets(p)[0])
    ensures forall i :: 1 <= i < |Octets(p)| ==> Continuation(Octets(p)[i])
  {}

  lemma TwoOctets(p: Point)
    requires 0x80 <= p < 0x800
    ensures var o := Octets(p); |o| == 2 && 0xC2 <= o[0] < 0xE0 && Sum2(o[0], o[1]) == p
  {}

  lemma ThreeSum(p: Point)
    requires p < 0x10000
    ensures Sum3(0xE0 + p / 4096, 0x80 + p / 64 % 64, 0x80 + p % 64) == p
  {
    var q := p / 64;
    assert q / 64 == p / 4096;
    assert p == q * 64 + p % 64 && q == q / 64 * 64 + q % 64;
  }

  /** Neither over-long nor a surrogate. */
  lemma ThreeBounds(p: Point)
    requires 0x800 <= p < 0x10000 && !Surrogate(p)
    ensures p / 4096 < 0x10
    ensures p / 4096 == 0 ==> p / 64 % 64 >= 0x20
    ensures p / 4096 == 0xD ==> p / 64 % 64 < 0x20
  {}

  lemma ThreeOctets(p: Point)
    requires 0x800 <= p < 0x10000 && !Surrogate(p)
    ensures var o := Octets(p);
            && |o| == 3 && 0xE0 <= o[0] < 0xF0 && Sum3(o[0], o[1], o[2]) == p
            && (o[0] == 0xE0 ==> o[1] >= 0xA0) && (o[0] == 0xED ==> o[1] < 0xA0)
  {
    ThreeSum(p);
    ThreeBounds(p);
  }

  lemma Sextets(p: nat)
    ensures p == p / 262144 * 262144 + p / 4096 % 64 * 4096 + p / 64 % 64 * 64 + p % 64
  {
    var q, r := p / 64, p / 4096;
    assert q / 64 == r && r / 64 == p / 262144;
    assert p == q * 64 + p % 64 && q == r * 64 + q % 64 && r == p / 262144 * 64 + r % 64;
  }

  lemma FourOctets(p: Point)
    requires 0x10000 <= p
    ensures var o := Octets(p);
            && |o| == 4 && 0xF0 <= o[0] < 0xF5 && Sum4(o[0], o[1], o[2], o[3]) == p
            && (o[0] == 0xF0 ==> o[1] >= 0x90) && (o[0] == 0xF4 ==> o[1] < 0x90)
  {
    Sextets(p);
  }

  lemma FrontOfOctets(p: Point, rest: seq<Byte>)
    requires !Surrogate(p)
    ensures Front(Octets(p) + rest) == |Octets(p)| && Assemble(Octets(p) + rest) == p
  {
    var o, b := Octets(p), Octets(p) + rest;
    OctetsShape(p);
    assert b[0] == o[0];
    if p >= 0x80 {
      assert b[1] == o[1];
      if p < 0x800 {
        TwoOctets(p);
      } else {
        assert b[2] == o[2];
        if p < 0x10000 { ThreeOctets(p); } else { FourOctets(p); assert b[3] == o[3]; }
      }
    }
  }

  lemma DecodeOctets(p: Point, rest: seq<Byte>)
    requires !Surrogate(p)
    ensures DecodeIgnoring(Octets(p) + rest) == [p] + DecodeIgnoring(rest)
  {
    FrontOfOctets(p, rest);
    assert (Octets(p) + rest)[|Octets(p)|..] == rest;
  }

  lemma TornTail(b: seq<Byte>)
    requires |b| <= 3 && forall i :: 0 <= i < |b| ==> Continuation(b[i])
    ensures DecodeIgnoring(b) == []
    decreases |b|
  {
    if b != [] {
      assert Front(b) == 0;
      TornTail(b[1..]);
    }
  }

  /** A character cut short decodes to nothing. */
  lemma TornCharacter(p: Point, n: nat)
    requires !Surrogate(p) && n < |Octets(p)|
    ensures DecodeIgnoring(Octets(p)[..n]) == []
  {
    var b := Octets(p)[..n];
    if n > 0 {
      assert Front(b) == 0;
      assert forall i :: 0 <= i < |b[1..]| ==> Continuation(b[1..][i]);
      TornTail(b[1..]);
    }
  }

  lemma {:induction false} DecodeEncode(t: Text)
    requires Encodable(t)
    ensures DecodeIgnoring(Encode(t)) == t
  {
    if t != [] {
      DecodeOctets(t[0], Encode(t[1..]));
      DecodeEncode(t[1..]);
    }
  }

  lemma {:induction false} AtLeastOneByteEach(t: Text)
    ensures |Encode(t)| >= |t|
  {
    if t != [] {
      AtLeastOneByteEach(t[1..]);
    }
  }

  /** Fit is the longest: what it keeps fits, and one more character does not. */
  lemma {:induction false} FitIsLongest(t: Text, budget: nat)
    ensures |Encode(t[..Fit(t, budget)])| <= budget
    ensures Fit(t, budget) < |t| ==> |Encode(t[..Fit(t, budget) + 1])| > budget
  {
    if t == [] || |Octets(t[0])| > budget {
      assert t[..0] == [];
      if t != [] {
        assert t[..1][0] == t[0] && t[..1][1..] == [];
      }
    } else {
      var k := Fit(t[1..], budget - |Octets(t[0])|);
      FitIsLongest(t[1..], budget - |Octets(t[0])|);
      assert t[..k + 1][1..] == t[1..][..k];
      if k + 1 < |t| { assert t[..k + 2][1..] == t[1..][..k + 1]; }
    }
  }

  lemma {:induction false} EncodeMonotone(t: Text, j: nat, k: nat)
    requires j <= k <= |t|
    ensures |Encode(t[..j])| <= |Encode(t[..k])|
  {
    assert t[..k] == t[..j] + t[j..k];
    EncodeConcat(t[..j], t[j..k]);
  }

  lemma TakePast<T>(a: seq<T>, b: seq<T>, n: nat)
    ensures |a| <= n ==> Take(a + b, n) == a + Take(b, n - |a|)
    ensures n < |a| ==> Take(a + b, n) == a[..n]
  {}

  lemma TakeEncoded(t: Text, n: nat)
    requires t != []
    ensures |Octets(t[0])| <= n ==>
              Take(Encode(t), n) == Octets(t[0]) + Take(Encode(t[1..]), n - |Octets(t[0])|)
    ensures n < |Octets(t[0])| ==> Take(Encode(t), n) == Octets(t[0])[..n]
  {
    TakePast(Octets(t[0]), Encode(t[1..]), n);
  }

  lemma FitsOneMore(t: Text, n: nat)
    requires t != [] && |Octets(t[0])| <= n
    ensures t[..Fit(t, n)] == [t[0]] + t[1..][..Fit(t[1..], n - |Octets(t[0])|)]
  {}

  lemma DecodeCut(t: Text, n: nat)
    requires Encodable(t) && t != [] && n < |Octets(t[0])|
    ensures DecodeIgnoring(Take(Encode(t), n)) == [] && Fit(t, n) == 0
  {
    TakeEncoded(t, n);
    TornCharacter(t[0], n);
  }

  lemma DecodeFirst(t: Text, n: nat)
    requires Encodable(t) && t != [] && |Octets(t[0])| <= n
    ensures DecodeIgnoring(Take(Encode(t), n))
            == [t[0]] + DecodeIgnoring(Take(Encode(t[1..]), n - |Octets(t[0])|))
  {
    TakeEncoded(t, n);
    DecodeOctets(t[0], Take(Encode(t[1..]), n - |Octets(t[0])|));
  }

  lemma DecodeOneMore(t: Text, n: nat)
    requires Encodable(t) && t != [] && |Octets(t[0])| <= n
    requires var m := n - |Octets(t[0])|;
             DecodeIgnoring(Take(Encode(t[1..]), m)) == t[1..][..Fit(t[1..], m)]
    ensures DecodeIgnoring(Take(Encode(t), n)) == t[..Fit(t, n)]
  {
    DecodeFirst(t, n);
    FitsOneMore(t, n);
  }

  /** Cutting an encoding at any byte and decoding keeps exactly the characters that fit. */
  lemma {:induction false} DecodeTruncated(t: Text, n: nat)
    requires Encodable(t)
    ensures DecodeIgnoring(Take(Encode(t), n)) == t[..Fit(t, n)]
  {
    if t != [] {
      if n < |Octets(t[0])| {
        DecodeCut(t, n);
      } else {
        DecodeTruncated(t[1..], n - |Octets(t[0])|);
        DecodeOneMore(t, n);
      }
    }
  }

  lemma {:induction false} FitOfTake(t: Text, n: nat, budget: nat)
    requires budget <= n
    ensures Fit(Take(t, n), budget) == Fit(t, budget)
  {
    if t != [] && |Octets(t[0])| <= budget {
      assert Take(t, n)[1..] == Take(t[1..], n - 1);
      FitOfTake(t[1..], n - 1, budget - |Octets(t[0])|);
    }
  }

  lemma PrefixIsFit(text: Text, budget: nat)
    ensures Prefix(text, budget) == Clean(text)[..Fit(Clean(text), budget)]
  {
    assert Clean(Take(text, budget)) == Take(Clean(text), budget);
    DecodeTruncated(Take(Clean(text), budget), budget);
    FitOfTake(Clean(text), budget, budget);
    assert Fit(Clean(text), budget) <= budget by {
      FitIsLongest(Clean(text), budget);
      AtLeastOneByteEach(Clean(text)[..Fit(Clean(text), budget)]);
    }
  }

  /**
   prefix returns the longest character prefix of the cleaned text whose
   encoding fits the budget: no longer prefix fits.
   */
  lemma PrefixIsLongest(text: Text, budget: nat)
    ensures var r := Prefix(text, budget);
            && |r| <= |text| && r == Clean(text)[..|r|]
            && |Encode(r)| <= budget
            && forall k :: |r| < k <= |text| ==> |Encode(Clean(text)[..k])| > budget
  {
    PrefixIsFit(text, budget);
    var k := Fit(Clean(text), budget);
    FitIsLongest(Clean(text), budget);
    forall j | k < j <= |text| ensures |Encode(Clean(text)[..j])| > budget {
      EncodeMonotone(Clean(text), k + 1, j);
    }
  }

  // ----- the capture of one output stream -----

  /** `truncated` once set is never cleared; `parts` are the retained writes. */
  datatype Capture = Capture(remaining: nat, parts: seq<Text>, truncated: bool)

  function Join(parts: seq<Text>): Text {
    if parts == [] then [] else parts[0] + Join(parts[1..])
  }

  lemma {:induction false} JoinAppend(parts: seq<Text>, t: Text)
    ensures Join(parts + [t]) == Join(parts) + t
  {
    if parts == [] {
      assert (parts + [t])[1..] == [];
    } else {
      assert (parts + [t])[1..] == parts[1..] + [t];
      JoinAppend(parts[1..], t);
    }
  }

  function Written(c: Capture, text: Text): Capture {
    PrefixFits(text, c.remaining);
    var kept := Prefix(text, c.remaining);
    Capture(c.remaining - |Encode(kept)|, if kept == [] then c.parts else c.parts + [kept],
            c.truncated || |kept| != |text|)
  }

  lemma PrefixFits(text: Text, budget: nat)
    ensures |Encode(Prefix(text, budget))| <= budget
  {
    PrefixIsLongest(text, budget);
  }

  function WrittenAll(c: Capture, writes: seq<Text>): Capture
    decreases |writes|
  {
    if writes == [] then c else WrittenAll(Written(c, writes[0]), writes[1..])
  }

  lemma OneWrite(c: Capture, text: Text)
    ensures var d := Written(c, text);
            && Join(d.parts) == Join(c.parts) + Prefix(text, c.remaining)
            && |Encode(Join(d.parts))| + d.remaining == |Encode(Join(c.parts))| + c.remaining
  {
    var kept := Prefix(text, c.remaining);
    PrefixFits(text, c.remaining);
    JoinAppend(c.parts, kept);
    EncodeConcat(Join(c.parts), kept);
    assert Join(c.parts) + [] == Join(c.parts);
  }

  /** Over any writes, the encoded bytes retained and the budget left add up to the limit. */
  lemma {:induction false} CaptureConserves(c: Capture, writes: seq<Text>)
    ensures var d := WrittenAll(c, writes);
            |Encode(Join(d.parts))| + d.remaining == |Encode(Join(c.parts))| + c.remaining
    decreases |writes|
  {
    if writes != [] {
      OneWrite(c, writes[0]);
      CaptureConserves(Written(c, writes[0]), writes[1..]);
    }
  }

  lemma CleanConcat(a: Text, b: Text)
    ensures Clean(a + b) == Clean(a) + Clean(b)
  {}

  /** A write is kept whole exactly when its cleaned encoding fits. */
  lemma WholeOrCut(text: Text, budget: nat)
    ensures |Prefix(text, budget)| == |text| <==> |Encode(Clean(text))| <= budget
    ensures |Prefix(text, budget)| == |text| ==> Prefix(text, budget) == Clean(text)
  {
    PrefixIsLongest(text, budget);
    assert Clean(text)[..|text|] == Clean(text);
  }

  lemma {:induction false} TruncationSticks(c: Capture, writes: seq<Text>)
    requires c.truncated
    ensures WrittenAll(c, writes).truncated
    decreases |writes|
  {
    if writes != [] { TruncationSticks(Written(c, writes[0]), writes[1..]); }
  }

  /**
   The truncated flag is exact: it stays unset if and only if the whole cleaned
   stream fits in the budget, and then the capture is that stream.
   */
  lemma {:induction false} CaptureIsWholeUnlessTruncated(c: Capture, writes: seq<Text>)
    requires !c.truncated
    ensures var d := WrittenAll(c, writes);
            && (!d.truncated <==> |Encode(Clean(Join(writes)))| <= c.remaining)
            && (!d.truncated ==> Join(d.parts) == Join(c.parts) + Clean(Join(writes)))
    decreases |writes|
  {
    if writes == [] {
      assert Clean(Join(writes)) == [];
      assert Join(c.parts) + [] == Join(c.parts);
    } else if Written(c, writes[0]).truncated {
      CutWrite(c, writes);
    } else {
      KeptWrite(c, writes[0], Written(c, writes[0]), Join(writes[1..]));
      CaptureIsWholeUnlessTruncated(Written(c, writes[0]), writes[1..]);
    }
  }

  lemma CutWrite(c: Capture, writes: seq<Text>)
    requires !c.truncated && writes != [] && Written(c, writes[0]).truncated
    ensures WrittenAll(c, writes).truncated
    ensures |Encode(Clean(Join(writes)))| > c.remaining
  {
    WholeWrite(c, writes[0]);
    TruncationSticks(Written(c, writes[0]), writes[1..]);
    StreamSplits(writes[0], Join(writes[1..]));
  }

  /** After a write kept whole, what is left of the stream meets what is left of the budget. */
  lemma KeptWrite(c: Capture, text: Text, d: Capture, rest: Text)
    requires !c.truncated && d == Written(c, text) && !d.truncated
    ensures |Encode(Clean(text + rest))| - c.remaining == |Encode(Clean(rest))| - d.remaining
    ensures Join(c.parts) + Clean(text + rest) == Join(d.parts) + Clean(rest)
  {
    WholeWrite(c, text);
    StreamSplits(text, rest);
    Associative(Join(c.parts), Clean(text), Clean(rest));
  }

  lemma Associative(a: Text, b: Text, c: Text)
    ensures a + (b + c) == a + b + c
  {}

  lemma WholeWrite(c: Capture, text: Text)
    requires !c.truncated
    ensures var d := Written(c, text);
            && (!d.truncated <==> |Encode(Clean(text))| <= c.remaining)
            && (!d.truncated ==> Join(d.parts) == Join(c.parts) + Clean(text)
                                 && d.remaining == c.remaining - |Encode(Clean(text))|)
  {
    WholeOrCut(text, c.remaining);
    JoinAppend(c.parts, Clean(text));
    assert Join(c.parts) + [] == Join(c.parts);
  }

  lemma StreamSplits(w: Text, rest: Text)
    ensures Clean(w + rest) == Clean(w) + Clean(rest)
    ensures |Encode(Clean(w + rest))| == |Encode(Clean(w))| + |Encode(Clean(rest))|
  {
    CleanConcat(w, rest);
    EncodeConcat(Clean(w), Clean(rest));
  }

  class BoundedCapture {
    var remaining: nat
    var parts: seq<Text>
    var truncated: bool

    ghost function Value(): Capture
      reads this
    {
      Capture(remaining, parts, truncated)
    }

    constructor (limit: nat)
      ensures Value() == Capture(limit, [], false)
    {
      remaining := limit;
      parts := [];
      truncated := false;
    }

    /** One write; the worker is told every character was taken. */
    method Write(text: Text) returns (count: nat)
      modifies this
      ensures Value() == Written(old(Value()), text) && count == |text|
    {
      PrefixFits(text, remaining);
      var retained := Prefix(text, remaining);
      remaining := remaining - |Encode(retained)|;
      if |retained| != |text| { truncated := true; }
      if retained != [] { parts := parts + [retained]; }
      return |text|;
    }

    method GetValue() returns (text: Text)
      ensures text == Join(parts)
    {
      text := [];
      var i := 0;
      while i < |parts|
        invariant 0 <= i <= |parts| && text == Join(parts[..i])
      {
        JoinAppend(parts[..i], parts[i]);
        assert parts[..i + 1] == parts[..i] + [parts[i]];
        text := text + parts[i];
        i := i + 1;
      }
      assert parts[..i] == parts;
    }
  }

  // ----- the supervisor's cut of an encoded string -----

  /** A byte position that splits no character. */
  predicate IsBoundary(b: seq<Byte>, i: nat)
    requires i <= |b|
  {
    i == 0 || i == |b| || !Continuation(b[i])
  }

  /** A position in an encoding is a boundary exactly when whole characters end there. */
  lemma {:induction false} BoundaryIsCharacterEnd(t: Text, m: nat)
    requires m <= |Encode(t)|
    ensures IsBoundary(Encode(t), m) <==> |Encode(t[..Fit(t, m)])| == m
  {
    if t == [] {
    } else {
      OctetsShape(t[0]);
      var w := |Octets(t[0])|;
      if m < w {
        assert t[..0] == [];
        if 0 < m { assert Encode(t)[m] == Octets(t[0])[m]; }
      } else {
        BoundaryIsCharacterEnd(t[1..], m - w);
        assert t[..Fit(t, m)][1..] == t[1..][..Fit(t[1..], m - w)];
        if m < |Encode(t)| {
          assert Encode(t)[m] == Encode(t[1..])[m - w];
          if m == w { OctetsShape(t[1]); }
        }
      }
    }
  }

  lemma {:induction false} FitMonotone(t: Text, m: nat, n: nat)
    requires m <= n
    ensures Fit(t, m) <= Fit(t, n)
  {
    if t != [] && |Octets(t[0])| <= m { FitMonotone(t[1..], m - |Octets(t[0])|, n - |Octets(t[0])|); }
  }

  lemma {:induction false} FitOfExact(t: Text, k: nat)
    requires k <= |t|
    ensures Fit(t, |Encode(t[..k])|) == k
  {
    if k > 0 {
      assert t[..k][1..] == t[1..][..k - 1];
      FitOfExact(t[1..], k - 1);
    } else if t != [] {
      assert t[..0] == [];
      OctetsShape(t[0]);
    }
  }

  /**
   The cut collect_output and bound_execution_output make: step back from the
   budget to a boundary. What is kept is the encoding of exactly the characters
   the worker's own rule keeps.
   */
  method CutAtBoundary(ghost t: Text, bytes: seq<Byte>, budget: nat) returns (kept: seq<Byte>)
    requires bytes == Encode(t)
    ensures kept == Encode(t[..Fit(t, budget)])
  {
    var boundary := if |bytes| < budget then |bytes| else budget;
    ghost var fit := Fit(t, budget);
    FitIsLongest(t, budget);
    EncodeMonotone(t, fit, |t|);
    assert t[..|t|] == t;
    FitOfExact(t, fit);
    BoundaryIsCharacterEnd(t, |Encode(t[..fit])|);
    while !IsBoundary(bytes, boundary)
      invariant |Encode(t[..fit])| <= boundary <= |bytes| && boundary <= budget
      decreases boundary
    {
      BoundaryIsCharacterEnd(t, boundary);
      boundary := boundary - 1;
    }
    BoundaryIsCharacterEnd(t, boundary);
    FitMonotone(t, boundary, budget);
    EncodeMonotone(t, Fit(t, boundary), fit);
    assert t == t[..fit] + t[fit..];
    EncodeConcat(t[..fit], t[fit..]);
    kept := bytes[..boundary];
  }

  /** On text both sides can encode, worker and supervisor truncate alike. */
  lemma SupervisorAgreesWithWorker(t: Text, budget: nat)
    requires Encodable(t)
    ensures Prefix(t, budget) == t[..Fit(t, budget)]
  {
    assert Clean(t) == t;
    PrefixIsFit(t, budget);
  }
}
