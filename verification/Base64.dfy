/**
 The standard padded alphabet of section 4 of RFC 4648, as both ends of an
 artifact upload use it: the worker encodes a chunk, the store decodes it and
 refuses anything but the canonical encoding.
 */
module Base64 {
  import opened Outcomes
  import opened Bytes

  type Sextet = v: int | 0 <= v < 64

  function Letter(v: Sextet): char {
    if v < 26 then 'A' + v as char
    else if v < 52 then 'a' + (v - 26) as char
    else if v < 62 then '0' + (v - 52) as char
    else if v == 62 then '+'
    else '/'
  }

  function Value(c: char): Option<Sextet> {
    if 'A' <= c <= 'Z' then Some(c as int - 'A' as int)
    else if 'a' <= c <= 'z' then Some(c as int - 'a' as int + 26)
    else if '0' <= c <= '9' then Some(c as int - '0' as int + 52)
    else if c == '+' then Some(62)
    else if c == '/' then Some(63)
    else None
  }

  /** Three bytes as four letters. */
  function Quad(x: Byte, y: Byte, z: Byte): string {
    [Letter(x / 4), Letter(x % 4 * 16 + y / 16), Letter(y % 16 * 4 + z / 64), Letter(z % 64)]
  }

  /** The padded final group of fewer than three bytes. */
  function Tail(b: seq<Byte>): string
    requires |b| < 3
  {
    if |b| == 0 then ""
    else if |b| == 1 then [Letter(b[0] / 4), Letter(b[0] % 4 * 16), '=', '=']
    else [Letter(b[0] / 4), Letter(b[0] % 4 * 16 + b[1] / 16), Letter(b[1] % 16 * 4), '=']
  }

  function Encode(b: seq<Byte>): string {
    if |b| < 3 then Tail(b) else Quad(b[0], b[1], b[2]) + Encode(b[3..])
  }

  function Unquad(p: Sextet, q: Sextet, r: Sextet, t: Sextet): seq<Byte> {
    [p * 4 + q / 16, q % 16 * 16 + r / 4, r % 4 * 64 + t]
  }

  /** One padded or unpadded final group. */
  function DecodeLast(s: string): Option<seq<Byte>>
    requires |s| == 4
  {
    var p, q, r, t := Value(s[0]), Value(s[1]), Value(s[2]), Value(s[3]);
    if p.None? || q.None? then None
    else if s[2] == '=' && s[3] == '=' then
      if q.value % 16 == 0 then Some([p.value * 4 + q.value / 16]) else None
    else if r.None? then None
    else if s[3] == '=' then
      if r.value % 4 == 0 then Some([p.value * 4 + q.value / 16, q.value % 16 * 16 + r.value / 4]) else None
    else if t.None? then None
    else Some(Unquad(p.value, q.value, r.value, t.value))
  }

  function Decode(s: string): Option<seq<Byte>> {
    if s == "" then Some([])
    else if |s| < 4 then None
    else if |s| == 4 then DecodeLast(s)
    else
      var p, q, r, t := Value(s[0]), Value(s[1]), Value(s[2]), Value(s[3]);
      if p.None? || q.None? || r.None? || t.None? then None
      else match Decode(s[4..])
        case None => None
        case Some(rest) => Some(Unquad(p.value, q.value, r.value, t.value) + rest)
  }

  lemma LetterValue(v: Sextet)
    ensures Value(Letter(v)) == Some(v) && Letter(v) != '='
  {}

  lemma ValueLetter(c: char)
    requires Value(c).Some?
    ensures Letter(Value(c).value) == c && c != '='
  {}

  lemma QuadUnquad(x: Byte, y: Byte, z: Byte)
    ensures Unquad(x / 4, x % 4 * 16 + y / 16, y % 16 * 4 + z / 64, z % 64) == [x, y, z]
  {}

  lemma UnquadQuad(p: Sextet, q: Sextet, r: Sextet, t: Sextet)
    ensures var b := Unquad(p, q, r, t);
            b[0] / 4 == p && b[0] % 4 * 16 + b[1] / 16 == q && b[1] % 16 * 4 + b[2] / 64 == r && b[2] % 64 == t
  {}

  lemma OneByte(x: Byte)
    ensures |Encode([x])| == 4 && Decode(Encode([x])) == Some([x])
  {
    LetterValue(x / 4);
    LetterValue(x % 4 * 16);
  }

  lemma PairSplit(x: Byte, y: Byte)
    ensures x / 4 * 4 + (x % 4 * 16 + y / 16) / 16 == x
    ensures (x % 4 * 16 + y / 16) % 16 * 16 + y % 16 * 4 / 4 == y
  {}

  lemma DecodePair(p: Sextet, q: Sextet, r: Sextet)
    requires r % 4 == 0
    ensures DecodeLast([Letter(p), Letter(q), Letter(r), '=']) == Some([p * 4 + q / 16, q % 16 * 16 + r / 4])
  {
    LetterValue(p);
    LetterValue(q);
    LetterValue(r);
  }

  lemma EncodePair(x: Byte, y: Byte)
    ensures Encode([x, y]) == [Letter(x / 4), Letter(x % 4 * 16 + y / 16), Letter(y % 16 * 4), '=']
  {}

  lemma TwoBytes(x: Byte, y: Byte)
    ensures |Encode([x, y])| == 4 && Decode(Encode([x, y])) == Some([x, y])
  {
    EncodePair(x, y);
    PairSplit(x, y);
    DecodePair(x / 4, x % 4 * 16 + y / 16, y % 16 * 4);
  }

  lemma ThreeBytes(x: Byte, y: Byte, z: Byte)
    ensures DecodeLast(Quad(x, y, z)) == Some([x, y, z])
    ensures forall i :: 0 <= i < 4 ==> Value(Quad(x, y, z)[i]).Some?
    ensures var q := Quad(x, y, z);
            Unquad(Value(q[0]).value, Value(q[1]).value, Value(q[2]).value, Value(q[3]).value) == [x, y, z]
  {
    LetterValue(x / 4);
    LetterValue(x % 4 * 16 + y / 16);
    LetterValue(y % 16 * 4 + z / 64);
    LetterValue(z % 64);
    QuadUnquad(x, y, z);
  }

  lemma DecodeAfterQuad(x: Byte, y: Byte, z: Byte, rest: string, b: seq<Byte>)
    requires Decode(rest) == Some(b)
    ensures Decode(Quad(x, y, z) + rest) == Some([x, y, z] + b)
  {
    ThreeBytes(x, y, z);
    var s := Quad(x, y, z) + rest;
    if rest == "" {
      assert s == Quad(x, y, z);
      assert [x, y, z] + b == [x, y, z];
    } else {
      assert s[4..] == rest && s[..4] == Quad(x, y, z);
      assert forall i :: 0 <= i < 4 ==> s[i] == Quad(x, y, z)[i];
    }
  }

  lemma DecodeShort(b: seq<Byte>)
    requires |b| < 3
    ensures Decode(Encode(b)) == Some(b)
  {
    if |b| == 1 {
      assert b == [b[0]];
      OneByte(b[0]);
    } else if |b| == 2 {
      assert b == [b[0], b[1]];
      TwoBytes(b[0], b[1]);
    }
  }

  /** Every byte string survives the trip. */
  lemma {:induction false} DecodeEncode(b: seq<Byte>)
    ensures Decode(Encode(b)) == Some(b)
  {
    if |b| < 3 {
      DecodeShort(b);
    } else {
      DecodeEncode(b[3..]);
      assert [b[0], b[1], b[2]] + b[3..] == b;
      DecodeAfterQuad(b[0], b[1], b[2], Encode(b[3..]), b[3..]);
    }
  }

  lemma GroupsOfThree(n: nat)
    requires n >= 3
    ensures (n + 2) / 3 == 1 + (n - 3 + 2) / 3
  {}

  lemma ShortLength(b: seq<Byte>)
    requires |b| < 3
    ensures |Tail(b)| == 4 * ((|b| + 2) / 3)
  {}

  /** The padded length of an encoding. */
  lemma {:induction false} EncodedLength(b: seq<Byte>)
    ensures |Encode(b)| == 4 * ((|b| + 2) / 3)
  {
    if |b| < 3 {
      ShortLength(b);
    } else {
      EncodedLength(b[3..]);
      GroupsOfThree(|b|);
    }
  }

  lemma OneByteIsCanonical(p: Sextet, q: Sextet)
    requires q % 16 == 0
    ensures Encode([p * 4 + q / 16]) == [Letter(p), Letter(q), '=', '=']
  {}

  lemma TwoBytesAreCanonical(p: Sextet, q: Sextet, r: Sextet)
    requires r % 4 == 0
    ensures Encode([p * 4 + q / 16, q % 16 * 16 + r / 4]) == [Letter(p), Letter(q), Letter(r), '=']
  {
    UnquadQuad(p, q, r, 0);
  }

  lemma ThreeBytesAreCanonical(p: Sextet, q: Sextet, r: Sextet, t: Sextet)
    ensures Encode(Unquad(p, q, r, t)) == [Letter(p), Letter(q), Letter(r), Letter(t)]
  {
    UnquadQuad(p, q, r, t);
    assert Unquad(p, q, r, t)[3..] == [];
  }

  lemma LastIsCanonical(s: string)
    requires |s| == 4 && DecodeLast(s).Some?
    ensures Encode(DecodeLast(s).value) == s
  {
    ValueLetter(s[0]);
    ValueLetter(s[1]);
    if s[2] == '=' && s[3] == '=' {
      OneByteIsCanonical(Value(s[0]).value, Value(s[1]).value);
    } else {
      ValueLetter(s[2]);
      if s[3] == '=' {
        TwoBytesAreCanonical(Value(s[0]).value, Value(s[1]).value, Value(s[2]).value);
      } else {
        ValueLetter(s[3]);
        ThreeBytesAreCanonical(Value(s[0]).value, Value(s[1]).value, Value(s[2]).value, Value(s[3]).value);
      }
    }
  }

  /** The store accepts no second spelling: what decodes is what Encode would have sent. */
  lemma {:induction false} EncodeDecode(s: string)
    requires Decode(s).Some?
    ensures Encode(Decode(s).value) == s
  {
    if s != "" && |s| == 4 {
      LastIsCanonical(s);
    } else if |s| > 4 {
      EncodeDecode(s[4..]);
      ValueLetter(s[0]);
      ValueLetter(s[1]);
      ValueLetter(s[2]);
      ValueLetter(s[3]);
      UnquadQuad(Value(s[0]).value, Value(s[1]).value, Value(s[2]).value, Value(s[3]).value);
      var b := Decode(s).value;
      assert b[3..] == Decode(s[4..]).value;
      assert s == s[..4] + s[4..];
    }
  }
}
