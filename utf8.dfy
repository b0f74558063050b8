/**
  The UTF-8 encoding that `String.data(using: .utf8)` performs (RFC 3629), over
  Dafny's `char`, which is a Unicode scalar value. The request body of the
  diagnosis service is built from such encodings; `Decode` is an independent
  decoder used to show that the encoding loses nothing.
*/
module Utf8 {
  import opened Wrappers

  type Byte = x: int | 0 <= x < 256
  type Bytes = seq<Byte>

  /** The bytes of one scalar value: one to four bytes, lead byte first. */
  function EncodeScalar(c: char): (r: Bytes)
    ensures 1 <= |r| <= 4
    ensures |r| == SequenceLength(r[0])
    ensures forall i :: 1 <= i < |r| ==> IsContinuation(r[i])
    ensures |r| == 1 <==> c as int < 0x80
    ensures |r| == 1 ==> r[0] == c as int
  {
    var v := c as int;
    if v < 0x80 then
      [v]
    else if v < 0x800 then
      [0xC0 + v / 0x40, 0x80 + v % 0x40]
    else if v < 0x10000 then
      [0xE0 + v / 0x1000, 0x80 + (v / 0x40) % 0x40, 0x80 + v % 0x40]
    else
      [0xF0 + v / 0x40000, 0x80 + (v / 0x1000) % 0x40, 0x80 + (v / 0x40) % 0x40, 0x80 + v % 0x40]
  }

  predicate IsContinuation(b: Byte) {
    0x80 <= b < 0xC0
  }

  /** How many bytes a sequence starting with lead byte `b` has (0: not a lead byte). */
  function SequenceLength(b: Byte): nat {
    if b < 0x80 then 1
    else if b < 0xC0 then 0
    else if b < 0xE0 then 2
    else if b < 0xF0 then 3
    else if b < 0xF8 then 4
    else 0
  }

  /** The encoding of a whole string: the scalar encodings, in order, one
      to four bytes per scalar value. */
  function Encode(s: string): (r: Bytes)
    ensures |s| <= |r| <= 4 * |s|
  {
    // The same sequence as `ScalarEncodings(s)`, written out so that the
    // verifier does not unfold `Concat` over literal strings.
    var parts := seq(|s|, i requires 0 <= i < |s| => EncodeScalar(s[i]));
    ConcatLength(parts);
    Concat(parts)
  }

  function ScalarEncodings(s: string): seq<Bytes> {
    seq(|s|, i requires 0 <= i < |s| => EncodeScalar(s[i]))
  }

  function Concat(parts: seq<Bytes>): Bytes {
    if parts == [] then [] else parts[0] + Concat(parts[1..])
  }

  /** Parts of one to four bytes each concatenate to one to four bytes per part. */
  lemma {:induction false} ConcatLength(parts: seq<Bytes>)
    requires forall i :: 0 <= i < |parts| ==> 1 <= |parts[i]| <= 4
    ensures |parts| <= |Concat(parts)| <= 4 * |parts|
  {
    if parts != [] {
      ConcatLength(parts[1..]);
    }
  }

  lemma {:induction false} ConcatAppend(p: seq<Bytes>, q: seq<Bytes>)
    ensures Concat(p + q) == Concat(p) + Concat(q)
  {
    if p == [] {
      assert p + q == q;
    } else {
      assert (p + q)[0] == p[0];
      assert (p + q)[1..] == p[1..] + q;
      ConcatAppend(p[1..], q);
    }
  }

  /** The encoding of a non-empty string starts with that of its first character. */
  lemma EncodeCons(s: string)
    requires s != []
    ensures Encode(s) == EncodeScalar(s[0]) + Encode(s[1..])
  {
    assert Encode(s) == Concat(ScalarEncodings(s));
    assert ScalarEncodings(s)[1..] == ScalarEncodings(s[1..]);
  }

  /** Encoding distributes over concatenation, so a line built by string
      interpolation encodes to the concatenation of its pieces. */
  lemma EncodeAppend(a: string, b: string)
    ensures Encode(a + b) == Encode(a) + Encode(b)
  {
    assert Encode(a + b) == Concat(ScalarEncodings(a + b));
    assert ScalarEncodings(a + b) == ScalarEncodings(a) + ScalarEncodings(b);
    ConcatAppend(ScalarEncodings(a), ScalarEncodings(b));
  }

  predicate IsAscii(s: string) {
    forall i :: 0 <= i < |s| ==> s[i] as int < 0x80
  }

  /** An ASCII string encodes to its own character codes, one byte each. */
  lemma {:induction false} EncodeAscii(s: string)
    requires IsAscii(s)
    ensures |Encode(s)| == |s|
    ensures forall i :: 0 <= i < |s| ==> Encode(s)[i] == s[i] as int
  {
    if s != [] {
      EncodeCons(s);
      assert IsAscii(s[1..]) by {
        forall i | 0 <= i < |s[1..]| ensures s[1..][i] as int < 0x80 {
          assert s[1..][i] == s[i + 1];
        }
      }
      EncodeAscii(s[1..]);
    }
  }

  /** The six payload bits of a continuation byte. */
  function Low6(b: Byte): int {
    b as int - 0x80
  }

  /** The value that the lead byte and continuation bytes of `bs` carry. */
  function ScalarValue(bs: Bytes): int
    requires 1 <= |bs| <= 4
  {
    if |bs| == 1 then bs[0]
    else if |bs| == 2 then (bs[0] as int - 0xC0) * 0x40 + Low6(bs[1])
    else if |bs| == 3 then (bs[0] as int - 0xE0) * 0x1000 + Low6(bs[1]) * 0x40 + Low6(bs[2])
    else (bs[0] as int - 0xF0) * 0x40000 + Low6(bs[1]) * 0x1000 + Low6(bs[2]) * 0x40 + Low6(bs[3])
  }

  /** The smallest value a sequence of `n` bytes may carry (no overlong forms). */
  function LeastValue(n: nat): int {
    if n <= 1 then 0 else if n == 2 then 0x80 else if n == 3 then 0x800 else 0x10000
  }

  /** The scalar value that a well-formed, non-overlong sequence of
      `SequenceLength(bs[0])` bytes stands for. */
  function DecodeScalar(bs: Bytes): Option<char> {
    if |bs| == 0 || |bs| != SequenceLength(bs[0]) then None
    else if !(forall i :: 1 <= i < |bs| ==> IsContinuation(bs[i])) then None
    else
      var v := ScalarValue(bs);
      if v < LeastValue(|bs|) || (0xD800 <= v < 0xE000) || 0x110000 <= v then None
      else Some(v as char)
  }

  /** Decodes a whole byte sequence, failing on any ill-formed sequence. */
  function Decode(bs: Bytes): Option<string>
    decreases |bs|
  {
    if bs == [] then Some([])
    else
      var n := SequenceLength(bs[0]);
      if n == 0 || |bs| < n then None
      else match DecodeScalar(bs[..n])
        case None => None
        case Some(c) =>
          match Decode(bs[n..])
          case None => None
          case Some(rest) => Some([c] + rest)
  }

  lemma ScalarValueOfEncoding(c: char)
    ensures ScalarValue(EncodeScalar(c)) == c as int
  {
    var v := c as int;
    var r := EncodeScalar(c);
    if v < 0x80 {
    } else if v < 0x800 {
      assert v == (v / 0x40) * 0x40 + v % 0x40;
    } else if v < 0x10000 {
      var q := v / 0x40;
      assert v == q * 0x40 + v % 0x40;
      assert q == (q / 0x40) * 0x40 + q % 0x40;
      assert q / 0x40 == v / 0x1000;
    } else {
      var q := v / 0x40;
      var q2 := q / 0x40;
      assert v == q * 0x40 + v % 0x40;
      assert q == q2 * 0x40 + q % 0x40;
      assert q2 == (q2 / 0x40) * 0x40 + q2 % 0x40;
      assert q2 == v / 0x1000;
      assert q2 / 0x40 == v / 0x40000;
    }
  }

  lemma DecodeEncodeScalar(c: char)
    ensures DecodeScalar(EncodeScalar(c)) == Some(c)
  {
    ScalarValueOfEncoding(c);
  }

  /** Decoding undoes encoding, for every string. */
  lemma {:induction false} DecodeEncode(s: string)
    ensures Decode(Encode(s)) == Some(s)
  {
    if s != [] {
      var head := EncodeScalar(s[0]);
      var bs := Encode(s);
      EncodeCons(s);
      assert bs[0] == head[0];
      assert bs[..|head|] == head;
      assert bs[|head|..] == Encode(s[1..]);
      DecodeEncodeScalar(s[0]);
      DecodeEncode(s[1..]);
      assert [s[0]] + s[1..] == s;
    }
  }
}
