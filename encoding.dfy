/** Byte strings and the two textual forms the routes derive identifiers from:
    `buffer.toString('hex')` (lower-case, two digits per byte) and the RFC 4122
    version-4 UUID text that `crypto.randomUUID()` produces from 16 random bytes. */
module Encoding {
  import opened Wrappers

  newtype byte = x: int | 0 <= x < 256

  /** The lower-case hex digits `0`-`9` and `a`-`f`. */
  predicate IsHexChar(c: char) {
    '0' <= c <= '9' || 'a' <= c <= 'f'
  }

  predicate IsHex(s: string) {
    forall i :: 0 <= i < |s| ==> IsHexChar(s[i])
  }

  /** The digit for a value below 16. */
  function HexDigit(d: int): (c: char)
    requires 0 <= d < 16
    ensures IsHexChar(c)
  {
    if d < 10 then ('0' as int + d) as char else ('a' as int + d - 10) as char
  }

  function DigitValue(c: char): (r: Option<int>)
    ensures r.Some? <==> IsHexChar(c)
    ensures r.Some? ==> 0 <= r.value < 16 && HexDigit(r.value) == c
  {
    if '0' <= c <= '9' then Some(c as int - '0' as int)
    else if 'a' <= c <= 'f' then Some(c as int - 'a' as int + 10)
    else None
  }

  /** `Buffer.from(bytes).toString('hex')`. */
  function Hex(bytes: seq<byte>): (r: string)
    ensures |r| == 2 * |bytes|
    ensures IsHex(r)
  {
    if bytes == [] then ""
    else [HexDigit(bytes[0] as int / 16), HexDigit(bytes[0] as int % 16)] + Hex(bytes[1..])
  }

  /** Reads lower-case hex text back into bytes; None on odd length or a non-hex digit. */
  function Unhex(s: string): Option<seq<byte>>
    decreases |s|
  {
    if s == [] then Some([])
    else if |s| == 1 || DigitValue(s[0]).None? || DigitValue(s[1]).None? then None
    else
      var rest := Unhex(s[2..]);
      if rest.None? then None
      else Some([ByteOf(DigitValue(s[0]).value, DigitValue(s[1]).value)] + rest.value)
  }

  function ByteOf(hi: int, lo: int): byte
    requires 0 <= hi < 16 && 0 <= lo < 16
  {
    (hi * 16 + lo) as byte
  }

  lemma DigitOfHexDigit(d: int)
    requires 0 <= d < 16
    ensures DigitValue(HexDigit(d)) == Some(d)
  {
  }

  /** Reading two hex digits and then the rest. */
  lemma UnhexCons(hi: int, lo: int, t: string)
    requires 0 <= hi < 16 && 0 <= lo < 16
    ensures Unhex([HexDigit(hi), HexDigit(lo)] + t)
            == if Unhex(t).Some? then Some([ByteOf(hi, lo)] + Unhex(t).value) else None
  {
    var h := [HexDigit(hi), HexDigit(lo)] + t;
    DigitOfHexDigit(hi);
    DigitOfHexDigit(lo);
    assert h[0] == HexDigit(hi) && h[1] == HexDigit(lo);
    assert h[2..] == t;
  }

  /** Hex text determines the bytes it was made from, so two identifiers drawn from
      different random bytes are different strings. */
  lemma {:induction false} UnhexHex(bytes: seq<byte>)
    ensures Unhex(Hex(bytes)) == Some(bytes)
  {
    if bytes != [] {
      var b := bytes[0] as int;
      var hi, lo := b / 16, b % 16;
      assert Hex(bytes) == [HexDigit(hi), HexDigit(lo)] + Hex(bytes[1..]);
      UnhexHex(bytes[1..]);
      UnhexCons(hi, lo, Hex(bytes[1..]));
      assert ByteOf(hi, lo) == bytes[0];
      assert [bytes[0]] + bytes[1..] == bytes;
    }
  }

  lemma HexInjective(a: seq<byte>, b: seq<byte>)
    requires Hex(a) == Hex(b)
    ensures a == b
  {
    UnhexHex(a);
    UnhexHex(b);
  }

  /** `crypto.randomUUID()`: the 16 random bytes with the version nibble set to 4 and
      the variant bits to 10, written 8-4-4-4-12. */
  function Uuid(b: seq<byte>): (r: string)
    requires |b| == 16
    ensures |r| == 36
    ensures r[8] == '-' && r[13] == '-' && r[18] == '-' && r[23] == '-'
    ensures r[14] == '4' && r[19] in "89ab"
    ensures forall i :: 0 <= i < 36 && i != 8 && i != 13 && i != 18 && i != 23 ==> IsHexChar(r[i])
  {
    var version := (b[6] as int % 16 + 0x40) as byte;
    var variant := (b[8] as int % 64 + 0x80) as byte;
    var s1, s2, s3, s4, s5 := Hex(b[..4]), Hex(b[4..6]), Hex([version, b[7]]), Hex([variant, b[9]]), Hex(b[10..]);
    assert s3[0] == '4' by { assert version as int / 16 == 4; }
    assert s4[0] in "89ab" by { assert 8 <= variant as int / 16 <= 11; }
    // Built from the right, one piece at a time, so that each step only has to
    // relate the positions of one piece to those of the next.
    var t4 := "-" + s5;
    assert t4[0] == '-' && forall i :: 1 <= i < 13 ==> IsHexChar(t4[i]);
    var t3 := s4 + t4;
    assert t3[0] in "89ab" && t3[4] == '-' && forall i :: 0 <= i < 17 && i != 4 ==> IsHexChar(t3[i]);
    var u3 := "-" + t3;
    assert u3[1] in "89ab" && u3[0] == '-' && u3[5] == '-'
      && forall i :: 0 <= i < 18 && i != 0 && i != 5 ==> IsHexChar(u3[i]);
    var t2 := s3 + u3;
    assert t2[0] == '4' && t2[5] in "89ab" && t2[4] == '-' && t2[9] == '-'
      && forall i :: 0 <= i < 22 && i != 4 && i != 9 ==> IsHexChar(t2[i]);
    var u2 := "-" + t2;
    assert u2[1] == '4' && u2[6] in "89ab" && u2[0] == '-' && u2[5] == '-' && u2[10] == '-'
      && forall i :: 0 <= i < 23 && i != 0 && i != 5 && i != 10 ==> IsHexChar(u2[i]);
    var t1 := s2 + u2;
    assert t1[5] == '4' && t1[10] in "89ab" && t1[4] == '-' && t1[9] == '-' && t1[14] == '-'
      && forall i :: 0 <= i < 27 && i != 4 && i != 9 && i != 14 ==> IsHexChar(t1[i]);
    var u1 := "-" + t1;
    assert u1[6] == '4' && u1[11] in "89ab" && u1[0] == '-' && u1[5] == '-' && u1[10] == '-' && u1[15] == '-'
      && forall i :: 0 <= i < 28 && i != 0 && i != 5 && i != 10 && i != 15 ==> IsHexChar(u1[i]);
    var r := s1 + u1;
    assert forall i :: 8 <= i < 36 ==> r[i] == u1[i - 8];
    r
  }
}
