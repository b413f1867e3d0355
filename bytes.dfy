/**
 * Byte strings.  PHP strings and Python `bytes` are sequences of octets;
 * text written in the sources is stored as its UTF-8 encoding, so the
 * byte length PHP `strlen` reports is the length of that encoding.
 */
module Bytes {
  import opened Strings

  newtype byte = x: int | 0 <= x < 256

  type Bytes = seq<byte>

  /** UTF-8 encoding of one Unicode scalar value (RFC 3629, section 3). */
  function EncodeChar(c: char): (r: Bytes)
    ensures 1 <= |r| <= 4
    ensures |r| == 1 <==> c as int < 0x80
    ensures |r| == 1 ==> r[0] as int == c as int
    ensures |r| > 1 ==> r[0] >= 0xC0
  {
    var n := c as int;
    if n < 0x80 then [n as byte]
    else if n < 0x800 then [(0xC0 + n / 64) as byte, (0x80 + n % 64) as byte]
    else if n < 0x10000 then
      [(0xE0 + n / 4096) as byte, (0x80 + (n / 64) % 64) as byte, (0x80 + n % 64) as byte]
    else
      [(0xF0 + n / 262144) as byte, (0x80 + (n / 4096) % 64) as byte,
       (0x80 + (n / 64) % 64) as byte, (0x80 + n % 64) as byte]
  }

  /** The UTF-8 encoding of a text. */
  function Utf8(s: string): (r: Bytes)
    ensures |r| >= |s|
  {
    if s == [] then [] else EncodeChar(s[0]) + Utf8(s[1..])
  }

  /** PHP `strlen` of a text literal: the number of bytes of its encoding. */
  function Strlen(s: string): nat
  {
    |Utf8(s)|
  }

  predicate IsAscii(s: string)
  {
    forall i :: 0 <= i < |s| ==> s[i] as int < 0x80
  }

  /** Encoding distributes over concatenation. */
  lemma {:induction false} Utf8Concat(a: string, b: string)
    ensures Utf8(a + b) == Utf8(a) + Utf8(b)
    decreases |a|
  {
    if a == [] {
      assert a + b == b;
    } else {
      assert (a + b)[0] == a[0];
      assert (a + b)[1..] == a[1..] + b;
      Utf8Concat(a[1..], b);
      assert Utf8(a + b) == EncodeChar(a[0]) + (Utf8(a[1..]) + Utf8(b));
    }
  }

  /** An ASCII text is encoded byte for byte. */
  lemma {:induction false} Utf8Ascii(s: string)
    requires IsAscii(s)
    ensures |Utf8(s)| == |s|
    ensures forall i :: 0 <= i < |s| ==> Utf8(s)[i] as int == s[i] as int
    decreases |s|
  {
    if s != [] {
      Utf8Ascii(s[1..]);
      forall i | 1 <= i < |s| ensures Utf8(s)[i] as int == s[i] as int {
        assert Utf8(s)[i] == Utf8(s[1..])[i - 1];
      }
    }
  }

  /** `p` occurs in `s` starting at `i`. */
  predicate BytesOccurAt(s: Bytes, p: Bytes, i: int)
  {
    0 <= i && i + |p| <= |s| && s[i..i + |p|] == p
  }

  /** PHP `strpos($s, $p) !== false` on byte strings. */
  predicate BytesContain(s: Bytes, p: Bytes)
  {
    exists i :: 0 <= i <= |s| && BytesOccurAt(s, p, i)
  }

  /** What occurs in a suffix occurs in the whole. */
  lemma BytesContainOfSuffix(s: Bytes, k: nat, p: Bytes)
    requires k <= |s| && BytesContain(s[k..], p)
    ensures BytesContain(s, p)
  {
    var i :| 0 <= i <= |s[k..]| && BytesOccurAt(s[k..], p, i);
    assert s[k + i..k + i + |p|] == s[k..][i..i + |p|];
    assert BytesOccurAt(s, p, k + i);
  }
}
