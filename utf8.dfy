/**
 * The UTF-8 encoding of RFC 3629, which `String.getBytes(Charset.forName("UTF-8"))`
 * produces for a request body given as text, and a decoder that undoes it.
 */
module Utf8 {
  import opened Wrappers
  import opened Volley

  /** The bytes of one Unicode scalar value: one to four, by the ranges of section 3 of RFC 3629. */
  function EncodeScalar(c: char): (bs: Bytes)
    ensures 1 <= |bs| <= 4
  {
    var n := c as int;
    if n < 0x80 then [n as byte]
    else if n < 0x800 then [(0xC0 + n / 64) as byte, (0x80 + n % 64) as byte]
    else if n < 0x1_0000 then
      [(0xE0 + n / 4096) as byte, (0x80 + (n / 64) % 64) as byte, (0x80 + n % 64) as byte]
    else
      [(0xF0 + n / 262144) as byte, (0x80 + (n / 4096) % 64) as byte,
       (0x80 + (n / 64) % 64) as byte, (0x80 + n % 64) as byte]
  }

  /** The UTF-8 encoding of a whole string: the encodings of its characters, in order. */
  function Encode(s: string): (bs: Bytes)
    ensures |s| <= |bs| <= 4 * |s|
  {
    if s == [] then [] else EncodeScalar(s[0]) + Encode(s[1..])
  }

  /** How many bytes the sequence that starts with `lead` has; 0 if `lead` cannot start one. */
  function SequenceLength(lead: byte): nat {
    if lead < 0x80 then 1
    else if 0xC0 <= lead < 0xE0 then 2
    else if 0xE0 <= lead < 0xF0 then 3
    else if 0xF0 <= lead < 0xF8 then 4
    else 0
  }

  predicate IsContinuation(b: byte) {
    0x80 <= b < 0xC0
  }

  /**
   * The scalar value one complete sequence stands for, or None when the sequence is
   * malformed: a bad continuation byte, an over-long form, a surrogate or a value past U+10FFFF.
   */
  function DecodeScalar(bs: Bytes): Option<char>
    requires 1 <= |bs| <= 4 && SequenceLength(bs[0]) == |bs|
  {
    if exists i :: 1 <= i < |bs| && !IsContinuation(bs[i]) then None
    else
      var n :=
        if |bs| == 1 then bs[0] as int
        else if |bs| == 2 then (bs[0] as int - 0xC0) * 64 + (bs[1] as int - 0x80)
        else if |bs| == 3 then
          (bs[0] as int - 0xE0) * 4096 + (bs[1] as int - 0x80) * 64 + (bs[2] as int - 0x80)
        else
          (bs[0] as int - 0xF0) * 262144 + (bs[1] as int - 0x80) * 4096
          + (bs[2] as int - 0x80) * 64 + (bs[3] as int - 0x80);
      var least := if |bs| == 1 then 0 else if |bs| == 2 then 0x80 else if |bs| == 3 then 0x800 else 0x1_0000;
      if n < least || (0xD800 <= n < 0xE000) || n >= 0x11_0000 then None
      else Some(n as char)
  }

  /** Decodes a byte sequence made of complete, well-formed UTF-8 sequences. */
  function Decode(bs: Bytes): Option<string>
    decreases |bs|
  {
    if bs == [] then Some([])
    else
      var len := SequenceLength(bs[0]);
      if len == 0 || |bs| < len then None
      else
        match DecodeScalar(bs[..len])
        case None => None
        case Some(c) =>
          match Decode(bs[len..])
          case None => None
          case Some(rest) => Some([c] + rest)
  }

  lemma TwoByteForm(n: int)
    requires 0x80 <= n < 0x800
    ensures 0xC0 <= 0xC0 + n / 64 < 0xE0 && 0 <= n % 64 < 64
    ensures (n / 64) * 64 + n % 64 == n
  {
  }

  lemma ThreeByteForm(n: int)
    requires 0x800 <= n < 0x1_0000
    ensures 0xE0 <= 0xE0 + n / 4096 < 0xF0 && 0 <= (n / 64) % 64 < 64 && 0 <= n % 64 < 64
    ensures (n / 4096) * 4096 + ((n / 64) % 64) * 64 + n % 64 == n
  {
    var q := n / 64;
    assert n == q * 64 + n % 64;
    assert q == (q / 64) * 64 + q % 64;
    assert q / 64 == n / 4096;
  }

  lemma FourByteForm(n: int)
    requires 0x1_0000 <= n < 0x11_0000
    ensures 0xF0 <= 0xF0 + n / 262144 < 0xF8
    ensures 0 <= (n / 4096) % 64 < 64 && 0 <= (n / 64) % 64 < 64 && 0 <= n % 64 < 64
    ensures (n / 262144) * 262144 + ((n / 4096) % 64) * 4096 + ((n / 64) % 64) * 64 + n % 64 == n
  {
    var q := n / 64;
    var q2 := q / 64;
    assert n == q * 64 + n % 64;
    assert q == q2 * 64 + q % 64;
    assert q2 == (q2 / 64) * 64 + q2 % 64;
    assert q2 == n / 4096;
    assert q2 / 64 == n / 262144;
  }

  /** Every character's encoding starts with a lead byte that announces its length, and decodes back to it. */
  lemma DecodeEncodeScalar(c: char)
    ensures SequenceLength(EncodeScalar(c)[0]) == |EncodeScalar(c)|
    ensures DecodeScalar(EncodeScalar(c)) == Some(c)
  {
    var n := c as int;
    var bs := EncodeScalar(c);
    if n < 0x80 {
    } else if n < 0x800 {
      TwoByteForm(n);
    } else if n < 0x1_0000 {
      ThreeByteForm(n);
    } else {
      FourByteForm(n);
    }
    assert forall i :: 1 <= i < |bs| ==> IsContinuation(bs[i]);
  }

  /** Decoding the UTF-8 encoding of a string gives the string back (RFC 3629 round trip). */
  lemma {:induction false} DecodeEncode(s: string)
    ensures Decode(Encode(s)) == Some(s)
  {
    if s != [] {
      var head, tail := EncodeScalar(s[0]), Encode(s[1..]);
      var bs := head + tail;
      DecodeEncodeScalar(s[0]);
      assert bs[0] == head[0];
      assert bs[..|head|] == head;
      assert bs[|head|..] == tail;
      DecodeEncode(s[1..]);
      assert [s[0]] + s[1..] == s;
    }
  }

  /** Two different strings never share an encoding, so a stored body determines its text. */
  lemma EncodeInjective(s: string, t: string)
    requires Encode(s) == Encode(t)
    ensures s == t
  {
    DecodeEncode(s);
    DecodeEncode(t);
  }
}
