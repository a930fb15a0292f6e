/** The UTF-8 encoding that `str.encode("utf-8")` applies to a function's source
    text before it is hashed, together with a strict decoder that is its left
    inverse. The decoder exists to prove that the encoding is injective: two
    different source texts never reach the digest as the same bytes. */
module Utf8 {
  import opened Wrappers

  type Byte = b: int | 0 <= b < 256

  /** A continuation byte, 10xxxxxx. */
  predicate IsContinuation(b: Byte) {
    0x80 <= b < 0xC0
  }

  /** The length of the sequence that a lead byte announces; 0 for a byte that
      cannot start a sequence. */
  function Width(lead: Byte): (w: nat)
    ensures w <= 4
  {
    if lead < 0x80 then 1
    else if 0xC0 <= lead < 0xE0 then 2
    else if 0xE0 <= lead < 0xF0 then 3
    else if 0xF0 <= lead < 0xF8 then 4
    else 0
  }

  /** The bytes of one character (one Unicode scalar value). */
  function EncodeChar(c: char): (r: seq<Byte>)
    ensures 1 <= |r| <= 4
    ensures Width(r[0]) == |r|
    ensures forall i | 1 <= i < |r| :: IsContinuation(r[i])
  {
    var n := c as int;
    if n < 0x80 then [n]
    else if n < 0x800 then [0xC0 + n / 64, 0x80 + n % 64]
    else if n < 0x10000 then [0xE0 + n / 4096, 0x80 + (n / 64) % 64, 0x80 + n % 64]
    else [0xF0 + n / 262144, 0x80 + (n / 4096) % 64, 0x80 + (n / 64) % 64, 0x80 + n % 64]
  }

  /** `s.encode("utf-8")`: the characters' encodings, in order. */
  function Encode(s: string): (r: seq<Byte>)
    ensures |s| <= |r| <= 4 * |s|
    ensures |r| == 0 <==> |s| == 0
  {
    if s == [] then [] else EncodeChar(s[0]) + Encode(s[1..])
  }

  /** Decodes exactly one well-formed sequence, rejecting overlong forms,
      surrogates and code points above U+10FFFF. */
  function DecodeChar(bs: seq<Byte>): (r: Option<char>)
    requires 1 <= |bs| <= 4 && Width(bs[0]) == |bs|
  {
    if |bs| == 1 then
      Some(bs[0] as char)
    else if exists i | 1 <= i < |bs| :: !IsContinuation(bs[i]) then
      None
    else if |bs| == 2 then
      var n := (bs[0] as int - 0xC0) * 64 + (bs[1] as int - 0x80);
      if 0x80 <= n then Some(n as char) else None
    else if |bs| == 3 then
      var n := (bs[0] as int - 0xE0) * 4096 + (bs[1] as int - 0x80) * 64 + (bs[2] as int - 0x80);
      if 0x800 <= n < 0xD800 || 0xE000 <= n then Some(n as char) else None
    else
      var n := (bs[0] as int - 0xF0) * 262144 + (bs[1] as int - 0x80) * 4096 + (bs[2] as int - 0x80) * 64 + (bs[3] as int - 0x80);
      if 0x10000 <= n < 0x110000 then Some(n as char) else None
  }

  /** Strict UTF-8 decoding; None on any malformed input. */
  function Decode(bs: seq<Byte>): (r: Option<string>)
    decreases |bs|
  {
    if bs == [] then Some([])
    else
      var w := Width(bs[0]);
      if w == 0 || |bs| < w then None
      else match DecodeChar(bs[..w])
        case None => None
        case Some(c) =>
          match Decode(bs[w..])
          case None => None
          case Some(rest) => Some([c] + rest)
  }

  lemma {:induction false} DecodeCharEncodeChar(c: char)
    ensures DecodeChar(EncodeChar(c)) == Some(c)
  {
    var n := c as int;
    var bs := EncodeChar(c);
    if n < 0x80 {
    } else if n < 0x800 {
      assert (bs[0] as int - 0xC0) * 64 + (bs[1] as int - 0x80) == n;
    } else if n < 0x10000 {
      assert (n / 64) / 64 == n / 4096;
      assert (bs[0] as int - 0xE0) * 4096 + (bs[1] as int - 0x80) * 64 + (bs[2] as int - 0x80) == n;
    } else {
      assert (n / 64) / 64 == n / 4096;
      assert (n / 4096) / 64 == n / 262144;
      assert (bs[0] as int - 0xF0) * 262144 + (bs[1] as int - 0x80) * 4096 + (bs[2] as int - 0x80) * 64 + (bs[3] as int - 0x80) == n;
    }
  }

  /** Decoding undoes encoding. */
  lemma {:induction false} DecodeEncode(s: string)
    ensures Decode(Encode(s)) == Some(s)
  {
    if s != [] {
      var head := EncodeChar(s[0]);
      var bs := Encode(s);
      assert bs == head + Encode(s[1..]);
      assert bs[..|head|] == head;
      assert bs[|head|..] == Encode(s[1..]);
      DecodeCharEncodeChar(s[0]);
      DecodeEncode(s[1..]);
      assert [s[0]] + s[1..] == s;
    }
  }

  /** Distinct texts have distinct encodings. */
  lemma EncodeInjective(s: string, t: string)
    ensures Encode(s) == Encode(t) ==> s == t
  {
    DecodeEncode(s);
    DecodeEncode(t);
  }
}
