/** `str.encode('utf-8')` */
module Utf8 {

  ghost predicate IsAscii(s: string) {
    forall i :: 0 <= i < |s| ==> s[i] as int < 0x80
  }

  /**
   * The UTF-8 encoding of one Unicode scalar value: one to four bytes, the leading one
   * marking the length and each continuation byte `10xxxxxx` carrying six bits.
   */
  function EncodeChar(c: char): (bytes: seq<bv8>)
    ensures 1 <= |bytes| <= 4
    ensures |bytes| == 1 <==> c as int < 0x80
    ensures c as int < 0x80 ==> bytes[0] as int == c as int
  {
    var cp := c as int;
    if cp < 0x80 then
      [cp as bv8]
    else
      var b := cp as bv32;
      if cp < 0x800 then
        [(0xC0 | (b >> 6)) as bv8, (0x80 | (b & 0x3F)) as bv8]
      else if cp < 0x1_0000 then
        [(0xE0 | (b >> 12)) as bv8, (0x80 | ((b >> 6) & 0x3F)) as bv8, (0x80 | (b & 0x3F)) as bv8]
      else
        [(0xF0 | (b >> 18)) as bv8, (0x80 | ((b >> 12) & 0x3F)) as bv8, (0x80 | ((b >> 6) & 0x3F)) as bv8, (0x80 | (b & 0x3F)) as bv8]
  }

  /**
   * The UTF-8 encoding of a string. It takes between one and four bytes per character,
   * and an ASCII string (which every `file://` URI is, once percent-encoded) encodes to
   * its own code points, byte for byte.
   */
  function Encode(s: string): (bytes: seq<bv8>)
    ensures |s| <= |bytes| <= 4 * |s|
    ensures IsAscii(s) ==> |bytes| == |s| && forall i :: 0 <= i < |s| ==> bytes[i] as int == s[i] as int
  {
    if s == [] then [] else EncodeChar(s[0]) + Encode(s[1..])
  }

  /** Encoding distributes over concatenation: a string encodes character by character. */
  lemma {:induction false} EncodeAppend(s: string, t: string)
    ensures Encode(s + t) == Encode(s) + Encode(t)
  {
    if s == [] {
      assert s + t == t;
    } else {
      assert (s + t)[1..] == s[1..] + t;
      EncodeAppend(s[1..], t);
      calc {
        Encode(s + t);
        EncodeChar(s[0]) + Encode(s[1..] + t);
        EncodeChar(s[0]) + (Encode(s[1..]) + Encode(t));
        (EncodeChar(s[0]) + Encode(s[1..])) + Encode(t);
      }
    }
  }
}
