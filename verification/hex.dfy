/**
 * Lowercase hexadecimal rendering of bytes (Go's hex.EncodeToString) and a
 * reference decoder that inverts it.
 */
module Hex {
  import opened Results

  newtype byte = x: int | 0 <= x < 256

  const HexDigits: string := "0123456789abcdef"

  predicate IsLowerHex(c: char) {
    '0' <= c <= '9' || 'a' <= c <= 'f'
  }

  function NibbleChar(n: int): (c: char)
    requires 0 <= n < 16
    ensures IsLowerHex(c)
    ensures NibbleValue(c) == n
  {
    HexDigits[n]
  }

  function NibbleValue(c: char): (n: int)
    requires IsLowerHex(c)
    ensures 0 <= n < 16
  {
    if '0' <= c <= '9' then c as int - '0' as int else c as int - 'a' as int + 10
  }

  /** Two lowercase hex characters per byte, high nibble first. */
  function HexEncode(bs: seq<byte>): (s: string)
    ensures |s| == 2 * |bs|
    ensures forall i :: 0 <= i < |s| ==> IsLowerHex(s[i])
  {
    if |bs| == 0 then ""
    else [NibbleChar(bs[0] as int / 16), NibbleChar(bs[0] as int % 16)] + HexEncode(bs[1..])
  }

  /** Reference inverse of HexEncode: reads an even-length lowercase hex string back to bytes. */
  function HexDecode(s: string): (r: Option<seq<byte>>)
    ensures r.Some? ==> 2 * |r.value| == |s|
    decreases |s|
  {
    if |s| == 0 then Some([])
    else if |s| == 1 || !IsLowerHex(s[0]) || !IsLowerHex(s[1]) then None
    else
      match HexDecode(s[2..])
      case None => None
      case Some(rest) => Some([(NibbleValue(s[0]) * 16 + NibbleValue(s[1])) as byte] + rest)
  }

  /** Decoding the rendering of any byte string gives the byte string back. */
  lemma {:induction false} HexRoundTrip(bs: seq<byte>)
    ensures HexDecode(HexEncode(bs)) == Some(bs)
  {
    if |bs| > 0 {
      var s := HexEncode(bs);
      HexRoundTrip(bs[1..]);
      assert s[2..] == HexEncode(bs[1..]);
      assert NibbleValue(s[0]) * 16 + NibbleValue(s[1]) == bs[0] as int;
      assert [bs[0]] + bs[1..] == bs;
    }
  }

  /** Distinct byte strings have distinct renderings. */
  lemma HexEncodeInjective(a: seq<byte>, b: seq<byte>)
    requires HexEncode(a) == HexEncode(b)
    ensures a == b
  {
    HexRoundTrip(a);
    HexRoundTrip(b);
  }
}
