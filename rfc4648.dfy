/** The two encodings of RFC 4648 the credential utilities use: base 16 in
    lower case (section 8, Go's `hex.EncodeToString`) and base 32 with the
    standard alphabet and no `=` padding (section 6 with padding omitted as
    section 3.2 allows, Go's `base32.StdEncoding.WithPadding(NoPadding)`). */
module Rfc4648 {
  import opened Common

  // ---------------------------------------------------------------- base 16

  /** The lower-case hexadecimal digit for `v`. */
  function HexDigit(v: nat): (c: char)
    requires v < 16
    ensures '0' <= c <= '9' || 'a' <= c <= 'f'
  {
    if v < 10 then ('0' as int + v) as char else ('a' as int + v - 10) as char
  }

  predicate IsLowerHex(c: char) {
    '0' <= c <= '9' || 'a' <= c <= 'f'
  }

  /** The value of a hexadecimal digit of either case (Go's decoder accepts both). */
  function HexValue(c: char): (v: Option<nat>)
    ensures v.Some? ==> v.value < 16
    ensures IsLowerHex(c) ==> v.Some?
  {
    if '0' <= c <= '9' then Some(c as int - '0' as int)
    else if 'a' <= c <= 'f' then Some(c as int - 'a' as int + 10)
    else if 'A' <= c <= 'F' then Some(c as int - 'A' as int + 10)
    else None
  }

  lemma HexValueOfDigit(v: nat)
    requires v < 16
    ensures HexValue(HexDigit(v)) == Some(v)
  {
  }

  /** The value of four bits, most significant first. */
  function NibbleValue(q: seq<bool>): (v: nat)
    requires |q| == 4
    ensures v < 16
  {
    (if q[0] then 8 else 0) + (if q[1] then 4 else 0) + (if q[2] then 2 else 0) + (if q[3] then 1 else 0)
  }

  function NibbleBits(v: nat): (q: seq<bool>)
    requires v < 16
    ensures |q| == 4
  {
    [v >= 8, v % 8 >= 4, v % 4 >= 2, v % 2 == 1]
  }

  lemma NibbleRoundTrip(q: seq<bool>)
    requires |q| == 4
    ensures NibbleBits(NibbleValue(q)) == q
  {
  }

  /** The two digits of one byte: its high four bits, then its low four bits. */
  function HexPair(b: Byte): (s: string)
    ensures |s| == 2
  {
    var bits := ByteBits(b);
    [HexDigit(NibbleValue(bits[..4])), HexDigit(NibbleValue(bits[4..]))]
  }

  /** Two digits per byte, high nibble first. */
  function HexEncode(bs: seq<Byte>): (s: string)
    ensures |s| == 2 * |bs|
    ensures forall i :: 0 <= i < |s| ==> IsLowerHex(s[i])
  {
    if bs == [] then [] else HexPair(bs[0]) + HexEncode(bs[1..])
  }

  function HexDecode(s: string): (r: Option<seq<Byte>>)
    ensures r.Some? ==> 2 * |r.value| == |s|
  {
    if s == [] then Some([])
    else if |s| == 1 then None
    else
      match (HexValue(s[0]), HexValue(s[1]), HexDecode(s[2..]))
      case (Some(hi), Some(lo), Some(rest)) => Some([BitsByte(NibbleBits(hi) + NibbleBits(lo))] + rest)
      case _ => None
  }

  /** The two digits of one byte decode back to it. */
  lemma HexDecodeByte(b: Byte, rest: string)
    ensures HexDecode(HexPair(b) + rest)
         == match HexDecode(rest) case Some(r) => Some([b] + r) case None => None
  {
    var bits := ByteBits(b);
    var hi, lo := NibbleValue(bits[..4]), NibbleValue(bits[4..]);
    var s := HexPair(b) + rest;
    assert s[0] == HexDigit(hi) && s[1] == HexDigit(lo) && s[2..] == rest;
    HexValueOfDigit(hi);
    HexValueOfDigit(lo);
    NibbleRoundTrip(bits[..4]);
    NibbleRoundTrip(bits[4..]);
    assert NibbleBits(hi) + NibbleBits(lo) == bits;
    BitsByteOfByteBits(b);
  }

  /** Decoding the hexadecimal text gives back the bytes. */
  lemma {:induction false} HexRoundTrip(bs: seq<Byte>)
    ensures HexDecode(HexEncode(bs)) == Some(bs)
  {
    if bs != [] {
      HexRoundTrip(bs[1..]);
      HexDecodeByte(bs[0], HexEncode(bs[1..]));
      assert [bs[0]] + bs[1..] == bs;
    }
  }

  // ---------------------------------------------------------------- base 32

  /** Character `v` of the alphabet "A..Z2..7". */
  function Base32Digit(v: nat): (c: char)
    requires v < 32
    ensures 'A' <= c <= 'Z' || '2' <= c <= '7'
  {
    if v < 26 then ('A' as int + v) as char else ('2' as int + v - 26) as char
  }

  predicate IsBase32Char(c: char) {
    'A' <= c <= 'Z' || '2' <= c <= '7'
  }

  function Base32Value(c: char): (v: Option<nat>)
    ensures v.Some? ==> v.value < 32
  {
    if 'A' <= c <= 'Z' then Some(c as int - 'A' as int)
    else if '2' <= c <= '7' then Some(c as int - '2' as int + 26)
    else None
  }

  lemma Base32ValueOfDigit(v: nat)
    requires v < 32
    ensures Base32Value(Base32Digit(v)) == Some(v)
  {
  }

  /** The eight bits of a byte, most significant first. */
  function ByteBits(b: Byte): (bits: seq<bool>)
    ensures |bits| == 8
  {
    [b & 0x80 != 0, b & 0x40 != 0, b & 0x20 != 0, b & 0x10 != 0,
     b & 0x08 != 0, b & 0x04 != 0, b & 0x02 != 0, b & 0x01 != 0]
  }

  function BitsByte(bits: seq<bool>): Byte
    requires |bits| == 8
  {
    (if bits[0] then 0x80 else 0) | (if bits[1] then 0x40 else 0) |
    (if bits[2] then 0x20 else 0) | (if bits[3] then 0x10 else 0) |
    (if bits[4] then 0x08 else 0) | (if bits[5] then 0x04 else 0) |
    (if bits[6] then 0x02 else 0) | (if bits[7] then 0x01 else 0)
  }

  lemma BitsByteOfByteBits(b: Byte)
    ensures BitsByte(ByteBits(b)) == b
  {
  }

  function BytesToBits(bs: seq<Byte>): (bits: seq<bool>)
    ensures |bits| == 8 * |bs|
  {
    if bs == [] then [] else ByteBits(bs[0]) + BytesToBits(bs[1..])
  }

  function BitsToBytes(bits: seq<bool>): (bs: seq<Byte>)
    requires |bits| % 8 == 0
    ensures 8 * |bs| == |bits|
  {
    if bits == [] then [] else [BitsByte(bits[..8])] + BitsToBytes(bits[8..])
  }

  lemma {:induction false} BitsRoundTrip(bs: seq<Byte>)
    ensures BitsToBytes(BytesToBits(bs)) == bs
  {
    if bs != [] {
      var bits := BytesToBits(bs);
      assert bits[..8] == ByteBits(bs[0]) && bits[8..] == BytesToBits(bs[1..]);
      BitsByteOfByteBits(bs[0]);
      BitsRoundTrip(bs[1..]);
      assert [bs[0]] + bs[1..] == bs;
    }
  }

  /** The value of five bits, most significant first. */
  function QuintetValue(q: seq<bool>): (v: nat)
    requires |q| == 5
    ensures v < 32
  {
    (if q[0] then 16 else 0) + (if q[1] then 8 else 0) + (if q[2] then 4 else 0)
    + (if q[3] then 2 else 0) + (if q[4] then 1 else 0)
  }

  function QuintetBits(v: nat): (q: seq<bool>)
    requires v < 32
    ensures |q| == 5
  {
    [v >= 16, v % 16 >= 8, v % 8 >= 4, v % 4 >= 2, v % 2 == 1]
  }

  lemma QuintetRoundTrip(q: seq<bool>)
    requires |q| == 5
    ensures QuintetBits(QuintetValue(q)) == q
  {
  }

  function Zeros(n: nat): (z: seq<bool>)
    ensures |z| == n && forall i :: 0 <= i < n ==> !z[i]
  {
    if n == 0 then [] else [false] + Zeros(n - 1)
  }

  /** One character per five bits; a final group of fewer than five bits is
      filled up with zero bits, and no padding character is written. */
  function EncodeBits(bits: seq<bool>): (s: string)
    ensures |s| == (|bits| + 4) / 5
    ensures forall i :: 0 <= i < |s| ==> IsBase32Char(s[i])
    decreases |bits|
  {
    if bits == [] then []
    else if |bits| < 5 then [Base32Digit(QuintetValue(bits + Zeros(5 - |bits|)))]
    else [Base32Digit(QuintetValue(bits[..5]))] + EncodeBits(bits[5..])
  }

  /** Unpadded base 32 of `bs`. */
  function Base32Encode(bs: seq<Byte>): (s: string)
    ensures |s| == (8 * |bs| + 4) / 5
    ensures forall i :: 0 <= i < |s| ==> IsBase32Char(s[i])
  {
    EncodeBits(BytesToBits(bs))
  }

  function DecodeChars(s: string): (bits: Option<seq<bool>>)
    ensures bits.Some? ==> |bits.value| == 5 * |s|
  {
    if s == [] then Some([])
    else
      match (Base32Value(s[0]), DecodeChars(s[1..]))
      case (Some(v), Some(rest)) => Some(QuintetBits(v) + rest)
      case _ => None
  }

  /** Unpadded base 32 decoding: the bits that do not make up a whole byte are
      the filler of the last group and are dropped. */
  function Base32Decode(s: string): (r: Option<seq<Byte>>)
  {
    match DecodeChars(s)
    case Some(bits) => Some(BitsToBytes(bits[..|bits| / 8 * 8]))
    case None => None
  }

  lemma {:induction false} DecodeEncodedBits(bits: seq<bool>)
    ensures DecodeChars(EncodeBits(bits)).Some?
    ensures var d := DecodeChars(EncodeBits(bits)).value;
            |bits| <= |d| < |bits| + 5 && d[..|bits|] == bits
    decreases |bits|
  {
    if bits == [] {
    } else if |bits| < 5 {
      var q := bits + Zeros(5 - |bits|);
      var s := EncodeBits(bits);
      Base32ValueOfDigit(QuintetValue(q));
      QuintetRoundTrip(q);
      assert s[1..] == [];
      assert DecodeChars(s[1..]) == Some([]);
      assert DecodeChars(s) == Some(q + []);
      assert q[..|bits|] == bits;
    } else {
      var s := EncodeBits(bits);
      var q := bits[..5];
      assert s[0] == Base32Digit(QuintetValue(q)) && s[1..] == EncodeBits(bits[5..]);
      Base32ValueOfDigit(QuintetValue(q));
      QuintetRoundTrip(q);
      DecodeEncodedBits(bits[5..]);
      var rest := DecodeChars(s[1..]).value;
      assert DecodeChars(s).value == q + rest;
      assert (q + rest)[..|bits|] == q + rest[..|bits| - 5];
      assert bits == q + bits[5..];
    }
  }

  /** Decoding the unpadded base 32 text gives back the bytes. */
  lemma Base32RoundTrip(bs: seq<Byte>)
    ensures Base32Decode(Base32Encode(bs)) == Some(bs)
  {
    var bits := BytesToBits(bs);
    DecodeEncodedBits(bits);
    var d := DecodeChars(EncodeBits(bits)).value;
    WholeBytes(|d|, |bs|);
    assert d[..|d| / 8 * 8] == bits;
    BitsRoundTrip(bs);
  }

  /** Fewer than eight bits beyond `8 * n` do not make another byte. */
  lemma WholeBytes(m: nat, n: nat)
    requires 8 * n <= m < 8 * n + 8
    ensures m / 8 * 8 == 8 * n
  {
    var q, r := m / 8, m % 8;
    assert m == 8 * q + r && 0 <= r < 8;
  }
}
