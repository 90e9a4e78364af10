/** The auth service's credential utilities: public identifiers and one-time
    codes of a caller-chosen length. */
module AuthCrypto {
  import opened Common
  import opened Rfc4648
  import opened Decimal
  import CryptoRand

  /** `HumanID(prefix)`: the prefix, a dash, and four random bytes in unpadded
      base 32; the error of the random source is not looked at. */
  method HumanID(prefix: string, source: seq<Byte>) returns (id: string)
    ensures id == prefix + "-" + Base32Encode(CryptoRand.Filled([0, 0, 0, 0], source))
    ensures |id| == |prefix| + 8
    ensures |source| >= 4 ==> Base32Decode(id[|prefix| + 1..]) == Some(source[..4])
  {
    var b := CryptoRand.MakeBytes(4);
    assert b[..] == [0, 0, 0, 0];
    var _ := CryptoRand.Read(b, source);
    id := prefix + "-" + Base32Encode(b[..]);
    assert id[|prefix| + 1..] == Base32Encode(b[..]);
    Base32RoundTrip(b[..]);
  }

  /** `GeneratOTP(length)`: a number drawn below 10^length, zero-padded to
      `length` digits. For `length <= 0` the bound `10^length` is 1 (`big.Int.Exp`
      with an exponent that is not positive), so `rand.Int` returns 0 without
      reading the source, and no error can occur. `%0*d` pads nothing for width
      0, and for a negative width it left-justifies with spaces instead. */
  function GeneratOTP(length: int, draw: Result<nat, string>): (r: (string, Option<string>))
    requires length >= 1 && draw.Ok? ==> draw.value < Pow10(length)
    ensures length >= 1 && draw.Err? ==> r == ("", Some(draw.error))
    ensures length >= 1 && draw.Ok? ==>
              && r.1.None? && AllDigits(r.0) && Atoi(r.0) == draw.value && |r.0| == length
    ensures length == 0 ==> r == ("0", None)
    ensures length < 0 ==> r.1.None? && |r.0| == -length && r.0[0] == '0'
                           && forall k :: 1 <= k < |r.0| ==> r.0[k] == ' '
  {
    if length <= 0 then
      assert Itoa(0) == "0";
      assert length == 0 ==> LeftJustified("0", 0) == "0" + Repeat(' ', -1) == "0";
      (LeftJustified(Itoa(0), -length), None)
    else
      match draw
      case Err(e) => ("", Some(e))
      case Ok(n) =>
        ZeroPaddedValue(n, length);
        ZeroPaddedLength(n, length);
        (ZeroPadded(n, length), None)
  }
}
