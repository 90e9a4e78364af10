/** The product service's credential utilities: public identifiers, one-time
    codes, refresh tokens and invitation hashes. The random input is a
    parameter; what is modelled is the encoding of whatever it delivers. */
module ProductCrypto {
  import opened Common
  import opened Rfc4648
  import opened Decimal
  import CryptoRand

  const OtpLength: nat := 6
  const RefreshTokenLength: nat := 64
  const InvitationTokenLength: nat := 64

  /** `HumanID(prefix)`: the prefix, a dash, and four random bytes in unpadded
      base 32. A failing random source is not looked at: the bytes it did not
      deliver stay zero. */
  method HumanID(prefix: string, source: seq<Byte>) returns (id: string)
    ensures id == prefix + "-" + Base32Encode(CryptoRand.Filled([0, 0, 0, 0], source))
    ensures |id| == |prefix| + 8
    ensures forall i :: |prefix| + 1 <= i < |id| ==> IsBase32Char(id[i])
    ensures |source| >= 4 ==> Base32Decode(id[|prefix| + 1..]) == Some(source[..4])
  {
    var b := CryptoRand.MakeBytes(4);
    assert b[..] == [0, 0, 0, 0];
    var _ := CryptoRand.Read(b, source);
    var bytes := b[..];
    id := prefix + "-" + Base32Encode(bytes);
    assert id[|prefix| + 1..] == Base32Encode(bytes);
    Base32RoundTrip(bytes);
  }

  /** `GenerateOTP()`: the drawn number `n`, which the random source takes
      uniformly below 10^6, written with exactly six digits. A failed draw
      gives "" and the error. */
  function GenerateOTP(draw: Result<nat, string>): (r: (string, Option<string>))
    requires draw.Ok? ==> draw.value < Pow10(OtpLength)
    ensures draw.Err? ==> r == ("", Some(draw.error))
    ensures draw.Ok? ==> r.1.None? && |r.0| == OtpLength && AllDigits(r.0) && Atoi(r.0) == draw.value
  {
    match draw
    case Err(e) => ("", Some(e))
    case Ok(n) =>
      ZeroPaddedLength(n, OtpLength);
      ZeroPaddedValue(n, OtpLength);
      (ZeroPadded(n, OtpLength), None)
  }

  /** `generateHash(length)`: `length` random bytes in lower-case hexadecimal,
      or "" and the error when the random source fails. */
  method GenerateHash(length: nat, source: seq<Byte>) returns (hash: string, err: Option<string>)
    ensures |source| >= length ==> err.None? && hash == HexEncode(source[..length])
    ensures |source| >= length ==> |hash| == 2 * length && HexDecode(hash) == Some(source[..length])
    ensures |source| < length ==> hash == "" && err == Some(CryptoRand.ShortReadError)
  {
    var secretBytes := CryptoRand.MakeBytes(length);
    err := CryptoRand.Read(secretBytes, source);
    if err.Some? {
      return "", err;
    }
    hash := HexEncode(secretBytes[..]);
    HexRoundTrip(secretBytes[..]);
  }

  /** `GenerateRefreshToken()`: 64 random bytes, 128 hexadecimal characters. */
  method GenerateRefreshToken(source: seq<Byte>) returns (token: string, err: Option<string>)
    ensures err.None? <==> |source| >= RefreshTokenLength
    ensures err.None? ==> |token| == 128 && HexDecode(token) == Some(source[..RefreshTokenLength])
    ensures err.Some? ==> token == ""
  {
    token, err := GenerateHash(RefreshTokenLength, source);
  }

  /** `GenerateInvitationHash()`: the same primitive with its own length constant. */
  method GenerateInvitationHash(source: seq<Byte>) returns (hash: string, err: Option<string>)
    ensures err.None? <==> |source| >= InvitationTokenLength
    ensures err.None? ==> |hash| == 128 && HexDecode(hash) == Some(source[..InvitationTokenLength])
    ensures err.Some? ==> hash == ""
  {
    hash, err := GenerateHash(InvitationTokenLength, source);
  }
}
