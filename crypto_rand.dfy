/** Stand-in for Go's `crypto/rand`: the random bytes are an input, so only
    what the callers do with them is modelled. */
module CryptoRand {
  import opened Common

  /** The error of a source that runs dry. Its text is not Go's: `rand.Read`
      passes on whatever its reader reports, and since Go 1.24 it reports none. */
  const ShortReadError: string := "short read"

  /** `make([]byte, n)`: a fresh buffer of `n` zero bytes. */
  method MakeBytes(n: nat) returns (b: array<Byte>)
    ensures fresh(b) && b.Length == n
    ensures forall i :: 0 <= i < n ==> b[i] == 0
  {
    b := new Byte[n](_ => 0);
  }

  /** What `rand.Read(b)` leaves in a buffer holding `before`, when the random
      source delivers `source`: the delivered bytes from the front, the rest
      as it was. */
  function Filled(before: seq<Byte>, source: seq<Byte>): (after: seq<Byte>)
    ensures |after| == |before|
    ensures |source| >= |before| ==> after == source[..|before|]
  {
    if |source| >= |before| then source[..|before|]
    else source + before[|source|..]
  }

  /** `rand.Read(b)`: fills `b` byte by byte from the source and succeeds
      exactly when the source delivered enough bytes for all of `b`. */
  method Read(b: array<Byte>, source: seq<Byte>) returns (err: Option<string>)
    modifies b
    ensures err.None? <==> |source| >= b.Length
    ensures err.Some? ==> err.value == ShortReadError
    ensures b[..] == Filled(old(b[..]), source)
  {
    var i := 0;
    while i < b.Length && i < |source|
      invariant 0 <= i <= b.Length && i <= |source|
      invariant b[..i] == source[..i]
      invariant b[i..] == old(b[..])[i..]
    {
      b[i] := source[i];
      i := i + 1;
      assert b[..i] == b[..i - 1] + [source[i - 1]];
    }
    assert b[..] == b[..i] + b[i..];
    err := if i == b.Length then None else Some(ShortReadError);
  }
}
