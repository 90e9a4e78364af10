/** Shared vocabulary: optional values, results, identifiers, time, and the
    handful of Go `strings` functions the services rely on. */
module Common {

  datatype Option<T> = None | Some(value: T)

  datatype Result<T, E> = Ok(value: T) | Err(error: E)

  /** A byte, as Go's `byte`. */
  type Byte = bv8

  /** A `uuid.UUID`, abstracted to a number; `uuid.Nil` is 0. */
  type Uuid = nat

  const NilUuid: Uuid := 0

  /** A `*fiber.Error`: an HTTP status and its message. */
  datatype FiberError = FiberError(code: int, message: string)

  /** `fiber.ErrUnauthorized`. */
  const ErrUnauthorized := FiberError(401, "Unauthorized")

  /** Where `uuid.New()` takes its identifiers from: every call gives one
      that was never given before, and none of them is `uuid.Nil`. */
  class IdSource {
    var next: nat

    ghost predicate Valid()
      reads this
    {
      next > NilUuid
    }

    /** Every identifier handed out so far is below `next`. */
    ghost predicate Issued(id: Uuid)
      reads this
    {
      NilUuid < id < next
    }

    constructor ()
      ensures Valid() && next == 1
    {
      next := 1;
    }

    method New() returns (id: Uuid)
      requires Valid()
      modifies this
      ensures Valid()
      ensures !old(Issued(id)) && Issued(id) && id != NilUuid
      ensures forall other :: old(Issued(other)) ==> Issued(other)
      ensures next == old(next) + 1
    {
      id := next;
      next := next + 1;
    }
  }

  /** A point in time, in seconds. */
  type Time = int

  const Minute: int := 60
  const Hour: int := 60 * Minute
  const Day: int := 24 * Hour

  /** `strings.HasPrefix(s, p)`. */
  predicate HasPrefix(s: string, p: string) {
    |p| <= |s| && s[..|p|] == p
  }

  /** `strings.TrimPrefix(s, p)`: drops `p` once from the front when present. */
  function TrimPrefix(s: string, p: string): (r: string)
    ensures HasPrefix(s, p) ==> p + r == s
    ensures !HasPrefix(s, p) ==> r == s
  {
    if HasPrefix(s, p) then s[|p|..] else s
  }

  /** Drops every trailing occurrence of `c`. */
  function TrimRightChar(s: string, c: char): (r: string)
    ensures |r| <= |s| && r == s[..|r|]
    ensures r == [] || r[|r| - 1] != c
    ensures forall i :: |r| <= i < |s| ==> s[i] == c
  {
    if |s| > 0 && s[|s| - 1] == c then TrimRightChar(s[..|s| - 1], c) else s
  }

  /** `strings.Trim(s, [c])`: drops every leading `c`, then every trailing one. */
  function TrimChar(s: string, c: char): (r: string)
    ensures |r| <= |s|
    ensures r == [] || (r[0] != c && r[|r| - 1] != c)
    ensures (forall i :: 0 <= i < |s| ==> s[i] == c) ==> r == []
    decreases |s|
  {
    if |s| > 0 && s[0] == c then TrimChar(s[1..], c) else TrimRightChar(s, c)
  }

  /** What `TrimChar` keeps is a slice of the input, `s[i..i + |r|]`, and
      everything cut off before and after it is `c`. */
  lemma {:induction false} TrimCharSlice(s: string, c: char) returns (i: nat)
    ensures var r := TrimChar(s, c);
            && i + |r| <= |s| && r == s[i..i + |r|]
            && (forall k :: 0 <= k < i ==> s[k] == c)
            && (forall k :: i + |r| <= k < |s| ==> s[k] == c)
    decreases |s|
  {
    if |s| > 0 && s[0] == c {
      var t := s[1..];
      var j := TrimCharSlice(t, c);
      i := j + 1;
      var r := TrimChar(t, c);
      assert TrimChar(s, c) == r;
      assert t[j..j + |r|] == s[i..i + |r|];
      assert forall k :: 1 <= k < |s| ==> s[k] == t[k - 1];
    } else {
      i := 0;
    }
  }

  /** Text that neither starts nor ends with `c` is left as it is by `TrimChar`,
      and `c`s wrapped around it are all removed. */
  lemma TrimCharOfWrapped(t: string, c: char)
    requires t == [] || (t[0] != c && t[|t| - 1] != c)
    ensures TrimChar([c] + t + [c], c) == t
  {
    var w := [c] + t + [c];
    assert w[0] == c && w[1..] == t + [c];
    var u := t + [c];
    if t == [] {
      assert u == [c] && u[1..] == [];
      assert TrimChar(u, c) == TrimChar([], c);
    } else {
      assert u[0] == t[0];
      assert TrimChar(u, c) == TrimRightChar(u, c);
      assert u[|u| - 1] == c && u[..|u| - 1] == t;
      assert TrimRightChar(u, c) == TrimRightChar(t, c);
    }
  }

  /** `strings.ContainsAny(s, chars)`. */
  predicate ContainsAny(s: string, chars: string) {
    exists i :: 0 <= i < |s| && s[i] in chars
  }

  /** The number of bytes of the UTF-8 encoding of `s`: Go's `len` on a string. */
  function Utf8Length(s: string): (n: nat)
    ensures |s| <= n <= 4 * |s|
  {
    if s == [] then 0
    else
      var c := s[0] as int;
      (if c < 0x80 then 1 else if c < 0x800 then 2 else if c < 0x1_0000 then 3 else 4)
      + Utf8Length(s[1..])
  }

  /** Text that is all ASCII has one byte per character. */
  lemma {:induction false} Utf8LengthOfAscii(s: string)
    requires forall i :: 0 <= i < |s| ==> s[i] as int < 0x80
    ensures Utf8Length(s) == |s|
  {
    if s != [] {
      Utf8LengthOfAscii(s[1..]);
    }
  }
}
