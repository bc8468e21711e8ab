/**
 Script numbers: sign-magnitude little-endian integers of minimal length, as
 `push_script_i64` emits them and the script engine reads them.
 */
module ScriptNum {
  import opened Bytes

  // Magnitude bytes, least significant first, none for zero.
  function Magnitude(v: nat): (s: Bytes)
    ensures v == 0 <==> s == []
    ensures s != [] ==> Last(s) != 0
  {
    if v == 0 then [] else
      var rest := Magnitude(v / 256);
      [v % 256] + rest
  }

  lemma {:induction false} FromMagnitude(v: nat)
    ensures FromLE(Magnitude(v)) == v
  {
    if v != 0 {
      FromMagnitude(v / 256);
      assert Magnitude(v)[1..] == Magnitude(v / 256);
    }
  }

  lemma {:induction false} MagnitudeLength(v: nat, k: nat)
    requires v < Pow256(k)
    ensures |Magnitude(v)| <= k
  {
    if v != 0 { MagnitudeLength(v / 256, k - 1); }
  }

  function Abs(n: int): nat { if n < 0 then -n else n }

  // The number as it lies on the stack: a sign bit on the top byte, or on a byte of its
  // own where the magnitude needs that bit.
  function NumBytes(n: int): Bytes {
    if n == 0 then []
    else
      var m := Magnitude(Abs(n));
      var top := Last(m);
      if top >= 0x80 then m + [if n < 0 then 0x80 else 0]
      else if n < 0 then m[..|m| - 1] + [top + 0x80]
      else m
  }

  function NumOf(s: Bytes): int {
    if s == [] then 0
    else
      var top := Last(s);
      var m: int := FromLE(s[..|s| - 1] + [top % 0x80]);
      if top >= 0x80 then -m else m
  }

  lemma {:induction false} FromLETrailingZero(s: Bytes)
    ensures FromLE(s + [0]) == FromLE(s)
  {
    if s == [] {
      assert FromLE([0]) == 0 + 256 * FromLE([0][1..]);
    } else {
      assert (s + [0])[1..] == s[1..] + [0];
      FromLETrailingZero(s[1..]);
    }
  }

  // Reading a written number returns it, for every integer.
  lemma NumRoundTrip(n: int)
    ensures NumOf(NumBytes(n)) == n
  {
    if n != 0 {
      var m := Magnitude(Abs(n));
      var top := Last(m);
      var s := NumBytes(n);
      FromMagnitude(Abs(n));
      if top >= 0x80 {
        assert s[..|s| - 1] == m && Last(s) == if n < 0 then 0x80 else 0;
        FromLETrailingZero(m);
      } else {
        assert m[..|m| - 1] + [top] == m;
        assert s[..|s| - 1] == m[..|m| - 1];
      }
    }
  }

  lemma NumInjective(a: int, b: int)
    ensures NumBytes(a) == NumBytes(b) <==> a == b
  {
    NumRoundTrip(a);
    NumRoundTrip(b);
  }

  predicate IsI64(n: int) { -0x8000_0000_0000_0000 <= n < 0x8000_0000_0000_0000 }

  lemma NumLength(n: int)
    requires IsI64(n)
    ensures |NumBytes(n)| <= 9
  {
    Pow256Values();
    MagnitudeLength(Abs(n), 8);
  }

  // The byte loop of `push_script_i64`.
  method MagnitudeBytes(v: nat) returns (bytes: Bytes)
    ensures bytes == Magnitude(v)
  {
    var value := v;
    bytes := [];
    while value > 0
      invariant bytes + Magnitude(value) == Magnitude(v)
    {
      ghost var rest := Magnitude(value / 256);
      assert bytes + Magnitude(value) == (bytes + [value % 256]) + rest;
      bytes := bytes + [value % 256];
      value := value / 256;
    }
    assert bytes + [] == bytes;
  }

  // The loop with its sign fix-up.
  method NumberBytes(n: int) returns (bytes: Bytes)
    requires IsI64(n) && n != 0
    ensures bytes == NumBytes(n)
  {
    bytes := MagnitudeBytes(Abs(n));
    var top := Last(bytes);
    if top >= 0x80 {
      bytes := bytes + [if n < 0 then 0x80 else 0];
    } else if n < 0 {
      bytes := bytes[..|bytes| - 1] + [top + 0x80];
    }
  }
}
