/**
 Bytes, fixed-width little-endian integers and the small result types shared by
 every other module.
 */
module Bytes {

  type byte = x: int | 0 <= x < 0x100
  type u16 = x: int | 0 <= x < 0x1_0000
  type u32 = x: int | 0 <= x < 0x1_0000_0000
  type u64 = x: int | 0 <= x < 0x1_0000_0000_0000_0000

  type Bytes = seq<byte>

  const ZERO32: Bytes := [0, 0, 0, 0, 0, 0, 0, 0, 0, 0, 0, 0, 0, 0, 0, 0,
                          0, 0, 0, 0, 0, 0, 0, 0, 0, 0, 0, 0, 0, 0, 0, 0]

  type Bytes32 = b: Bytes | |b| == 32 witness ZERO32

  // One byte, 32 times over.
  function Fill(b: byte): Bytes32 { seq(32, i => b) }

  lemma FillDiffers(a: byte, b: byte)
    ensures Fill(a) == Fill(b) <==> a == b
    ensures Fill(a) == ZERO32 <==> a == 0
  {
    assert Fill(a)[0] == a && Fill(b)[0] == b && ZERO32[0] == 0;
  }

  datatype Option<+T> = None | Some(value: T) {
    predicate IsFailure() { None? }
    function PropagateFailure<U>(): Option<U> requires None? { None }
    function Extract(): T requires Some? { value }
  }

  datatype Result<+T, +E> = Ok(value: T) | Err(error: E) {
    predicate IsFailure() { Err? }
    function PropagateFailure<U>(): Result<U, E> requires Err? { Err(error) }
    function Extract(): T requires Ok? { value }
  }

  // The result of an operation that succeeds without a value.
  datatype Outcome<+E> = Pass | Fail(error: E) {
    predicate IsFailure() { Fail? }
    function PropagateFailure<U>(): Result<U, E> requires Fail? { Err(error) }
  }

  // ---- little-endian integers ----

  function Pow256(k: nat): (p: nat)
    ensures p >= 1
  {
    if k == 0 then 1 else 256 * Pow256(k - 1)
  }

  lemma Pow256Values()
    ensures Pow256(1) == 0x100
    ensures Pow256(2) == 0x1_0000
    ensures Pow256(4) == 0x1_0000_0000
    ensures Pow256(8) == 0x1_0000_0000_0000_0000
  {
    assert Pow256(3) == 256 * Pow256(2);
    assert Pow256(5) == 256 * Pow256(4);
    assert Pow256(6) == 256 * Pow256(5);
    assert Pow256(7) == 256 * Pow256(6);
  }

  // The k low-order bytes of n, least significant first (`to_le_bytes`).
  function LE(k: nat, n: nat): (s: Bytes)
    ensures |s| == k
  {
    if k == 0 then [] else [n % 256] + LE(k - 1, n / 256)
  }

  function FromLE(s: Bytes): (n: nat)
    ensures n < Pow256(|s|)
  {
    if s == [] then 0 else
      assert s[0] + 256 * FromLE(s[1..]) < 256 * Pow256(|s| - 1);
      s[0] + 256 * FromLE(s[1..])
  }

  lemma {:induction false} FromLEInvertsLE(k: nat, n: nat)
    requires n < Pow256(k)
    ensures FromLE(LE(k, n)) == n
  {
    if k != 0 {
      FromLEInvertsLE(k - 1, n / 256);
      assert LE(k, n)[1..] == LE(k - 1, n / 256);
    }
  }

  lemma {:induction false} LEInvertsFromLE(s: Bytes)
    ensures LE(|s|, FromLE(s)) == s
  {
    if s != [] {
      LEInvertsFromLE(s[1..]);
      var n := FromLE(s);
      assert n % 256 == s[0] && n / 256 == FromLE(s[1..]);
    }
  }

  // ---- lists ----

  function Last<T>(s: seq<T>): T
    requires s != []
  {
    s[|s| - 1]
  }

  predicate NoDuplicates<T(==)>(s: seq<T>) {
    forall i, j :: 0 <= i < j < |s| ==> s[i] != s[j]
  }
}
