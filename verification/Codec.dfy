/**
 Prefix codecs.

 A codec pairs the encoder of a value with the decoder that reads the value off
 the front of a byte string and returns what is left. `ok` says which values the
 encoder may be given. Two laws are of interest:

   * RoundTrips: decoding an encoding returns the value and leaves the rest;
   * Canonical: whatever decodes re-encodes to exactly the bytes consumed.

 A codec with the first law is uniquely decodable, whatever follows it. Each
 combinator below keeps both laws, so a record's laws follow from its fields.
 */
module Codec {
  import opened Bytes

  datatype Codec<!T> = Codec(enc: T -> Bytes, dec: Bytes -> Option<(T, Bytes)>, ok: T -> bool)

  ghost predicate RoundTrips<T(!new)>(c: Codec<T>) {
    forall x: T, rest: Bytes :: c.ok(x) ==> c.dec(c.enc(x) + rest) == Some((x, rest))
  }

  ghost predicate Canonical<T(!new)>(c: Codec<T>) {
    forall s: Bytes :: c.dec(s).Some? ==>
      var (x, rest) := c.dec(s).value;
      c.ok(x) && s == c.enc(x) + rest
  }

  ghost predicate Lawful<T(!new)>(c: Codec<T>) {
    RoundTrips(c) && Canonical(c)
  }

  // Every encoding has exactly n bytes.
  ghost predicate FixedWidth<T(!new)>(c: Codec<T>, n: nat) {
    forall x: T :: c.ok(x) ==> |c.enc(x)| == n
  }

  // Whole-buffer decoding: the buffer must be consumed.
  function DecodeAll<T>(c: Codec<T>, s: Bytes): Option<T> {
    match c.dec(s)
    case Some((x, rest)) => if rest == [] then Some(x) else None
    case None => None
  }

  lemma DecodeAllInverts<T(!new)>(c: Codec<T>, x: T)
    requires RoundTrips(c) && c.ok(x)
    ensures DecodeAll(c, c.enc(x)) == Some(x)
  {
    assert c.enc(x) + [] == c.enc(x);
  }

  lemma DecodeAllCanonical<T(!new)>(c: Codec<T>, s: Bytes)
    requires Canonical(c) && DecodeAll(c, s).Some?
    ensures c.ok(DecodeAll(c, s).value) && c.enc(DecodeAll(c, s).value) == s
  {
    var (x, rest) := c.dec(s).value;
    assert s == c.enc(x) + rest;
  }

  // Unique decodability: equal encodings with anything behind them split alike.
  lemma UniqueSplit<T(!new)>(c: Codec<T>, x: T, r: Bytes, y: T, t: Bytes)
    requires RoundTrips(c) && c.ok(x) && c.ok(y)
    requires c.enc(x) + r == c.enc(y) + t
    ensures x == y && r == t
  {
    assert c.dec(c.enc(x) + r) == Some((x, r));
    assert c.dec(c.enc(y) + t) == Some((y, t));
  }

  lemma Injective<T(!new)>(c: Codec<T>, x: T, y: T)
    requires RoundTrips(c) && c.ok(x) && c.ok(y)
    requires c.enc(x) == c.enc(y)
    ensures x == y
  {
    assert c.enc(x) + [] == c.enc(y) + [];
    UniqueSplit(c, x, [], y, []);
  }

  // ---- primitive codecs ----

  // A run of exactly n bytes.
  function Take(n: nat): Codec<Bytes> {
    Codec((x: Bytes) => x,
          (s: Bytes) => if |s| < n then None else Some((s[..n], s[n..])),
          (x: Bytes) => |x| == n)
  }

  lemma TakeLawful(n: nat)
    ensures Lawful(Take(n)) && FixedWidth(Take(n), n)
  {
    forall x: Bytes, rest: Bytes | |x| == n
      ensures Take(n).dec(x + rest) == Some((x, rest))
    {
      assert (x + rest)[..n] == x && (x + rest)[n..] == rest;
    }
    forall s: Bytes | Take(n).dec(s).Some?
      ensures s == Take(n).dec(s).value.0 + Take(n).dec(s).value.1
    {
    }
  }

  // A fixed byte string, such as a magic prefix.
  function Magic(m: Bytes): Codec<()> {
    Codec((x: ()) => m,
          (s: Bytes) => if |m| <= |s| && s[..|m|] == m then Some(((), s[|m|..])) else None,
          (x: ()) => true)
  }

  lemma MagicLawful(m: Bytes)
    ensures Lawful(Magic(m)) && FixedWidth(Magic(m), |m|)
  {
    forall x: (), rest: Bytes
      ensures Magic(m).dec(m + rest) == Some((x, rest))
    {
      assert (m + rest)[..|m|] == m && (m + rest)[|m|..] == rest;
      assert x == ();
    }
    forall s: Bytes | Magic(m).dec(s).Some?
      ensures s == m + Magic(m).dec(s).value.1
    {
    }
  }

  // ---- combinators ----

  function Pair<A, B>(a: Codec<A>, b: Codec<B>): Codec<(A, B)> {
    Codec((p: (A, B)) => a.enc(p.0) + b.enc(p.1),
          (s: Bytes) =>
            match a.dec(s)
            case None => None
            case Some((x, r)) =>
              match b.dec(r)
              case None => None
              case Some((y, t)) => Some(((x, y), t)),
          (p: (A, B)) => a.ok(p.0) && b.ok(p.1))
  }

  lemma PairRoundTrips<A(!new), B(!new)>(a: Codec<A>, b: Codec<B>)
    requires RoundTrips(a) && RoundTrips(b)
    ensures RoundTrips(Pair(a, b))
  {
    var c := Pair(a, b);
    forall p: (A, B), rest: Bytes | c.ok(p)
      ensures c.dec(c.enc(p) + rest) == Some((p, rest))
    {
      assert c.enc(p) + rest == a.enc(p.0) + (b.enc(p.1) + rest);
      assert a.dec(a.enc(p.0) + (b.enc(p.1) + rest)) == Some((p.0, b.enc(p.1) + rest));
      assert b.dec(b.enc(p.1) + rest) == Some((p.1, rest));
      assert p == (p.0, p.1);
    }
  }

  lemma PairCanonical<A(!new), B(!new)>(a: Codec<A>, b: Codec<B>)
    requires Canonical(a) && Canonical(b)
    ensures Canonical(Pair(a, b))
  {
    var c := Pair(a, b);
    forall s: Bytes | c.dec(s).Some?
      ensures c.ok(c.dec(s).value.0) && s == c.enc(c.dec(s).value.0) + c.dec(s).value.1
    {
      var (x, r) := a.dec(s).value;
      var (y, t) := b.dec(r).value;
      assert s == a.enc(x) + r && r == b.enc(y) + t;
      assert s == (a.enc(x) + b.enc(y)) + t;
    }
  }

  lemma PairLawful<A(!new), B(!new)>(a: Codec<A>, b: Codec<B>)
    requires Lawful(a) && Lawful(b)
    ensures Lawful(Pair(a, b))
  {
    PairRoundTrips(a, b);
    PairCanonical(a, b);
  }

  lemma PairFixed<A(!new), B(!new)>(a: Codec<A>, b: Codec<B>, m: nat, n: nat)
    requires FixedWidth(a, m) && FixedWidth(b, n)
    ensures FixedWidth(Pair(a, b), m + n)
  {
    forall p: (A, B) | Pair(a, b).ok(p) ensures |Pair(a, b).enc(p)| == m + n {
      assert a.ok(p.0) && b.ok(p.1);
    }
  }

  // A codec seen through a pair of conversions.
  function Iso<A, B(==)>(c: Codec<A>, to: A -> B, from: B -> A): Codec<B> {
    Codec((y: B) => c.enc(from(y)),
          (s: Bytes) =>
            match c.dec(s)
            case None => None
            case Some((x, r)) => Some((to(x), r)),
          (y: B) => c.ok(from(y)) && to(from(y)) == y)
  }

  lemma IsoRoundTrips<A(!new), B(!new)>(c: Codec<A>, to: A -> B, from: B -> A)
    requires RoundTrips(c)
    ensures RoundTrips(Iso(c, to, from))
  {
  }

  lemma IsoCanonical<A(!new), B(!new)>(c: Codec<A>, to: A -> B, from: B -> A)
    requires Canonical(c)
    requires forall x: A :: c.ok(x) ==> from(to(x)) == x
    ensures Canonical(Iso(c, to, from))
  {
    var d := Iso(c, to, from);
    forall s: Bytes | d.dec(s).Some?
      ensures d.ok(d.dec(s).value.0) && s == d.enc(d.dec(s).value.0) + d.dec(s).value.1
    {
      var (x, r) := c.dec(s).value;
      assert from(to(x)) == x;
    }
  }

  lemma IsoLawful<A(!new), B(!new)>(c: Codec<A>, to: A -> B, from: B -> A)
    requires Lawful(c)
    requires forall x: A :: c.ok(x) ==> from(to(x)) == x
    ensures Lawful(Iso(c, to, from))
  {
    IsoRoundTrips(c, to, from);
    IsoCanonical(c, to, from);
  }

  lemma IsoFixed<A(!new), B(!new)>(c: Codec<A>, to: A -> B, from: B -> A, n: nat)
    requires FixedWidth(c, n)
    ensures FixedWidth(Iso(c, to, from), n)
  {
  }

  // Decoding that also rejects values outside `p`.
  function Refine<A>(c: Codec<A>, p: A -> bool): Codec<A> {
    Codec(c.enc,
          (s: Bytes) =>
            match c.dec(s)
            case None => None
            case Some((x, r)) => if p(x) then Some((x, r)) else None,
          (x: A) => c.ok(x) && p(x))
  }

  lemma RefineLawful<A(!new)>(c: Codec<A>, p: A -> bool)
    requires Lawful(c)
    ensures Lawful(Refine(c, p))
  {
    var d := Refine(c, p);
    forall s: Bytes | d.dec(s).Some?
      ensures d.ok(d.dec(s).value.0) && s == d.enc(d.dec(s).value.0) + d.dec(s).value.1
    {
      assert c.dec(s).Some?;
    }
  }

  lemma RefineFixed<A(!new)>(c: Codec<A>, p: A -> bool, n: nat)
    requires FixedWidth(c, n)
    ensures FixedWidth(Refine(c, p), n)
  {
  }

  // A header that selects the codec of the body: tagged unions and counts.
  function Dep<A, B>(head: Codec<A>, key: B -> A, body: A -> Codec<B>): Codec<B> {
    Codec((y: B) => head.enc(key(y)) + body(key(y)).enc(y),
          (s: Bytes) =>
            match head.dec(s)
            case None => None
            case Some((k, r)) => body(k).dec(r),
          (y: B) => head.ok(key(y)) && body(key(y)).ok(y))
  }

  lemma DepRoundTrips<A(!new), B(!new)>(head: Codec<A>, key: B -> A, body: A -> Codec<B>)
    requires RoundTrips(head)
    requires forall k: A :: head.ok(k) ==> RoundTrips(body(k))
    ensures RoundTrips(Dep(head, key, body))
  {
    var c := Dep(head, key, body);
    forall y: B, rest: Bytes | c.ok(y)
      ensures c.dec(c.enc(y) + rest) == Some((y, rest))
    {
      var k := key(y);
      var e := body(k).enc(y);
      assert c.enc(y) + rest == head.enc(k) + (e + rest);
      assert head.dec(head.enc(k) + (e + rest)) == Some((k, e + rest));
      assert RoundTrips(body(k));
    }
  }

  lemma DepCanonical<A(!new), B(!new)>(head: Codec<A>, key: B -> A, body: A -> Codec<B>)
    requires Canonical(head)
    requires forall k: A :: head.ok(k) ==> Canonical(body(k))
    requires forall k: A, y: B :: head.ok(k) && body(k).ok(y) ==> key(y) == k
    ensures Canonical(Dep(head, key, body))
  {
    var c := Dep(head, key, body);
    forall s: Bytes | c.dec(s).Some?
      ensures c.ok(c.dec(s).value.0) && s == c.enc(c.dec(s).value.0) + c.dec(s).value.1
    {
      var (k, r) := head.dec(s).value;
      assert head.ok(k) && s == head.enc(k) + r;
      assert Canonical(body(k));
      var (y, t) := body(k).dec(r).value;
      assert body(k).ok(y) && r == body(k).enc(y) + t;
      assert key(y) == k;
      assert s == (head.enc(k) + body(k).enc(y)) + t;
    }
  }

  lemma DepLawful<A(!new), B(!new)>(head: Codec<A>, key: B -> A, body: A -> Codec<B>)
    requires Lawful(head)
    requires forall k: A :: head.ok(k) ==> Lawful(body(k))
    requires forall k: A, y: B :: head.ok(k) && body(k).ok(y) ==> key(y) == k
    ensures Lawful(Dep(head, key, body))
  {
    DepRoundTrips(head, key, body);
    DepCanonical(head, key, body);
  }

  // ---- repetition ----

  function EncEach<T>(c: Codec<T>, xs: seq<T>): Bytes {
    if xs == [] then [] else c.enc(xs[0]) + EncEach(c, xs[1..])
  }

  function DecEach<T>(c: Codec<T>, n: nat, s: Bytes): Option<(seq<T>, Bytes)> {
    if n == 0 then Some(([], s))
    else
      match c.dec(s)
      case None => None
      case Some((x, r)) =>
        match DecEach(c, n - 1, r)
        case None => None
        case Some((xs, t)) => Some(([x] + xs, t))
  }

  predicate OkEach<T>(c: Codec<T>, xs: seq<T>) {
    forall i :: 0 <= i < |xs| ==> c.ok(xs[i])
  }

  // Exactly n values, one after the other.
  function Repeat<T>(c: Codec<T>, n: nat): Codec<seq<T>> {
    Codec((xs: seq<T>) => EncEach(c, xs),
          (s: Bytes) => DecEach(c, n, s),
          (xs: seq<T>) => |xs| == n && OkEach(c, xs))
  }

  lemma {:induction false} DecEachInverts<T(!new)>(c: Codec<T>, xs: seq<T>, rest: Bytes)
    requires RoundTrips(c) && OkEach(c, xs)
    ensures DecEach(c, |xs|, EncEach(c, xs) + rest) == Some((xs, rest))
  {
    if xs != [] {
      var tail := EncEach(c, xs[1..]);
      assert EncEach(c, xs) + rest == c.enc(xs[0]) + (tail + rest);
      assert c.dec(c.enc(xs[0]) + (tail + rest)) == Some((xs[0], tail + rest));
      DecEachInverts(c, xs[1..], rest);
      assert xs == [xs[0]] + xs[1..];
    } else {
      assert EncEach(c, xs) + rest == rest;
    }
  }

  lemma {:induction false} EncEachInverts<T(!new)>(c: Codec<T>, n: nat, s: Bytes)
    requires Canonical(c) && DecEach(c, n, s).Some?
    ensures var (xs, rest) := DecEach(c, n, s).value;
            |xs| == n && OkEach(c, xs) && s == EncEach(c, xs) + rest
  {
    if n != 0 {
      var (x, r) := c.dec(s).value;
      EncEachInverts(c, n - 1, r);
      var (xs, t) := DecEach(c, n - 1, r).value;
      var ys := [x] + xs;
      assert ys[0] == x && ys[1..] == xs;
      assert s == c.enc(x) + r && r == EncEach(c, xs) + t;
      assert s == (c.enc(x) + EncEach(c, xs)) + t;
    }
  }

  lemma RepeatRoundTrips<T(!new)>(c: Codec<T>, n: nat)
    requires RoundTrips(c)
    ensures RoundTrips(Repeat(c, n))
  {
    forall xs: seq<T>, rest: Bytes | Repeat(c, n).ok(xs)
      ensures Repeat(c, n).dec(Repeat(c, n).enc(xs) + rest) == Some((xs, rest))
    {
      DecEachInverts(c, xs, rest);
    }
  }

  lemma RepeatLawful<T(!new)>(c: Codec<T>, n: nat)
    requires Lawful(c)
    ensures Lawful(Repeat(c, n))
  {
    RepeatRoundTrips(c, n);
    var d := Repeat(c, n);
    forall s: Bytes | d.dec(s).Some?
      ensures d.ok(d.dec(s).value.0) && s == d.enc(d.dec(s).value.0) + d.dec(s).value.1
    {
      EncEachInverts(c, n, s);
    }
  }

  lemma {:induction false} EncEachLength<T(!new)>(c: Codec<T>, w: nat, xs: seq<T>)
    requires FixedWidth(c, w) && OkEach(c, xs)
    ensures |EncEach(c, xs)| == w * |xs|
  {
    if xs != [] {
      EncEachLength(c, w, xs[1..]);
      assert c.ok(xs[0]);
      assert w * |xs| == w + w * (|xs| - 1);
    }
  }

  lemma {:induction false} EncEachSnoc<T>(c: Codec<T>, xs: seq<T>, x: T)
    ensures EncEach(c, xs + [x]) == EncEach(c, xs) + c.enc(x)
  {
    if xs == [] {
      assert xs + [x] == [x];
      assert EncEach(c, [x]) == c.enc(x) + EncEach(c, []);
    } else {
      assert (xs + [x])[1..] == xs[1..] + [x];
      EncEachSnoc(c, xs[1..], x);
    }
  }

  // A count, written by `head`, then that many values.
  function Counted<T>(head: Codec<nat>, c: Codec<T>): Codec<seq<T>> {
    Dep(head, (xs: seq<T>) => |xs|, (n: nat) => Repeat(c, n))
  }

  lemma CountedLawful<T(!new)>(head: Codec<nat>, c: Codec<T>)
    requires Lawful(head) && Lawful(c)
    ensures Lawful(Counted(head, c))
  {
    forall n: nat ensures Lawful(Repeat(c, n)) { RepeatLawful(c, n); }
    DepLawful(head, (xs: seq<T>) => |xs|, (n: nat) => Repeat(c, n));
  }

  // ---- integers and 32-byte values ----

  function Int(k: nat): Codec<nat> {
    Iso(Take(k), (s: Bytes) => FromLE(s), (n: nat) => LE(k, n))
  }

  lemma IntLawful(k: nat)
    ensures Lawful(Int(k)) && FixedWidth(Int(k), k)
    ensures forall n: nat :: n < Pow256(k) ==> Int(k).ok(n)
  {
    TakeLawful(k);
    forall s: Bytes | Take(k).ok(s) ensures LE(k, FromLE(s)) == s { LEInvertsFromLE(s); }
    IsoLawful(Take(k), (s: Bytes) => FromLE(s), (n: nat) => LE(k, n));
    IsoFixed(Take(k), (s: Bytes) => FromLE(s), (n: nat) => LE(k, n), k);
    forall n: nat | n < Pow256(k) ensures Int(k).ok(n) { FromLEInvertsLE(k, n); }
  }

  lemma IntRange(k: nat, n: nat)
    requires Int(k).ok(n)
    ensures n < Pow256(k)
  {
    assert FromLE(LE(k, n)) == n;
  }

  function ToU8(n: nat): byte { if n < 0x100 then n else 0 }

  function FromU8(v: byte): nat { v }

  function U8(): Codec<byte> {
    Iso<nat, byte>(Int(1), ToU8, FromU8)
  }

  function ToU16(n: nat): u16 { if n < 0x1_0000 then n else 0 }

  function FromU16(v: u16): nat { v }

  function U16(): Codec<u16> {
    Iso<nat, u16>(Int(2), ToU16, FromU16)
  }

  function ToU32(n: nat): u32 { if n < 0x1_0000_0000 then n else 0 }

  function FromU32(v: u32): nat { v }

  function U32(): Codec<u32> {
    Iso<nat, u32>(Int(4), ToU32, FromU32)
  }

  function ToU64(n: nat): u64 { if n < 0x1_0000_0000_0000_0000 then n else 0 }

  function FromU64(v: u64): nat { v }

  function U64(): Codec<u64> {
    Iso<nat, u64>(Int(8), ToU64, FromU64)
  }

  function ToB32(s: Bytes): Bytes32 { if |s| == 32 then s else ZERO32 }

  function FromB32(b: Bytes32): Bytes { b }

  function B32(): Codec<Bytes32> {
    Iso<Bytes, Bytes32>(Take(32), ToB32, FromB32)
  }

  // Codecs that accept every value of their type.
  ghost predicate Total<T(!new)>(c: Codec<T>) {
    forall x: T :: c.ok(x)
  }

  lemma U8Lawful()
    ensures Lawful(U8()) && Total(U8()) && FixedWidth(U8(), 1)
  {
    Pow256Values();
    IntLawful(1);
    forall n: nat | Int(1).ok(n) ensures n < 0x100 { IntRange(1, n); }
    IsoLawful<nat, byte>(Int(1), ToU8, FromU8);
    IsoFixed<nat, byte>(Int(1), ToU8, FromU8, 1);
    forall x: byte ensures U8().ok(x) { assert ToU8(FromU8(x)) == x; }
  }

  lemma U16Lawful()
    ensures Lawful(U16()) && Total(U16()) && FixedWidth(U16(), 2)
  {
    Pow256Values();
    IntLawful(2);
    forall n: nat | Int(2).ok(n) ensures n < 0x1_0000 { IntRange(2, n); }
    IsoLawful<nat, u16>(Int(2), ToU16, FromU16);
    IsoFixed<nat, u16>(Int(2), ToU16, FromU16, 2);
    forall x: u16 ensures U16().ok(x) { assert ToU16(FromU16(x)) == x; }
  }

  lemma U32Lawful()
    ensures Lawful(U32()) && Total(U32()) && FixedWidth(U32(), 4)
  {
    Pow256Values();
    IntLawful(4);
    forall n: nat | Int(4).ok(n) ensures n < 0x1_0000_0000 { IntRange(4, n); }
    IsoLawful<nat, u32>(Int(4), ToU32, FromU32);
    IsoFixed<nat, u32>(Int(4), ToU32, FromU32, 4);
    forall x: u32 ensures U32().ok(x) { assert ToU32(FromU32(x)) == x; }
  }

  lemma U64Lawful()
    ensures Lawful(U64()) && Total(U64()) && FixedWidth(U64(), 8)
  {
    Pow256Values();
    IntLawful(8);
    forall n: nat | Int(8).ok(n) ensures n < 0x1_0000_0000_0000_0000 { IntRange(8, n); }
    IsoLawful<nat, u64>(Int(8), ToU64, FromU64);
    IsoFixed<nat, u64>(Int(8), ToU64, FromU64, 8);
    forall x: u64 ensures U64().ok(x) { assert ToU64(FromU64(x)) == x; }
  }

  lemma B32Lawful()
    ensures Lawful(B32()) && Total(B32()) && FixedWidth(B32(), 32)
  {
    TakeLawful(32);
    IsoLawful<Bytes, Bytes32>(Take(32), ToB32, FromB32);
    IsoFixed<Bytes, Bytes32>(Take(32), ToB32, FromB32, 32);
    forall x: Bytes32 ensures B32().ok(x) { assert ToB32(FromB32(x)) == x; }
  }

  // All primitive laws at once.
  lemma Primitives()
    ensures Lawful(U8()) && Total(U8()) && FixedWidth(U8(), 1)
    ensures Lawful(U16()) && Total(U16()) && FixedWidth(U16(), 2)
    ensures Lawful(U32()) && Total(U32()) && FixedWidth(U32(), 4)
    ensures Lawful(U64()) && Total(U64()) && FixedWidth(U64(), 8)
    ensures Lawful(B32()) && Total(B32()) && FixedWidth(B32(), 32)
  {
    U8Lawful(); U16Lawful(); U32Lawful(); U64Lawful(); B32Lawful();
  }

  // A value behind a fixed byte string.
  function Prefixed<T(==)>(m: Bytes, c: Codec<T>): Codec<T> {
    Iso(Pair(Magic(m), c), (p: ((), T)) => p.1, (x: T) => ((), x))
  }

  lemma PrefixedLawful<T(!new)>(m: Bytes, c: Codec<T>)
    requires Lawful(c)
    ensures Lawful(Prefixed(m, c))
    ensures forall x: T :: Prefixed(m, c).ok(x) <==> c.ok(x)
    ensures forall x: T :: Prefixed(m, c).enc(x) == m + c.enc(x)
  {
    MagicLawful(m);
    PairLawful(Magic(m), c);
    IsoLawful(Pair(Magic(m), c), (p: ((), T)) => p.1, (x: T) => ((), x));
  }

  // An optional value behind a presence byte.
  function Presence<T>(flag: Codec<bool>, c: Codec<T>): Codec<Option<T>> {
    Dep(flag, (o: Option<T>) => o.Some?, (b: bool) => OptionBody(c, b))
  }

  function OptionBody<T>(c: Codec<T>, present: bool): Codec<Option<T>> {
    if present then
      Codec((o: Option<T>) => if o.Some? then c.enc(o.value) else [],
            (s: Bytes) =>
              match c.dec(s)
              case None => None
              case Some((x, r)) => Some((Some(x), r)),
            (o: Option<T>) => o.Some? && c.ok(o.value))
    else
      Codec((o: Option<T>) => [], (s: Bytes) => Some((None, s)), (o: Option<T>) => o.None?)
  }

  lemma OptionBodyRoundTrips<T(!new)>(c: Codec<T>, present: bool)
    requires RoundTrips(c)
    ensures RoundTrips(OptionBody(c, present))
  {
    var d := OptionBody(c, present);
    forall o: Option<T>, rest: Bytes | d.ok(o)
      ensures d.dec(d.enc(o) + rest) == Some((o, rest))
    {
      assert [] + rest == rest;
    }
  }

  lemma OptionBodyLawful<T(!new)>(c: Codec<T>, present: bool)
    requires Lawful(c)
    ensures Lawful(OptionBody(c, present))
  {
    OptionBodyRoundTrips(c, present);
    var d := OptionBody(c, present);
    forall s: Bytes | d.dec(s).Some?
      ensures d.ok(d.dec(s).value.0) && s == d.enc(d.dec(s).value.0) + d.dec(s).value.1
    {
      if present { assert c.dec(s).Some?; }
    }
  }

  lemma PresenceLawful<T(!new)>(flag: Codec<bool>, c: Codec<T>)
    requires Lawful(flag) && Lawful(c)
    ensures Lawful(Presence(flag, c))
  {
    OptionBodyLawful(c, true);
    OptionBodyLawful(c, false);
    DepLawful(flag, (o: Option<T>) => o.Some?, (b: bool) => OptionBody(c, b));
  }

  // `write_bool` with `read_bool`, which takes any non-zero byte for true.
  function LaxBool(): Codec<bool> {
    Codec((b: bool) => if b then [1] else [0],
          (s: Bytes) => if s == [] then None else Some((s[0] != 0, s[1..])),
          (b: bool) => true)
  }

  // A presence byte that must be 0 or 1.
  function StrictBool(): Codec<bool> {
    Codec((b: bool) => if b then [1] else [0],
          (s: Bytes) => if s == [] || s[0] > 1 then None else Some((s[0] == 1, s[1..])),
          (b: bool) => true)
  }

  lemma StrictBoolLawful()
    ensures Lawful(StrictBool()) && Total(StrictBool()) && FixedWidth(StrictBool(), 1)
  {
    forall b: bool, rest: Bytes ensures StrictBool().dec(StrictBool().enc(b) + rest) == Some((b, rest)) {
      assert ([1] + rest)[1..] == rest && ([0] + rest)[1..] == rest;
    }
  }

  // A length, written by `head`, then that many bytes.
  function Blob(head: Codec<nat>): Codec<Bytes> {
    Dep(head, (b: Bytes) => |b|, (n: nat) => Take(n))
  }

  lemma BlobLawful(head: Codec<nat>)
    requires Lawful(head)
    ensures Lawful(Blob(head))
  {
    forall n: nat ensures Lawful(Take(n)) { TakeLawful(n); }
    DepLawful(head, (b: Bytes) => |b|, (n: nat) => Take(n));
  }

  // ---- codecs that read more than they write ----

  // `d` is lawful; `c` writes what `d` writes, reads all that `d` reads and possibly more, and
  // still reads only values it could write.
  ghost predicate Relaxes<T(!new)>(c: Codec<T>, d: Codec<T>) {
    && Lawful(d)
    && (forall x: T :: c.enc(x) == d.enc(x))
    && (forall x: T :: c.ok(x) <==> d.ok(x))
    && (forall s: Bytes :: d.dec(s).Some? ==> c.dec(s) == d.dec(s))
    && (forall s: Bytes :: c.dec(s).Some? ==> c.ok(c.dec(s).value.0))
  }

  lemma RelaxesItself<T(!new)>(c: Codec<T>)
    requires Lawful(c)
    ensures Relaxes(c, c)
  {
    forall s: Bytes | c.dec(s).Some? ensures c.ok(c.dec(s).value.0) {
      var (x, rest) := c.dec(s).value;
    }
  }

  lemma RelaxedRoundTrips<T(!new)>(c: Codec<T>, d: Codec<T>)
    requires Relaxes(c, d)
    ensures RoundTrips(c)
  {
    forall x: T, rest: Bytes | c.ok(x) ensures c.dec(c.enc(x) + rest) == Some((x, rest)) {
      assert d.dec(d.enc(x) + rest) == Some((x, rest));
    }
  }

  // The lax codec re-encodes a buffer to itself exactly when the strict codec reads it too.
  lemma RelaxedCanonical<T(!new)>(c: Codec<T>, d: Codec<T>, s: Bytes)
    requires Relaxes(c, d) && DecodeAll(c, s).Some?
    ensures var x := DecodeAll(c, s).value;
            c.ok(x) && (c.enc(x) == s <==> DecodeAll(d, s) == Some(x))
  {
    var x := DecodeAll(c, s).value;
    assert c.ok(x) && c.enc(x) == d.enc(x);
    if c.enc(x) == s { DecodeAllInverts(d, x); }
    if DecodeAll(d, s) == Some(x) { DecodeAllCanonical(d, s); }
  }

  lemma PairRelaxes<A(!new), B(!new)>(a: Codec<A>, a': Codec<A>, b: Codec<B>, b': Codec<B>)
    requires Relaxes(a, a') && Relaxes(b, b')
    ensures Relaxes(Pair(a, b), Pair(a', b'))
  {
    PairLawful(a', b');
    var c, d := Pair(a, b), Pair(a', b');
    forall p: (A, B) ensures c.enc(p) == d.enc(p) && (c.ok(p) <==> d.ok(p)) {
      assert a.enc(p.0) == a'.enc(p.0) && b.enc(p.1) == b'.enc(p.1);
    }
    forall s: Bytes | d.dec(s).Some? ensures c.dec(s) == d.dec(s) {
      assert a.dec(s) == a'.dec(s);
    }
    forall s: Bytes | c.dec(s).Some? ensures c.ok(c.dec(s).value.0) {
      var (x, r) := a.dec(s).value;
      assert b.dec(r).Some?;
    }
  }

  lemma IsoRelaxes<A(!new), B(!new)>(c: Codec<A>, d: Codec<A>, to: A -> B, from: B -> A)
    requires Relaxes(c, d)
    requires forall x: A :: from(to(x)) == x
    ensures Relaxes(Iso(c, to, from), Iso(d, to, from))
  {
    IsoLawful(d, to, from);
    forall s: Bytes | Iso(c, to, from).dec(s).Some?
      ensures Iso(c, to, from).ok(Iso(c, to, from).dec(s).value.0)
    {
      assert c.ok(c.dec(s).value.0);
    }
  }

  lemma {:induction false} EncEachAlike<T(!new)>(c: Codec<T>, d: Codec<T>, xs: seq<T>)
    requires Relaxes(c, d)
    ensures EncEach(c, xs) == EncEach(d, xs)
  {
    if xs != [] { EncEachAlike(c, d, xs[1..]); }
  }

  lemma {:induction false} DecEachRelaxes<T(!new)>(c: Codec<T>, d: Codec<T>, n: nat, s: Bytes)
    requires Relaxes(c, d)
    ensures DecEach(d, n, s).Some? ==> DecEach(c, n, s) == DecEach(d, n, s)
    ensures DecEach(c, n, s).Some? ==>
              |DecEach(c, n, s).value.0| == n && OkEach(c, DecEach(c, n, s).value.0)
  {
    if n != 0 && c.dec(s).Some? {
      var (x, r) := c.dec(s).value;
      DecEachRelaxes(c, d, n - 1, r);
    }
  }

  lemma RepeatRelaxes<T(!new)>(c: Codec<T>, d: Codec<T>, n: nat)
    requires Relaxes(c, d)
    ensures Relaxes(Repeat(c, n), Repeat(d, n))
  {
    RepeatLawful(d, n);
    forall xs: seq<T> ensures Repeat(c, n).enc(xs) == Repeat(d, n).enc(xs) { EncEachAlike(c, d, xs); }
    forall xs: seq<T> ensures Repeat(c, n).ok(xs) <==> Repeat(d, n).ok(xs) { }
    forall s: Bytes
      ensures Repeat(d, n).dec(s).Some? ==> Repeat(c, n).dec(s) == Repeat(d, n).dec(s)
      ensures Repeat(c, n).dec(s).Some? ==> Repeat(c, n).ok(Repeat(c, n).dec(s).value.0)
    {
      DecEachRelaxes(c, d, n, s);
    }
  }

  lemma OptionBodyRelaxes<T(!new)>(c: Codec<T>, d: Codec<T>, present: bool)
    requires Relaxes(c, d)
    ensures Relaxes(OptionBody(c, present), OptionBody(d, present))
  {
    OptionBodyLawful(d, present);
    if present {
      forall s: Bytes | c.dec(s).Some? ensures c.ok(c.dec(s).value.0) { }
    }
  }

  lemma DepRelaxes<A(!new), B(!new)>(
    h: Codec<A>, h': Codec<A>, key: B -> A, body: A -> Codec<B>, body': A -> Codec<B>)
    requires Relaxes(h, h')
    requires forall k: A :: Relaxes(body(k), body'(k))
    requires forall k: A, y: B :: h'.ok(k) && body'(k).ok(y) ==> key(y) == k
    ensures Relaxes(Dep(h, key, body), Dep(h', key, body'))
  {
    forall k: A ensures Lawful(body'(k)) { assert Relaxes(body(k), body'(k)); }
    DepLawful(h', key, body');
    var c, d := Dep(h, key, body), Dep(h', key, body');
    forall y: B ensures c.enc(y) == d.enc(y) && (c.ok(y) <==> d.ok(y)) {
      assert Relaxes(body(key(y)), body'(key(y)));
    }
    forall s: Bytes | d.dec(s).Some? ensures c.dec(s) == d.dec(s) {
      var (k, r) := h'.dec(s).value;
      assert Relaxes(body(k), body'(k));
    }
    forall s: Bytes | c.dec(s).Some? ensures c.ok(c.dec(s).value.0) {
      var (k, r) := h.dec(s).value;
      assert Relaxes(body(k), body'(k));
      var y := body(k).dec(r).value.0;
      assert h'.ok(k) && body'(k).ok(y);
    }
  }

  lemma CountedRelaxes<T(!new)>(head: Codec<nat>, c: Codec<T>, d: Codec<T>)
    requires Lawful(head) && Relaxes(c, d)
    ensures Relaxes(Counted(head, c), Counted(head, d))
  {
    RelaxesItself(head);
    forall n: nat ensures Relaxes(Repeat(c, n), Repeat(d, n)) { RepeatRelaxes(c, d, n); }
    DepRelaxes(head, head, (xs: seq<T>) => |xs|, (n: nat) => Repeat(c, n), (n: nat) => Repeat(d, n));
  }

  lemma PresenceRelaxes<T(!new)>(flag: Codec<bool>, flag': Codec<bool>, c: Codec<T>, d: Codec<T>)
    requires Relaxes(flag, flag') && Relaxes(c, d)
    ensures Relaxes(Presence(flag, c), Presence(flag', d))
  {
    forall b: bool ensures Relaxes(OptionBody(c, b), OptionBody(d, b)) { OptionBodyRelaxes(c, d, b); }
    DepRelaxes(flag, flag', (o: Option<T>) => o.Some?,
               (b: bool) => OptionBody(c, b), (b: bool) => OptionBody(d, b));
  }

  lemma LaxBoolRelaxes()
    ensures Relaxes(LaxBool(), StrictBool())
    ensures LaxBool().dec([2]) == Some((true, [])) && LaxBool().enc(true) != [2]
    ensures RoundTrips(LaxBool()) && !Canonical(LaxBool())
  {
    StrictBoolLawful();
    RelaxedRoundTrips(LaxBool(), StrictBool());
    var s: Bytes := [2];
    assert s[1..] == [];
    assert LaxBool().dec(s) == Some((true, []));
  }

  // ---- fixed-width fields ----

  // A lawful codec for every value of its type, always n bytes wide.
  ghost predicate Field<T(!new)>(c: Codec<T>, n: nat) {
    Lawful(c) && Total(c) && FixedWidth(c, n)
  }

  lemma PrimitiveFields()
    ensures Field(U8(), 1) && Field(U16(), 2) && Field(U32(), 4) && Field(U64(), 8) && Field(B32(), 32)
  {
    Primitives();
  }

  lemma FieldPair<A(!new), B(!new)>(a: Codec<A>, m: nat, b: Codec<B>, n: nat)
    requires Field(a, m) && Field(b, n)
    ensures Field(Pair(a, b), m + n)
  {
    PairLawful(a, b);
    PairFixed(a, b, m, n);
    forall p: (A, B) ensures Pair(a, b).ok(p) { assert a.ok(p.0) && b.ok(p.1); }
  }

  lemma FieldIso<A(!new), B(!new)>(c: Codec<A>, n: nat, to: A -> B, from: B -> A)
    requires Field(c, n)
    requires forall x: A :: from(to(x)) == x
    requires forall y: B :: to(from(y)) == y
    ensures Field(Iso(c, to, from), n)
  {
    IsoLawful(c, to, from);
    IsoFixed(c, to, from, n);
    forall y: B ensures Iso(c, to, from).ok(y) { assert c.ok(from(y)) && to(from(y)) == y; }
  }

  // An enumeration written as one byte.
  function Enum<T(==)>(isTag: byte -> bool, of: byte -> T, tag: T -> byte): Codec<T> {
    Iso<byte, T>(Refine(U8(), isTag), of, tag)
  }

  lemma EnumField<T(!new)>(isTag: byte -> bool, of: byte -> T, tag: T -> byte)
    requires forall x: T :: isTag(tag(x)) && of(tag(x)) == x
    requires forall b: byte :: isTag(b) ==> tag(of(b)) == b
    ensures Field(Enum(isTag, of, tag), 1)
  {
    U8Lawful();
    var c := Refine(U8(), isTag);
    assert Lawful(c) by { RefineLawful(U8(), isTag); }
    assert FixedWidth(c, 1) by { RefineFixed(U8(), isTag, 1); }
    forall x: byte ensures c.ok(x) <==> isTag(x) { assert U8().ok(x); }
    assert Lawful(Iso<byte, T>(c, of, tag)) by { IsoLawful<byte, T>(c, of, tag); }
    assert FixedWidth(Iso<byte, T>(c, of, tag), 1) by { IsoFixed<byte, T>(c, of, tag, 1); }
    forall x: T ensures Enum(isTag, of, tag).ok(x) { assert c.ok(tag(x)); }
  }

  lemma PrefixedField<T(!new)>(m: Bytes, c: Codec<T>, n: nat)
    requires Field(c, n)
    ensures Field(Prefixed(m, c), |m| + n)
  {
    PrefixedLawful(m, c);
  }

  // ---- which values a combinator accepts ----

  lemma PresenceOk<T>(flag: Codec<bool>, c: Codec<T>, o: Option<T>)
    requires flag.ok(true) && flag.ok(false)
    ensures Presence(flag, c).ok(o) <==> (o.Some? ==> c.ok(o.value))
  {
  }

  lemma CountedOk<T>(head: Codec<nat>, c: Codec<T>, xs: seq<T>)
    ensures Counted(head, c).ok(xs) <==> head.ok(|xs|) && OkEach(c, xs)
  {
  }

  lemma BlobOk(head: Codec<nat>, b: Bytes)
    ensures Blob(head).ok(b) <==> head.ok(|b|)
  {
  }

  lemma PairOk<A, B>(a: Codec<A>, b: Codec<B>, p: (A, B))
    ensures Pair(a, b).ok(p) <==> a.ok(p.0) && b.ok(p.1)
  {
  }

  lemma IsoOk<A, B>(c: Codec<A>, to: A -> B, from: B -> A, y: B)
    ensures Iso(c, to, from).ok(y) <==> c.ok(from(y)) && to(from(y)) == y
  {
  }
}
