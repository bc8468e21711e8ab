/**
 `Writer` and `Reader` (rgk-core encoding.rs): a buffer that grows and a cursor that
 advances. Every method is tied to the codec of what it writes or reads.
 */
module Wire {
  import opened Bytes
  import opened Codec
  import opened Core

  class Writer {
    var buf: Bytes

    constructor ()
      ensures buf == []
    {
      buf := [];
    }

    method WriteBytes(b: Bytes)
      modifies this
      ensures buf == old(buf) + b
    {
      buf := buf + b;
    }

    method WriteU8(v: byte)
      modifies this
      ensures buf == old(buf) + U8().enc(v)
    {
      assert U8().enc(v) == Int(1).enc(FromU8(v)) == LE(1, v);
      buf := buf + LE(1, v);
    }

    method WriteU16(v: u16)
      modifies this
      ensures buf == old(buf) + U16().enc(v)
    {
      assert U16().enc(v) == Int(2).enc(FromU16(v)) == LE(2, v);
      buf := buf + LE(2, v);
    }

    method WriteU32(v: u32)
      modifies this
      ensures buf == old(buf) + U32().enc(v) == old(buf) + Int(4).enc(v)
    {
      assert U32().enc(v) == Int(4).enc(FromU32(v)) == LE(4, v);
      buf := buf + LE(4, v);
    }

    method WriteBytes32(b: Bytes32)
      modifies this
      ensures buf == old(buf) + B32().enc(b)
    {
      buf := buf + b;
    }

    method WriteBlob(b: Bytes)
      requires |b| < 0x1_0000_0000
      modifies this
      ensures buf == old(buf) + (Int(4).enc(|b|) + b)
    {
      WriteU32(|b|);
      buf := buf + b;
    }
  }

  // What reading through a codec means: the value and what is left, or nothing.
  ghost predicate Reads<T>(c: Codec<T>, before: Bytes, r: Option<T>, after: Bytes) {
    match r
    case None => c.dec(before).None?
    case Some(x) => c.dec(before) == Some((x, after))
  }

  class Reader {
    const buf: Bytes
    var pos: nat

    ghost predicate Valid()
      reads this
    {
      pos <= |buf|
    }

    // What is left to read.
    ghost function Rest(): Bytes
      requires Valid()
      reads this
    {
      buf[pos..]
    }

    constructor (buf: Bytes)
      ensures Valid() && this.buf == buf && Rest() == buf
    {
      this.buf := buf;
      pos := 0;
    }

    // `take`
    method Advance(n: nat) returns (r: Option<Bytes>)
      requires Valid()
      modifies this
      ensures Valid() && Reads(Take(n), old(Rest()), r, Rest())
      ensures r.None? ==> pos == old(pos)
    {
      if pos + n > |buf| { return None; }
      var s := buf[pos..pos + n];
      assert buf[pos..][..n] == s && buf[pos..][n..] == buf[pos + n..];
      pos := pos + n;
      return Some(s);
    }

    method ReadInt(k: nat) returns (r: Option<nat>)
      requires Valid()
      modifies this
      ensures Valid() && Reads(Int(k), old(Rest()), r, Rest())
      ensures r.Some? ==> r.value < Pow256(k)
    {
      var s := Advance(k);
      if s.None? { return None; }
      return Some(FromLE(s.value));
    }

    method ReadU8() returns (r: Option<byte>)
      requires Valid()
      modifies this
      ensures Valid() && Reads(U8(), old(Rest()), r, Rest())
    {
      var n := ReadInt(1);
      Pow256Values();
      if n.None? { return None; }
      return Some(n.value);
    }

    method ReadU16() returns (r: Option<u16>)
      requires Valid()
      modifies this
      ensures Valid() && Reads(U16(), old(Rest()), r, Rest())
    {
      var n := ReadInt(2);
      Pow256Values();
      if n.None? { return None; }
      return Some(n.value);
    }

    method ReadU32() returns (r: Option<u32>)
      requires Valid()
      modifies this
      ensures Valid() && Reads(U32(), old(Rest()), r, Rest())
      ensures Reads(Int(4), old(Rest()), r, Rest())
    {
      var n := ReadInt(4);
      Pow256Values();
      if n.None? { return None; }
      return Some(n.value);
    }

    method ReadBytes32() returns (r: Option<Bytes32>)
      requires Valid()
      modifies this
      ensures Valid() && Reads(B32(), old(Rest()), r, Rest())
    {
      var s := Advance(32);
      if s.None? { return None; }
      return Some(s.value);
    }

    // `read_blob`, with its cap.
    method ReadBlob() returns (r: Option<Bytes>)
      requires Valid()
      modifies this
      ensures Valid() && Reads(Blob(BlobLength()), old(Rest()), r, Rest())
    {
      var n := ReadU32();
      if n.None? || n.value > MAX_BLOB_BYTES { return None; }
      r := Advance(n.value);
    }

    method EnsureConsumed() returns (ok: bool)
      requires Valid()
      ensures ok <==> Rest() == []
    {
      return pos == |buf|;
    }
  }

  // Whole-buffer reading is reading with nothing left.
  lemma ReadsAll<T>(c: Codec<T>, s: Bytes, r: Option<T>, rest: Bytes)
    requires Reads(c, s, r, rest)
    ensures DecodeAll(c, s) == if r.Some? && rest == [] then r else None
  {
  }

  // ---- reading a record field by field ----

  function Both<A, B>(x: Option<A>, y: Option<B>): Option<(A, B)> {
    if x.Some? && y.Some? then Some((x.value, y.value)) else None
  }

  // Two fields in a row, the second read only if the first was there. `g` says whether
  // anything got this far.
  lemma PairReads<A, B>(g: bool, a: Codec<A>, s: Bytes, x: Option<A>, t: Bytes, b: Codec<B>, y: Option<B>, u: Bytes)
    requires g ==> Reads(a, s, x, t)
    requires g && x.Some? ==> Reads(b, t, y, u)
    ensures g ==> Reads(Pair(a, b), s, Both(x, y), u)
  {
  }

  function Apply<A, B>(to: A -> B, x: Option<A>): Option<B> { if x.Some? then Some(to(x.value)) else None }

  lemma IsoReads<A, B>(c: Codec<A>, to: A -> B, from: B -> A, s: Bytes, x: Option<A>, u: Bytes)
    requires Reads(c, s, x, u)
    ensures Reads(Iso(c, to, from), s, Apply(to, x), u)
  {
  }

  function Only<A>(p: A -> bool, x: Option<A>): Option<A> { if x.Some? && p(x.value) then x else None }

  lemma RefineReads<A>(c: Codec<A>, p: A -> bool, s: Bytes, x: Option<A>, u: Bytes)
    requires Reads(c, s, x, u)
    ensures Reads(Refine(c, p), s, Only(p, x), u)
  {
  }

  // ---- writing a record field by field ----

  lemma WriteHead<A, B>(goal: Bytes, done: Bytes, a: Codec<A>, b: Codec<B>, p: (A, B))
    requires goal == done + Pair(a, b).enc(p)
    ensures goal == (done + a.enc(p.0)) + b.enc(p.1)
  {
  }
}
