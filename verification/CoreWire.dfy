/**
 The canonical types written and read through `Writer` and `Reader`: the imperative
 `encode` and `decode` of rgk-core, each proved equal to the codec of its type.
 */
module CoreWire {
  import opened Bytes
  import opened Codec
  import opened Core
  import opened Wire

  // ---- tagged enumerations ----

  method WriteTagged(w: Writer, letter: byte, tag: byte)
    modifies w
    ensures w.buf == old(w.buf) + [letter, tag]
  {
    OneByte(letter);
    OneByte(tag);
    w.WriteU8(letter);
    w.WriteU8(tag);
  }

  lemma OneByte(b: byte)
    ensures U8().enc(b) == [b]
  {
    assert U8().enc(b) == Int(1).enc(FromU8(b)) == LE(1, b);
    assert LE(1, b) == [b % 256] + LE(0, b / 256);
  }

  lemma TaggedBytes<T>(letter: byte, isTag: byte -> bool, of: byte -> T, tag: T -> byte, x: T)
    ensures Prefixed([letter], Enum(isTag, of, tag)).enc(x) == [letter, tag(x)]
  {
    OneByte(tag(x));
  }

  method ReadTagged<T(==)>(r: Reader, letter: byte, isTag: byte -> bool, of: byte -> T, tag: T -> byte)
    returns (x: Option<T>)
    requires r.Valid()
    modifies r
    ensures r.Valid() && Reads(Prefixed([letter], Enum(isTag, of, tag)), old(r.Rest()), x, r.Rest())
  {
    ghost var s := r.Rest();
    var first := r.ReadU8();
    ghost var t := r.Rest();
    TaggedHead(s, letter, first, t);
    if first.None? || first.value != letter {
      TaggedFails(letter, isTag, of, tag, s);
      return None;
    }
    var second := r.ReadU8();
    TaggedReads(letter, isTag, of, tag, s, t, second, r.Rest());
    if second.None? || !isTag(second.value) { return None; }
    return Some(of(second.value));
  }

  lemma TaggedHead(s: Bytes, letter: byte, first: Option<byte>, t: Bytes)
    requires Reads(U8(), s, first, t)
    ensures first == Some(letter) ==> Magic([letter]).dec(s) == Some(((), t))
    ensures first != Some(letter) ==> Magic([letter]).dec(s) == None
  {
    if s != [] {
      assert s[..1] == [s[0]];
      assert FromLE(s[..1]) == s[0] + 256 * FromLE(s[..1][1..]);
    }
  }

  lemma TaggedFails<T>(letter: byte, isTag: byte -> bool, of: byte -> T, tag: T -> byte, s: Bytes)
    requires Magic([letter]).dec(s) == None
    ensures Prefixed([letter], Enum(isTag, of, tag)).dec(s) == None
  {
  }

  lemma TaggedReads<T>(letter: byte, isTag: byte -> bool, of: byte -> T, tag: T -> byte, s: Bytes, t: Bytes,
                       second: Option<byte>, u: Bytes)
    requires Magic([letter]).dec(s) == Some(((), t)) && Reads(U8(), t, second, u)
    ensures Prefixed([letter], Enum(isTag, of, tag)).dec(s)
            == if second.Some? && isTag(second.value) then Some((of(second.value), u)) else None
  {
  }

  method WriteChain(w: Writer, c: ChainId)
    modifies w
    ensures w.buf == old(w.buf) + Chain().enc(c)
  {
    TaggedBytes(0x4b, IsChainTag, ChainOf, ChainTag, c);
    WriteTagged(w, 0x4b, ChainTag(c));
  }

  method ReadChain(r: Reader) returns (c: Option<ChainId>)
    requires r.Valid()
    modifies r
    ensures r.Valid() && Reads(Chain(), old(r.Rest()), c, r.Rest())
  {
    c := ReadTagged(r, 0x4b, IsChainTag, ChainOf, ChainTag);
  }

  method WritePolicy(w: Writer, p: ReceiptPolicy)
    modifies w
    ensures w.buf == old(w.buf) + Policy().enc(p)
  {
    TaggedBytes(0x52, IsTag3, PolicyOf, PolicyTag, p);
    WriteTagged(w, 0x52, PolicyTag(p));
  }

  method ReadPolicy(r: Reader) returns (p: Option<ReceiptPolicy>)
    requires r.Valid()
    modifies r
    ensures r.Valid() && Reads(Policy(), old(r.Rest()), p, r.Rest())
  {
    p := ReadTagged(r, 0x52, IsTag3, PolicyOf, PolicyTag);
  }

  method WriteMode(w: Writer, m: ProofMode)
    modifies w
    ensures w.buf == old(w.buf) + Mode().enc(m)
  {
    TaggedBytes(0x50, IsTag3, ModeOf, ModeTag, m);
    WriteTagged(w, 0x50, ModeTag(m));
  }

  method ReadMode(r: Reader) returns (m: Option<ProofMode>)
    requires r.Valid()
    modifies r
    ensures r.Valid() && Reads(Mode(), old(r.Rest()), m, r.Rest())
  {
    m := ReadTagged(r, 0x50, IsTag3, ModeOf, ModeTag);
  }

  // ---- state commitments ----

  method WriteCommitment(w: Writer, s: StateCommitment)
    modifies w
    ensures w.buf == old(w.buf) + RawCommitment().enc(s)
  {
    ghost var done := w.buf;
    ghost var goal := done + RawCommitment().enc(s);
    var f := FromCommitment(s);
    ghost var c4 := Pair(B32(), Policy());
    ghost var c3 := Pair(B32(), c4);
    ghost var c2 := Pair(B32(), c3);
    ghost var c1 := Pair(Chain(), c2);
    assert goal == done + Pair(U16(), c1).enc(f);
    WriteHead(goal, w.buf, U16(), c1, f);
    w.WriteU16(s.version);
    WriteHead(goal, w.buf, Chain(), c2, f.1);
    WriteChain(w, s.chain);
    WriteHead(goal, w.buf, B32(), c3, f.1.1);
    w.WriteBytes32(s.covenant);
    WriteHead(goal, w.buf, B32(), c4, f.1.1.1);
    w.WriteBytes32(s.asset);
    WriteHead(goal, w.buf, B32(), Policy(), f.1.1.1.1);
    w.WriteBytes32(s.digest);
    WritePolicy(w, s.policy);
  }

  method ReadRawCommitment(r: Reader) returns (s: Option<StateCommitment>)
    requires r.Valid()
    modifies r
    ensures r.Valid() && Reads(RawCommitment(), old(r.Rest()), s, r.Rest())
  {
    ghost var t0 := r.Rest();
    var version := r.ReadU16();
    ghost var t1 := r.Rest();
    var chain: Option<ChainId> := None;
    if version.Some? { chain := ReadChain(r); }
    ghost var t2 := r.Rest();
    var covenant: Option<Bytes32> := None;
    if chain.Some? { covenant := r.ReadBytes32(); }
    ghost var t3 := r.Rest();
    var asset: Option<Bytes32> := None;
    if covenant.Some? { asset := r.ReadBytes32(); }
    ghost var t4 := r.Rest();
    var digest: Option<Bytes32> := None;
    if asset.Some? { digest := r.ReadBytes32(); }
    ghost var t5 := r.Rest();
    var policy: Option<ReceiptPolicy> := None;
    if digest.Some? { policy := ReadPolicy(r); }
    ghost var u := r.Rest();
    CommitmentReads(t0, version, t1, chain, t2, covenant, t3, asset, t4, digest, t5, policy, u);
    if policy.None? { return None; }
    return Some(StateCommitment(version.value, chain.value, covenant.value, asset.value, digest.value, policy.value));
  }

  lemma CommitmentReads(t0: Bytes, version: Option<u16>, t1: Bytes, chain: Option<ChainId>, t2: Bytes,
                        covenant: Option<Bytes32>, t3: Bytes, asset: Option<Bytes32>, t4: Bytes,
                        digest: Option<Bytes32>, t5: Bytes, policy: Option<ReceiptPolicy>, u: Bytes)
    requires Reads(U16(), t0, version, t1)
    requires if version.Some? then Reads(Chain(), t1, chain, t2) else chain.None?
    requires if chain.Some? then Reads(B32(), t2, covenant, t3) else covenant.None?
    requires if covenant.Some? then Reads(B32(), t3, asset, t4) else asset.None?
    requires if asset.Some? then Reads(B32(), t4, digest, t5) else digest.None?
    requires if digest.Some? then Reads(Policy(), t5, policy, u) else policy.None?
    ensures Reads(RawCommitment(), t0,
                  if policy.Some? then Some(StateCommitment(version.value, chain.value, covenant.value, asset.value,
                                                            digest.value, policy.value))
                  else None, u)
  {
    var p4 := Both(digest, policy);
    var p3 := Both(asset, p4);
    var p2 := Both(covenant, p3);
    var p1 := Both(chain, p2);
    PairReads(asset.Some?, B32(), t4, digest, t5, Policy(), policy, u);
    PairReads(covenant.Some?, B32(), t3, asset, t4, Pair(B32(), Policy()), p4, u);
    PairReads(chain.Some?, B32(), t2, covenant, t3, Pair(B32(), Pair(B32(), Policy())), p3, u);
    PairReads(version.Some?, Chain(), t1, chain, t2, Pair(B32(), Pair(B32(), Pair(B32(), Policy()))), p2, u);
    PairReads(true, U16(), t0, version, t1, Pair(Chain(), Pair(B32(), Pair(B32(), Pair(B32(), Policy())))), p1, u);
    IsoReads(CommitmentLayout(), ToCommitment, FromCommitment, t0, Both(version, p1), u);
  }

  // `RgkStateCommitment::decode`
  method ReadCommitment(r: Reader) returns (s: Option<StateCommitment>)
    requires r.Valid()
    modifies r
    ensures r.Valid() && Reads(CommitmentCodec(), old(r.Rest()), s, r.Rest())
  {
    ghost var t0 := r.Rest();
    s := ReadRawCommitment(r);
    RefineReads(RawCommitment(), ValidCommitment, t0, s, r.Rest());
    if s.Some? && !ValidCommitment(s.value) { return None; }
  }

  // ---- receipts ----

  method WriteReceiptTail(w: Writer, r: Receipt)
    modifies w
    ensures w.buf == old(w.buf)
                     + ReceiptTail().enc((r.transitionDigest, (r.continuationCommitment, (r.mode, r.replayNonce))))
  {
    var f := (r.transitionDigest, (r.continuationCommitment, (r.mode, r.replayNonce)));
    ghost var goal := w.buf + ReceiptTail().enc(f);
    WriteHead(goal, w.buf, B32(), Pair(B32(), Pair(Mode(), B32())), f);
    w.WriteBytes32(r.transitionDigest);
    WriteHead(goal, w.buf, B32(), Pair(Mode(), B32()), f.1);
    w.WriteBytes32(r.continuationCommitment);
    WriteHead(goal, w.buf, Mode(), B32(), f.1.1);
    WriteMode(w, r.mode);
    w.WriteBytes32(r.replayNonce);
  }

  method WriteReceiptFields(w: Writer, r: Receipt)
    modifies w
    ensures w.buf == old(w.buf) + ReceiptLayout().enc(FromReceipt(r))
  {
    var f := FromReceipt(r);
    ghost var goal := w.buf + ReceiptLayout().enc(f);
    ghost var c4 := Pair(CommitmentCodec(), ReceiptTail());
    ghost var c3 := Pair(CommitmentCodec(), c4);
    ghost var c2 := Pair(B32(), c3);
    WriteHead(goal, w.buf, U16(), Pair(Chain(), c2), f);
    w.WriteU16(r.version);
    WriteHead(goal, w.buf, Chain(), c2, f.1);
    WriteChain(w, r.chain);
    WriteHead(goal, w.buf, B32(), c3, f.1.1);
    w.WriteBytes32(r.covenant);
    WriteHead(goal, w.buf, CommitmentCodec(), c4, f.1.1.1);
    WriteCommitment(w, r.oldState);
    WriteHead(goal, w.buf, CommitmentCodec(), ReceiptTail(), f.1.1.1.1);
    WriteCommitment(w, r.newState);
    WriteReceiptTail(w, r);
  }

  // `encode_canonical`: magic, version, body.
  method EncodeReceipt(r: Receipt) returns (bytes: Bytes)
    ensures bytes == ReceiptCodec().enc(r)
    ensures ValidReceipt(r) ==> DecodeAll(ReceiptCodec(), bytes) == Some(r)
  {
    var w := new Writer();
    w.WriteBytes(DOMAIN_MAGIC);
    w.WriteU16(ENCODING_VERSION);
    HeaderBytes();
    assert w.buf == WIRE_HEADER;
    WriteReceiptFields(w, r);
    ReceiptBytes(r);
    ReceiptWireBijection(r, w.buf);
    return w.buf;
  }

  lemma HeaderBytes()
    ensures DOMAIN_MAGIC + U16().enc(ENCODING_VERSION) == WIRE_HEADER
  {
    VersionBytes();
  }

  lemma ReceiptBytes(r: Receipt)
    ensures ReceiptCodec().enc(r) == WIRE_HEADER + ReceiptLayout().enc(FromReceipt(r))
  {
    PrefixBytes(WIRE_HEADER, Refine(Iso(ReceiptLayout(), ToReceipt, FromReceipt), ValidReceipt), r);
  }

  lemma PrefixBytes<T>(m: Bytes, c: Codec<T>, x: T)
    ensures Prefixed(m, c).enc(x) == m + c.enc(x)
  {
  }

  lemma PrefixReads<T>(m: Bytes, c: Codec<T>, s: Bytes, x: Option<T>, u: Bytes)
    requires |m| <= |s| && s[..|m|] == m && Reads(c, s[|m|..], x, u)
    ensures Reads(Prefixed(m, c), s, x, u)
  {
  }

  method ReadReceiptTail(r: Reader) returns (f: Option<(Bytes32, (Bytes32, (ProofMode, Bytes32)))>)
    requires r.Valid()
    modifies r
    ensures r.Valid() && Reads(ReceiptTail(), old(r.Rest()), f, r.Rest())
  {
    ghost var t0 := r.Rest();
    var digest := r.ReadBytes32();
    ghost var t1 := r.Rest();
    var commitment: Option<Bytes32> := None;
    if digest.Some? { commitment := r.ReadBytes32(); }
    ghost var t2 := r.Rest();
    var mode: Option<ProofMode> := None;
    if commitment.Some? { mode := ReadMode(r); }
    ghost var t3 := r.Rest();
    var nonce: Option<Bytes32> := None;
    if mode.Some? { nonce := r.ReadBytes32(); }
    ghost var u := r.Rest();
    var p2 := Both(mode, nonce);
    var p1 := Both(commitment, p2);
    f := Both(digest, p1);
    PairReads(commitment.Some?, Mode(), t2, mode, t3, B32(), nonce, u);
    PairReads(digest.Some?, B32(), t1, commitment, t2, Pair(Mode(), B32()), p2, u);
    PairReads(true, B32(), t0, digest, t1, Pair(B32(), Pair(Mode(), B32())), p1, u);
  }

  method ReadReceiptFields(r: Reader) returns (f: Option<ReceiptFields>)
    requires r.Valid()
    modifies r
    ensures r.Valid() && Reads(ReceiptLayout(), old(r.Rest()), f, r.Rest())
  {
    ghost var t0 := r.Rest();
    var version := r.ReadU16();
    ghost var t1 := r.Rest();
    var chain: Option<ChainId> := None;
    if version.Some? { chain := ReadChain(r); }
    ghost var t2 := r.Rest();
    var covenant: Option<Bytes32> := None;
    if chain.Some? { covenant := r.ReadBytes32(); }
    ghost var t3 := r.Rest();
    var before: Option<StateCommitment> := None;
    if covenant.Some? { before := ReadCommitment(r); }
    ghost var t4 := r.Rest();
    var after: Option<StateCommitment> := None;
    if before.Some? { after := ReadCommitment(r); }
    ghost var t5 := r.Rest();
    var tail: Option<(Bytes32, (Bytes32, (ProofMode, Bytes32)))> := None;
    if after.Some? { tail := ReadReceiptTail(r); }
    f := Both(version, Both(chain, Both(covenant, Both(before, Both(after, tail)))));
    ReceiptFieldsRead(t0, version, t1, chain, t2, covenant, t3, before, t4, after, t5, tail, r.Rest());
  }

  lemma ReceiptFieldsRead(t0: Bytes, version: Option<u16>, t1: Bytes, chain: Option<ChainId>, t2: Bytes,
                          covenant: Option<Bytes32>, t3: Bytes, before: Option<StateCommitment>, t4: Bytes,
                          after: Option<StateCommitment>, t5: Bytes,
                          tail: Option<(Bytes32, (Bytes32, (ProofMode, Bytes32)))>, u: Bytes)
    requires Reads(U16(), t0, version, t1)
    requires if version.Some? then Reads(Chain(), t1, chain, t2) else chain.None?
    requires if chain.Some? then Reads(B32(), t2, covenant, t3) else covenant.None?
    requires if covenant.Some? then Reads(CommitmentCodec(), t3, before, t4) else before.None?
    requires if before.Some? then Reads(CommitmentCodec(), t4, after, t5) else after.None?
    requires if after.Some? then Reads(ReceiptTail(), t5, tail, u) else tail.None?
    ensures Reads(ReceiptLayout(), t0, Both(version, Both(chain, Both(covenant, Both(before, Both(after, tail))))), u)
  {
    var c4 := Pair(CommitmentCodec(), ReceiptTail());
    var c3 := Pair(CommitmentCodec(), c4);
    var p4 := Both(after, tail);
    var p3 := Both(before, p4);
    var p2 := Both(covenant, p3);
    PairReads(before.Some?, CommitmentCodec(), t4, after, t5, ReceiptTail(), tail, u);
    PairReads(covenant.Some?, CommitmentCodec(), t3, before, t4, c4, p4, u);
    PairReads(chain.Some?, B32(), t2, covenant, t3, c3, p3, u);
    PairReads(version.Some?, Chain(), t1, chain, t2, Pair(B32(), c3), p2, u);
    PairReads(true, U16(), t0, version, t1, Pair(Chain(), Pair(B32(), c3)), Both(chain, p2), u);
  }

  // `decode_canonical`: magic, version, body, nothing behind it.
  method DecodeReceipt(bytes: Bytes) returns (x: Option<Receipt>)
    ensures x == DecodeAll(ReceiptCodec(), bytes)
    ensures x.Some? ==> ValidReceipt(x.value) && ReceiptCodec().enc(x.value) == bytes
  {
    var r := new Reader(bytes);
    var magic := r.Advance(8);
    var version: Option<u16> := None;
    if magic.Some? && magic.value == DOMAIN_MAGIC { version := r.ReadU16(); }
    HeaderReads(bytes, magic, version, r.Rest());
    if version != Some(ENCODING_VERSION) {
      NoPrefix(WIRE_HEADER, Refine(Iso(ReceiptLayout(), ToReceipt, FromReceipt), ValidReceipt), bytes);
      return None;
    }
    ghost var t := r.Rest();
    var f := ReadReceiptFields(r);
    var whole := Only(ValidReceipt, Apply(ToReceipt, f));
    ghost var body := Refine(Iso(ReceiptLayout(), ToReceipt, FromReceipt), ValidReceipt);
    IsoReads(ReceiptLayout(), ToReceipt, FromReceipt, t, f, r.Rest());
    RefineReads(Iso(ReceiptLayout(), ToReceipt, FromReceipt), ValidReceipt, t, Apply(ToReceipt, f), r.Rest());
    PrefixReads(WIRE_HEADER, body, bytes, whole, r.Rest());
    ReadsAll(ReceiptCodec(), bytes, whole, r.Rest());
    var end := r.EnsureConsumed();
    x := if end then whole else None;
    if x.Some? { ReceiptWireBijection(x.value, bytes); }
  }

  lemma VersionReads(s: Bytes, version: Option<u16>, t: Bytes)
    requires Reads(U16(), s, version, t)
    ensures version == Some(ENCODING_VERSION) <==> |s| >= 2 && s[..2] == [1, 0]
    ensures version.Some? ==> |s| >= 2 && t == s[2..]
  {
    U16Lawful();
    assert U16().enc(ENCODING_VERSION) == [1, 0] by { VersionBytes(); }
    if version.Some? {
      assert s == U16().enc(version.value) + t && |U16().enc(version.value)| == 2;
    }
    if |s| >= 2 && s[..2] == [1, 0] {
      assert s == [1, 0] + s[2..];
      assert U16().ok(ENCODING_VERSION);
      assert U16().dec(U16().enc(ENCODING_VERSION) + s[2..]) == Some((ENCODING_VERSION, s[2..]));
    }
  }

  lemma VersionBytes()
    ensures U16().enc(ENCODING_VERSION) == [1, 0]
  {
    assert U16().enc(1) == Int(2).enc(FromU16(1)) == LE(2, 1);
    assert LE(2, 1) == [1] + LE(1, 0) && LE(1, 0) == [0] + LE(0, 0);
  }

  lemma NoPrefix<T>(m: Bytes, c: Codec<T>, s: Bytes)
    requires !(|m| <= |s| && s[..|m|] == m)
    ensures DecodeAll(Prefixed(m, c), s) == None
  {
  }

  // The header is there exactly when the magic matches and the version is right.
  lemma HeaderReads(s: Bytes, magic: Option<Bytes>, version: Option<u16>, t: Bytes)
    requires magic == if |s| < 8 then None else Some(s[..8])
    requires if magic.Some? && magic.value == DOMAIN_MAGIC then Reads(U16(), s[8..], version, t) else version.None?
    ensures version == Some(ENCODING_VERSION) <==> |s| >= 10 && s[..10] == WIRE_HEADER
    ensures version == Some(ENCODING_VERSION) ==> t == s[10..]
  {
    assert WIRE_HEADER == DOMAIN_MAGIC + [1, 0];
    if |s| >= 10 { assert s[..10] == s[..8] + s[8..][..2]; }
    if magic.Some? && magic.value == DOMAIN_MAGIC {
      VersionReads(s[8..], version, t);
      if |s| >= 10 { assert s[8..][2..] == s[10..]; }
    }
    if |s| >= 10 && s[..10] == WIRE_HEADER { assert s[..8] == s[..10][..8]; }
  }
}
