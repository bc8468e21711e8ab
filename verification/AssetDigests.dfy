/**
 What the asset grammar's digests commit to: the payload of each digest determines
 the value it was computed from, and an allocation or shape root determines its
 list up to order.
 */
module AssetDigests {
  import opened Bytes
  import opened Codec
  import opened Core
  import opened Hashing
  import opened Sorting
  import opened Tally
  import opened Asset

  // ---- widths and laws of the record encodings ----

  lemma AnchorField()
    ensures Field(AnchorCodec(), 117)
  {
    PrimitiveFields();
    OutpointField();
    ChainByteField();
    FieldPair(U64(), 8, U64(), 8);
    FieldPair(B32(), 32, Pair(U64(), U64()), 16);
    FieldPair(B32(), 32, Pair(B32(), Pair(U64(), U64())), 48);
    FieldPair(OutpointCodec(), 36, Pair(B32(), Pair(B32(), Pair(U64(), U64()))), 80);
    FieldPair(ChainByte(), 1, Pair(OutpointCodec(), Pair(B32(), Pair(B32(), Pair(U64(), U64())))), 116);
    FieldIso(Pair(ChainByte(), Pair(OutpointCodec(), Pair(B32(), Pair(B32(), Pair(U64(), U64()))))), 117,
             ToAnchor, FromAnchor);
  }

  lemma AllocationField()
    ensures Field(AllocationCodec(), 157)
  {
    AnchorField();
    PrimitiveFields();
    FieldPair(U64(), 8, B32(), 32);
    FieldPair(AnchorCodec(), 117, Pair(U64(), B32()), 40);
    FieldIso(Pair(AnchorCodec(), Pair(U64(), B32())), 157,
             (p: (Anchor, (u64, Bytes32))) => Allocation(p.0, p.1.0, p.1.1),
             (a: Allocation) => (a.anchor, (a.amount, a.note)));
  }

  lemma ShapeField()
    ensures Field(ShapeCodec(), 76)
  {
    PrimitiveFields();
    FieldPair(U64(), 8, B32(), 32);
    FieldPair(B32(), 32, Pair(U64(), B32()), 40);
    FieldPair(U32(), 4, Pair(B32(), Pair(U64(), B32())), 72);
    FieldIso(Pair(U32(), Pair(B32(), Pair(U64(), B32()))), 76,
             (p: (u32, (Bytes32, (u64, Bytes32)))) => Shape(p.0, p.1.0, p.1.1.0, p.1.1.1),
             (s: Shape) => (s.outputIndex, (s.covenant, (s.amount, s.note))));
  }

  lemma PrivacyField()
    ensures Field(PrivacyByte(), 1)
  {
    EnumField(IsPrivacyTag, PrivacyOf, PrivacyTag);
  }

  // A run of fixed-width encodings determines the list, count prefix or not.
  lemma EachInjective<T(!new)>(c: Codec<T>, w: nat, xs: seq<T>, ys: seq<T>)
    requires Field(c, w) && w > 0
    requires EncEach(c, xs) == EncEach(c, ys)
    ensures xs == ys
  {
    assert OkEach(c, xs) && OkEach(c, ys);
    EncEachLength(c, w, xs);
    EncEachLength(c, w, ys);
    assert |xs| == |ys| by {
      assert w * |xs| == w * |ys|;
      if |xs| != |ys| { MulCancel(w, |xs|, |ys|); }
    }
    RepeatRoundTrips(c, |xs|);
    Injective(Repeat(c, |xs|), xs, ys);
  }

  lemma MulCancel(w: nat, a: nat, b: nat)
    requires w > 0 && w * a == w * b
    ensures a == b
  {
  }

  // ---- allocation roots ----

  lemma OutpointKeys(a: Allocation, b: Allocation)
    requires a.anchor.outpoint != b.anchor.outpoint
    ensures AllocationKey(a) != AllocationKey(b)
  {
    var k, l := AllocationKey(a), AllocationKey(b);
    assert k[..32] == a.anchor.outpoint.txid && l[..32] == b.anchor.outpoint.txid;
    assert k[32] == a.anchor.outpoint.index && l[32] == b.anchor.outpoint.index;
  }

  lemma DistinctAllocationKeys(s: seq<Allocation>)
    requires DistinctIds(SpentOutpoint, s)
    ensures DistinctKeys(AllocationKey, s)
  {
    forall i, j | 0 <= i < j < |s| ensures AllocationKey(s[i]) != AllocationKey(s[j]) {
      assert SpentOutpoint(s[i]) != SpentOutpoint(s[j]);
      OutpointKeys(s[i], s[j]);
    }
  }

  lemma RootPayloadInjective(a: seq<Allocation>, b: seq<Allocation>)
    ensures RootPayload(a) == RootPayload(b) <==> Sort(AllocationKey, a) == Sort(AllocationKey, b)
  {
    var x, y := Sort(AllocationKey, a), Sort(AllocationKey, b);
    if RootPayload(a) == RootPayload(b) {
      assert RootPayload(a)[4..] == EncEach(AllocationCodec(), x);
      assert RootPayload(b)[4..] == EncEach(AllocationCodec(), y);
      AllocationField();
      EachInjective(AllocationCodec(), 157, x, y);
    }
    if x == y {
      SortPermutes(AllocationKey, a);
      SortPermutes(AllocationKey, b);
    }
  }

  // Two allocation sets with distinct outpoints have the same root payload, and so
  // barring a collision the same root, exactly when they are permutations.
  lemma RootPayloadIffPermutation(a: seq<Allocation>, b: seq<Allocation>)
    requires DistinctIds(SpentOutpoint, a) && DistinctIds(SpentOutpoint, b)
    ensures RootPayload(a) == RootPayload(b) <==> multiset(a) == multiset(b)
  {
    DistinctAllocationKeys(a);
    DistinctAllocationKeys(b);
    SortIffPermutation(AllocationKey, a, b);
    RootPayloadInjective(a, b);
  }

  lemma RootIffPermutation(h: Hash, c: ChainId, a: seq<Allocation>, c': ChainId, b: seq<Allocation>)
    requires WellFormedSet(c, a) && WellFormedSet(c', b)
    requires CollisionFree(h, {RootPreimage(a), RootPreimage(b)})
    ensures AllocationRoot(h, a) == AllocationRoot(h, b) <==> multiset(a) == multiset(b)
  {
    RootPayloadIffPermutation(a, b);
    if AllocationRoot(h, a) == AllocationRoot(h, b) {
      SameHash(h, "rgk:asset:allocation-root:v1", RootPayload(a), RootPayload(b), {RootPreimage(a), RootPreimage(b)});
    }
  }

  // ---- shape roots ----

  lemma DistinctShapeKeys(s: seq<Shape>)
    requires DistinctIds(ShapeOutput, s)
    ensures DistinctKeys(ShapeKey, s)
  {
    forall i, j | 0 <= i < j < |s| ensures ShapeKey(s[i]) != ShapeKey(s[j]) {
      assert ShapeOutput(s[i]) != ShapeOutput(s[j]);
      assert ShapeKey(s[i])[0] != ShapeKey(s[j])[0];
    }
  }

  lemma ShapePayloadInjective(c: ChainId, a: seq<Shape>, c': ChainId, b: seq<Shape>)
    ensures ShapeRootPayload(c, a) == ShapeRootPayload(c', b) <==> c == c' && Sort(ShapeKey, a) == Sort(ShapeKey, b)
  {
    var x, y := Sort(ShapeKey, a), Sort(ShapeKey, b);
    if ShapeRootPayload(c, a) == ShapeRootPayload(c', b) {
      assert ShapeRootPayload(c, a)[0] == ChainTag(c) && ShapeRootPayload(c', b)[0] == ChainTag(c');
      assert ShapeRootPayload(c, a)[5..] == EncEach(ShapeCodec(), x);
      assert ShapeRootPayload(c', b)[5..] == EncEach(ShapeCodec(), y);
      ShapeField();
      EachInjective(ShapeCodec(), 76, x, y);
    }
    if x == y {
      SortPermutes(ShapeKey, a);
      SortPermutes(ShapeKey, b);
    }
  }

  // Shape roots also bind the chain.
  lemma ShapeRootIffPermutation(h: Hash, c: ChainId, a: seq<Shape>, c': ChainId, b: seq<Shape>)
    requires WellFormedShapes(a) && WellFormedShapes(b)
    requires CollisionFree(h, {ShapeRootPreimage(c, a), ShapeRootPreimage(c', b)})
    ensures ShapeRoot(h, c, a) == ShapeRoot(h, c', b) <==> c == c' && multiset(a) == multiset(b)
  {
    DistinctShapeKeys(a);
    DistinctShapeKeys(b);
    SortIffPermutation(ShapeKey, a, b);
    ShapePayloadInjective(c, a, c', b);
    if ShapeRoot(h, c, a) == ShapeRoot(h, c', b) {
      SameHash(h, "rgk:continuation:shape-root:v1", ShapeRootPayload(c, a), ShapeRootPayload(c', b),
               {ShapeRootPreimage(c, a), ShapeRootPreimage(c', b)});
    }
  }

  // ---- proof policies ----

  lemma ImagesPayloadInjective(p: ImageIdPolicy, q: ImageIdPolicy)
    ensures ImagesPayload(p) == ImagesPayload(q) <==> p == q
  {
    if ImagesPayload(p) == ImagesPayload(q) {
      assert ImagesPayload(p)[0] == ImagesPayload(q)[0];
      match p
      case Fixed(a) =>
        assert ImagesPayload(p)[1..] == a && ImagesPayload(q)[1..] == q.imageId;
      case AllowedSet(a) =>
        assert ImagesPayload(p)[5..] == EncEach(B32(), a);
        assert ImagesPayload(q)[5..] == EncEach(B32(), q.ids);
        PrimitiveFields();
        EachInjective(B32(), 32, a, q.ids);
      case PolicyBranch(a) =>
        assert ImagesPayload(p)[1..] == a && ImagesPayload(q)[1..] == q.branch;
    }
  }

  lemma PolicyPayloadInjective(p: ProofPolicy, q: ProofPolicy)
    ensures PolicyPayload(p) == PolicyPayload(q) <==> p == q
  {
    var x, y := PolicyPayload(p), PolicyPayload(q);
    if x == y {
      assert x[0] == y[0];
      assert x[1..33] == y[1..33];
      match p
      case VerifierPolicy(k) =>
        assert x[1..33] == k && y[1..33] == q.keyHash;
      case ZkPolicy(k, images) =>
        assert x[1..33] == k && y[1..33] == q.keyId;
        assert x[33..] == ImagesPayload(images) && y[33..] == ImagesPayload(q.images);
        ImagesPayloadInjective(images, q.images);
      case HybridPolicy(a, b) =>
        assert x[1..33] == a && y[1..33] == q.keyHash;
        assert x[33..] == b && y[33..] == q.keyId;
    }
  }

  // ---- state digests ----

  lemma StatePayloadInjective(h: Hash, s: StateInput, t: StateInput)
    requires StatePayload(h, s) == StatePayload(h, t)
    ensures s.asset == t.asset && s.totalSupply == t.totalSupply
    ensures AllocationRoot(h, s.allocations) == AllocationRoot(h, t.allocations)
    ensures PolicyCommitment(h, s.policy) == PolicyCommitment(h, t.policy)
    ensures s.metadata == t.metadata && s.owner == t.owner && s.privacy == t.privacy && s.lane == t.lane
  {
    var s1, t1 := s.asset + LE(8, s.totalSupply), t.asset + LE(8, t.totalSupply);
    var s2, t2 := s1 + AllocationRoot(h, s.allocations), t1 + AllocationRoot(h, t.allocations);
    var s3, t3 := s2 + PolicyCommitment(h, s.policy), t2 + PolicyCommitment(h, t.policy);
    var s4, t4 := s3 + s.metadata, t3 + t.metadata;
    var s5, t5 := s4 + s.owner, t4 + t.owner;
    var s6, t6 := s5 + [PrivacyTag(s.privacy)], t5 + [PrivacyTag(t.privacy)];
    Peel(s6, s.lane, t6, t.lane);
    Peel(s5, [PrivacyTag(s.privacy)], t5, [PrivacyTag(t.privacy)]);
    Peel(s4, s.owner, t4, t.owner);
    Peel(s3, s.metadata, t3, t.metadata);
    Peel(s2, PolicyCommitment(h, s.policy), t2, PolicyCommitment(h, t.policy));
    Peel(s1, AllocationRoot(h, s.allocations), t1, AllocationRoot(h, t.allocations));
    Peel(s.asset, LE(8, s.totalSupply), t.asset, LE(8, t.totalSupply));
    Pow256Values();
    FromLEInvertsLE(8, s.totalSupply);
    FromLEInvertsLE(8, t.totalSupply);
  }

  lemma Peel(a: Bytes, b: Bytes, c: Bytes, d: Bytes)
    requires a + b == c + d && |b| == |d|
    ensures a == c && b == d
  {
    assert (a + b)[..|a|] == a && (c + d)[..|c|] == c;
    assert (a + b)[|a|..] == b && (c + d)[|c|..] == d;
  }

  // Every hash preimage behind one state digest.
  function StatePreimages(h: Hash, s: StateInput): set<Bytes> {
    {RootPreimage(s.allocations), PolicyPreimage(s.policy), StatePreimage(h, s)}
  }

  ghost predicate SameState(s: StateInput, t: StateInput) {
    && s.asset == t.asset && s.totalSupply == t.totalSupply && s.lane == t.lane && s.privacy == t.privacy
    && s.policy == t.policy && s.metadata == t.metadata && s.owner == t.owner
    && multiset(s.allocations) == multiset(t.allocations)
  }

  // A state digest binds the whole state, its allocations up to order.
  lemma DigestIffSameState(h: Hash, s: StateInput, t: StateInput, preimages: set<Bytes>)
    requires DistinctIds(SpentOutpoint, s.allocations) && DistinctIds(SpentOutpoint, t.allocations)
    requires StatePreimages(h, s) + StatePreimages(h, t) <= preimages
    requires CollisionFree(h, preimages)
    ensures StateDigest(h, s) == StateDigest(h, t) <==> SameState(s, t)
  {
    RootPayloadIffPermutation(s.allocations, t.allocations);
    if StateDigest(h, s) == StateDigest(h, t) {
      assert StatePreimage(h, s) in preimages && StatePreimage(h, t) in preimages;
      SameHash(h, "rgk:asset:state:v2", StatePayload(h, s), StatePayload(h, t), preimages);
      StatePayloadInjective(h, s, t);
      assert PolicyPreimage(s.policy) in preimages && PolicyPreimage(t.policy) in preimages;
      SameHash(h, "rgk:asset:policy:v1", PolicyPayload(s.policy), PolicyPayload(t.policy), preimages);
      PolicyPayloadInjective(s.policy, t.policy);
      assert RootPreimage(s.allocations) in preimages && RootPreimage(t.allocations) in preimages;
      SameHash(h, "rgk:asset:allocation-root:v1", RootPayload(s.allocations), RootPayload(t.allocations), preimages);
    }
  }
}
