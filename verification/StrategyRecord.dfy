/**
 The production allocation-strategy record (rgk-asset native.rs): a continuation plan
 with the proof strategy recomputed from it, and the canonical bytes of the pair.
 */
module StrategyRecord {
  import opened Bytes
  import opened Codec
  import opened Core
  import opened Hashing
  import opened Tally
  import opened Asset
  import opened AssetDigests
  import opened Continuation

  // ---- strategies ----

  datatype ProofShape = OneInZeroOut | OneInOneOut | TwoInTwoOut | ThreeInTwoOut | FourInTwoOut | FourInFourOut

  datatype Strategy =
    | FixedVector(shape: ProofShape)
    | SegmentedAudit(capacity: u64, spentSegments: u64, newSegments: u64, exclusionPairs: u64, proofEntries: u64)

  const SEGMENT_CAPACITY: u64 := 2

  function SpentCount(s: ProofShape): nat {
    match s
    case OneInZeroOut => 1
    case OneInOneOut => 1
    case TwoInTwoOut => 2
    case ThreeInTwoOut => 3
    case FourInTwoOut => 4
    case FourInFourOut => 4
  }

  function NewCount(s: ProofShape): nat {
    match s
    case OneInZeroOut => 0
    case OneInOneOut => 1
    case TwoInTwoOut => 2
    case ThreeInTwoOut => 2
    case FourInTwoOut => 2
    case FourInFourOut => 4
  }

  function FromCounts(spent: nat, created: nat): (r: Option<ProofShape>)
    ensures r.Some? ==> SpentCount(r.value) == spent && NewCount(r.value) == created
    ensures r.None? ==> forall s: ProofShape :: !(SpentCount(s) == spent && NewCount(s) == created)
  {
    if spent == 1 && created == 0 then Some(OneInZeroOut)
    else if spent == 1 && created == 1 then Some(OneInOneOut)
    else if spent == 2 && created == 2 then Some(TwoInTwoOut)
    else if spent == 3 && created == 2 then Some(ThreeInTwoOut)
    else if spent == 4 && created == 2 then Some(FourInTwoOut)
    else if spent == 4 && created == 4 then Some(FourInFourOut)
    else None
  }

  function Segments(count: nat): nat { (count + SEGMENT_CAPACITY - 1) / SEGMENT_CAPACITY }

  function ForReport(r: ContinuationReport): Result<Strategy, AssetError> {
    match FromCounts(r.spentCount, r.newCount)
    case Some(shape) => Ok(FixedVector(shape))
    case None =>
      if r.burnedSupply != 0 then Err(BurnNotConserving)
      else if r.spentCount == 0 || r.newCount == 0 then Err(EmptyAuditSide)
      else
        var a, b := Segments(r.spentCount), Segments(r.newCount);
        if a * b >= U64_LIMIT || 2 * (a + b) >= U64_LIMIT || 2 * (a + b) + 1 + a * b >= U64_LIMIT
        then Err(GridTooLarge)
        else Audit(a, b)
  }

  function Audit(a: nat, b: nat): Result<Strategy, AssetError>
    requires a * b < U64_LIMIT && 2 * (a + b) + 1 + a * b < U64_LIMIT
  {
    Ok(SegmentedAudit(SEGMENT_CAPACITY, a, b, a * b, 2 * (a + b) + 1 + a * b))
  }

  // ---- plans with their strategy ----

  // The digests of the grammar together with the strategy commitment.
  datatype StrategyDigests = StrategyDigests(base: Digests, strategy: (ContinuationReport, Strategy) -> Bytes32)

  datatype StrategyPlan = StrategyPlan(
    plan: Plan, report: ContinuationReport, strategy: Strategy, commitment: Bytes32)

  // `RgkProductionAllocationStrategyPlan::new`, the only way to make one.
  function NewStrategyPlan(d: StrategyDigests, p: Plan): Result<StrategyPlan, AssetError> {
    var report :- ValidatePlan(d.base, p);
    var strategy :- ForReport(report);
    Ok(StrategyPlan(p, report, strategy, d.strategy(report, strategy)))
  }

  ghost predicate Built(d: StrategyDigests, r: StrategyPlan) {
    NewStrategyPlan(d, r.plan) == Ok(r)
  }

  function StrategyPayload(r: ContinuationReport, s: Strategy): Bytes {
    [ChainTag(r.chain)] + r.schema + r.asset + LE(8, r.totalSupply) + r.previousDigest + r.shapeRoot + r.commitment
    + LE(8, r.spentSupply) + LE(8, r.newSupply) + LE(8, r.burnedSupply) + LE(8, r.spentCount) + LE(8, r.newCount)
    + StrategyTail(s)
  }

  function StrategyTail(s: Strategy): Bytes {
    match s
    case FixedVector(shape) => [0] + LE(8, SpentCount(shape)) + LE(8, NewCount(shape))
    case SegmentedAudit(c, a, b, e, n) => [1] + LE(8, c) + LE(8, a) + LE(8, b) + LE(8, e) + LE(8, n)
  }

  function NativeStrategyDigests(h: Hash): StrategyDigests {
    StrategyDigests(NativeDigests(h),
                    (r: ContinuationReport, s: Strategy) =>
                      DomainHash(h, "rgk:asset:production-allocation-strategy:v1", StrategyPayload(r, s)))
  }

  // ---- codecs ----

  const MAX_ITEMS: nat := 0x8000

  // `write_len` / `read_len`
  function Len(): Codec<nat> { Refine(Int(4), (n: nat) => n <= MAX_ITEMS) }

  lemma LenLawful()
    ensures Lawful(Len())
    ensures forall n: nat :: Len().ok(n) <==> n <= MAX_ITEMS
  {
    IntLawful(4);
    RefineLawful(Int(4), (n: nat) => n <= MAX_ITEMS);
    Pow256Values();
  }

  function BurnCodec(): Codec<Burn> {
    Iso(Pair(U64(), B32()), (p: (u64, Bytes32)) => Burn(p.0, p.1), (b: Burn) => (b.amount, b.authorization))
  }

  lemma BurnField()
    ensures Field(BurnCodec(), 40)
  {
    PrimitiveFields();
    FieldPair(U64(), 8, B32(), 32);
    FieldIso(Pair(U64(), B32()), 40, (p: (u64, Bytes32)) => Burn(p.0, p.1), (b: Burn) => (b.amount, b.authorization));
  }

  function BurnOption(): Codec<Option<Burn>> { Presence(StrictBool(), BurnCodec()) }

  predicate IsSmallTag(b: byte) { b < 3 }

  // A tag byte below three.
  function Tag(): Codec<byte> { Refine(U8(), IsSmallTag) }

  lemma TagLawful()
    ensures Lawful(Tag())
    ensures forall b: byte :: Tag().ok(b) <==> b < 3
  {
    U8Lawful();
    RefineLawful(U8(), IsSmallTag);
    forall b: byte ensures Tag().ok(b) <==> b < 3 { assert U8().ok(b); }
  }

  function ImagesTag(p: ImageIdPolicy): byte {
    match p case Fixed(_) => 0 case AllowedSet(_) => 1 case PolicyBranch(_) => 2
  }

  function FixedOf(b: Bytes32): ImageIdPolicy { Fixed(b) }
  function OfFixed(p: ImageIdPolicy): Bytes32 { if p.Fixed? then p.imageId else ZERO32 }
  function SetOf(s: seq<Bytes32>): ImageIdPolicy { AllowedSet(s) }
  function OfSet(p: ImageIdPolicy): seq<Bytes32> { if p.AllowedSet? then p.ids else [] }
  function BranchOf(b: Bytes32): ImageIdPolicy { PolicyBranch(b) }
  function OfBranch(p: ImageIdPolicy): Bytes32 { if p.PolicyBranch? then p.branch else ZERO32 }

  function ImagesBody(k: byte): Codec<ImageIdPolicy> {
    if k == 0 then Iso<Bytes32, ImageIdPolicy>(B32(), FixedOf, OfFixed)
    else if k == 1 then Iso<seq<Bytes32>, ImageIdPolicy>(Counted(Len(), B32()), SetOf, OfSet)
    else Iso<Bytes32, ImageIdPolicy>(B32(), BranchOf, OfBranch)
  }

  function ImagesCodec(): Codec<ImageIdPolicy> { Dep(Tag(), ImagesTag, ImagesBody) }

  predicate SmallImages(p: ImageIdPolicy) { p.AllowedSet? ==> |p.ids| <= MAX_ITEMS }

  lemma IdsCodecLawful()
    ensures Lawful(Counted(Len(), B32()))
    ensures forall s: seq<Bytes32> :: Counted(Len(), B32()).ok(s) <==> |s| <= MAX_ITEMS
  {
    LenLawful();
    B32Lawful();
    CountedLawful(Len(), B32());
  }

  lemma ImagesBodyLawful(k: byte)
    ensures Lawful(ImagesBody(k))
  {
    if k == 1 {
      IdsCodecLawful();
      IsoLawful<seq<Bytes32>, ImageIdPolicy>(Counted(Len(), B32()), SetOf, OfSet);
    } else {
      B32Lawful();
      if k == 0 { IsoLawful<Bytes32, ImageIdPolicy>(B32(), FixedOf, OfFixed); }
      else { IsoLawful<Bytes32, ImageIdPolicy>(B32(), BranchOf, OfBranch); }
    }
  }

  lemma ImagesBodyOk(k: byte, p: ImageIdPolicy)
    requires k < 3
    ensures ImagesBody(k).ok(p) <==> ImagesTag(p) == k && SmallImages(p)
  {
    assert B32().ok(OfFixed(p)) && B32().ok(OfBranch(p)) by { B32Lawful(); }
    assert Counted(Len(), B32()).ok(OfSet(p)) <==> |OfSet(p)| <= MAX_ITEMS by { IdsCodecLawful(); }
  }

  lemma ImagesLawful()
    ensures Lawful(ImagesCodec())
    ensures forall p: ImageIdPolicy :: ImagesCodec().ok(p) <==> SmallImages(p)
  {
    TagLawful();
    forall k: byte ensures Lawful(ImagesBody(k)) { ImagesBodyLawful(k); }
    forall k: byte, p: ImageIdPolicy | k < 3
      ensures ImagesBody(k).ok(p) <==> ImagesTag(p) == k && SmallImages(p)
    {
      ImagesBodyOk(k, p);
    }
    DepLawful(Tag(), ImagesTag, ImagesBody);
    forall p: ImageIdPolicy ensures ImagesCodec().ok(p) <==> SmallImages(p) {
      assert Tag().ok(ImagesTag(p));
      ImagesBodyOk(ImagesTag(p), p);
    }
  }

  function PolicyTagByte(p: ProofPolicy): byte {
    match p case VerifierPolicy(_) => 0 case ZkPolicy(_, _) => 1 case HybridPolicy(_, _) => 2
  }

  function VerifierOf(b: Bytes32): ProofPolicy { VerifierPolicy(b) }
  function OfVerifier(p: ProofPolicy): Bytes32 { if p.VerifierPolicy? then p.keyHash else ZERO32 }
  function ZkOf(x: (Bytes32, ImageIdPolicy)): ProofPolicy { ZkPolicy(x.0, x.1) }
  function OfZk(p: ProofPolicy): (Bytes32, ImageIdPolicy) {
    if p.ZkPolicy? then (p.keyId, p.images) else (ZERO32, Fixed(ZERO32))
  }
  function HybridOf(x: (Bytes32, Bytes32)): ProofPolicy { HybridPolicy(x.0, x.1) }
  function OfHybrid(p: ProofPolicy): (Bytes32, Bytes32) {
    if p.HybridPolicy? then (p.keyHash, p.keyId) else (ZERO32, ZERO32)
  }

  function PolicyBody(k: byte): Codec<ProofPolicy> {
    if k == 0 then Iso<Bytes32, ProofPolicy>(B32(), VerifierOf, OfVerifier)
    else if k == 1 then Iso<(Bytes32, ImageIdPolicy), ProofPolicy>(Pair(B32(), ImagesCodec()), ZkOf, OfZk)
    else Iso<(Bytes32, Bytes32), ProofPolicy>(Pair(B32(), B32()), HybridOf, OfHybrid)
  }

  function PolicyCodec(): Codec<ProofPolicy> { Dep(Tag(), PolicyTagByte, PolicyBody) }

  predicate SmallPolicy(p: ProofPolicy) { p.ZkPolicy? ==> SmallImages(p.images) }

  lemma PolicyBodyLawful(k: byte)
    ensures Lawful(PolicyBody(k))
  {
    B32Lawful();
    if k == 0 {
      IsoLawful<Bytes32, ProofPolicy>(B32(), VerifierOf, OfVerifier);
    } else if k == 1 {
      ImagesLawful();
      PairLawful(B32(), ImagesCodec());
      IsoLawful<(Bytes32, ImageIdPolicy), ProofPolicy>(Pair(B32(), ImagesCodec()), ZkOf, OfZk);
    } else {
      PairLawful(B32(), B32());
      IsoLawful<(Bytes32, Bytes32), ProofPolicy>(Pair(B32(), B32()), HybridOf, OfHybrid);
    }
  }

  lemma PolicyBodyOk(k: byte, p: ProofPolicy)
    requires k < 3
    ensures PolicyBody(k).ok(p) <==> PolicyTagByte(p) == k && SmallPolicy(p)
  {
    assert forall b: Bytes32 :: B32().ok(b) by { B32Lawful(); }
    assert ImagesCodec().ok(OfZk(p).1) <==> SmallImages(OfZk(p).1) by { ImagesLawful(); }
    assert Pair(B32(), ImagesCodec()).ok(OfZk(p)) <==> SmallImages(OfZk(p).1);
    assert Pair(B32(), B32()).ok(OfHybrid(p));
    assert B32().ok(OfVerifier(p));
  }

  lemma PolicyLawful()
    ensures Lawful(PolicyCodec())
    ensures forall p: ProofPolicy :: PolicyCodec().ok(p) <==> SmallPolicy(p)
  {
    TagLawful();
    forall k: byte ensures Lawful(PolicyBody(k)) { PolicyBodyLawful(k); }
    forall k: byte, p: ProofPolicy | k < 3
      ensures PolicyBody(k).ok(p) <==> PolicyTagByte(p) == k && SmallPolicy(p)
    {
      PolicyBodyOk(k, p);
    }
    DepLawful(Tag(), PolicyTagByte, PolicyBody);
    forall p: ProofPolicy ensures PolicyCodec().ok(p) <==> SmallPolicy(p) {
      assert Tag().ok(PolicyTagByte(p));
      PolicyBodyOk(PolicyTagByte(p), p);
    }
  }

  // ---- the plan ----

  type PlanHead = (ChainId, (Bytes32, (Bytes32, (u64, (Bytes32, (Bytes32, (Bytes32, (Bytes32, Bytes32))))))))
  type PlanTail = (Option<Burn>, (Bytes32, (Privacy, ProofPolicy)))
  type PlanFields = (PlanHead, (seq<Allocation>, (seq<Shape>, PlanTail)))

  function HeadCodec(): Codec<PlanHead> {
    Pair(ChainByte(), Pair(B32(), Pair(B32(), Pair(U64(),
      Pair(B32(), Pair(B32(), Pair(B32(), Pair(B32(), B32()))))))))
  }

  function TailCodec(): Codec<PlanTail> {
    Pair(BurnOption(), Pair(B32(), Pair(PrivacyByte(), PolicyCodec())))
  }

  function FieldsCodec(): Codec<PlanFields> {
    Pair(HeadCodec(), Pair(Counted(Len(), AllocationCodec()), Pair(Counted(Len(), ShapeCodec()), TailCodec())))
  }

  function HeadOf(p: Plan): PlanHead {
    (p.chain, (p.schema, (p.asset, (p.totalSupply, (p.metadata, (p.previousOwner, (p.newOwner,
      (p.ownershipAuthorization, p.previousDigest))))))))
  }

  function TailOf(p: Plan): PlanTail { (p.burn, (p.lane, (p.privacy, p.policy))) }

  function OfPlan(p: Plan): PlanFields { (HeadOf(p), (p.spent, (p.shapes, TailOf(p)))) }

  function PlanOf(f: PlanFields): Plan {
    var h, t := f.0, f.1.1.1;
    Plan(h.0, h.1.0, h.1.1.0, h.1.1.1.0, h.1.1.1.1.0, h.1.1.1.1.1.0, h.1.1.1.1.1.1.0, h.1.1.1.1.1.1.1.0,
         h.1.1.1.1.1.1.1.1, f.1.0, f.1.1.0, t.0, t.1.0, t.1.1.0, t.1.1.1)
  }

  function PlanCodec(): Codec<Plan> { Iso(FieldsCodec(), PlanOf, OfPlan) }

  // `validate_canonical_record_plan`
  predicate SmallPlan(p: Plan) {
    |p.spent| <= MAX_ITEMS && |p.shapes| <= MAX_ITEMS && SmallPolicy(p.policy)
  }

  lemma HeadField()
    ensures Field(HeadCodec(), 233)
  {
    PrimitiveFields();
    ChainByteField();
    var c2 := Pair(B32(), B32());
    FieldPair(B32(), 32, B32(), 32);
    var c3 := Pair(B32(), c2);
    FieldPair(B32(), 32, c2, 64);
    var c4 := Pair(B32(), c3);
    FieldPair(B32(), 32, c3, 96);
    var c5 := Pair(B32(), c4);
    FieldPair(B32(), 32, c4, 128);
    var c6 := Pair(U64(), c5);
    FieldPair(U64(), 8, c5, 160);
    var c7 := Pair(B32(), c6);
    FieldPair(B32(), 32, c6, 168);
    var c8 := Pair(B32(), c7);
    FieldPair(B32(), 32, c7, 200);
    FieldPair(ChainByte(), 1, c8, 232);
  }

  lemma BurnOptionLawful()
    ensures Lawful(BurnOption()) && Total(BurnOption())
  {
    assert Lawful(BurnCodec()) && Total(BurnCodec()) by { BurnField(); }
    StrictBoolLawful();
    PresenceLawful(StrictBool(), BurnCodec());
  }

  lemma TailLawful()
    ensures Lawful(TailCodec())
    ensures forall t: PlanTail :: TailCodec().ok(t) <==> SmallPolicy(t.1.1.1)
  {
    BurnOptionLawful();
    PrimitiveFields();
    PrivacyField();
    PolicyLawful();
    var c1 := Pair(PrivacyByte(), PolicyCodec());
    var c2 := Pair(B32(), c1);
    PairLawful(PrivacyByte(), PolicyCodec());
    PairLawful(B32(), c1);
    PairLawful(BurnOption(), c2);
  }

  lemma ListLawful<T(!new)>(c: Codec<T>)
    requires Lawful(c) && Total(c)
    ensures Lawful(Counted(Len(), c))
    ensures forall s: seq<T> :: Counted(Len(), c).ok(s) <==> |s| <= MAX_ITEMS
  {
    LenLawful();
    CountedLawful(Len(), c);
  }

  lemma FieldsLawful()
    ensures Lawful(FieldsCodec())
  {
    assert Lawful(HeadCodec()) by { HeadField(); }
    assert Lawful(Counted(Len(), AllocationCodec())) by { AllocationField(); ListLawful(AllocationCodec()); }
    assert Lawful(Counted(Len(), ShapeCodec())) by { ShapeField(); ListLawful(ShapeCodec()); }
    assert Lawful(TailCodec()) by { TailLawful(); }
    var c1 := Pair(Counted(Len(), ShapeCodec()), TailCodec());
    var c2 := Pair(Counted(Len(), AllocationCodec()), c1);
    assert Lawful(c1) by { PairLawful(Counted(Len(), ShapeCodec()), TailCodec()); }
    assert Lawful(c2) by { PairLawful(Counted(Len(), AllocationCodec()), c1); }
    PairLawful(HeadCodec(), c2);
  }

  lemma FieldsOk(f: PlanFields)
    ensures FieldsCodec().ok(f) <==> |f.1.0| <= MAX_ITEMS && |f.1.1.0| <= MAX_ITEMS && SmallPolicy(f.1.1.1.1.1.1)
  {
    assert HeadCodec().ok(f.0) by { HeadField(); }
    assert Counted(Len(), AllocationCodec()).ok(f.1.0) <==> |f.1.0| <= MAX_ITEMS by {
      AllocationField();
      ListLawful(AllocationCodec());
    }
    assert Counted(Len(), ShapeCodec()).ok(f.1.1.0) <==> |f.1.1.0| <= MAX_ITEMS by {
      ShapeField();
      ListLawful(ShapeCodec());
    }
    assert TailCodec().ok(f.1.1.1) <==> SmallPolicy(f.1.1.1.1.1.1) by { TailLawful(); }
  }

  lemma PlanLawful()
    ensures Lawful(PlanCodec())
    ensures forall p: Plan :: PlanCodec().ok(p) <==> SmallPlan(p)
  {
    FieldsLawful();
    IsoLawful(FieldsCodec(), PlanOf, OfPlan);
    forall p: Plan ensures PlanCodec().ok(p) <==> SmallPlan(p) {
      FieldsOk(OfPlan(p));
      assert PlanOf(OfPlan(p)) == p;
    }
  }

  // ---- the strategy ----

  function ShapeTag(s: ProofShape): byte {
    match s
    case OneInZeroOut => 0
    case OneInOneOut => 1
    case TwoInTwoOut => 2
    case ThreeInTwoOut => 3
    case FourInTwoOut => 4
    case FourInFourOut => 5
  }

  function ShapeOfTag(b: byte): ProofShape {
    if b == 0 then OneInZeroOut
    else if b == 1 then OneInOneOut
    else if b == 2 then TwoInTwoOut
    else if b == 3 then ThreeInTwoOut
    else if b == 4 then FourInTwoOut
    else FourInFourOut
  }

  predicate IsShapeTag(b: byte) { b < 6 }

  type AuditFields = (u64, (u64, (u64, (u64, u64))))

  function VectorOf(s: ProofShape): Strategy { FixedVector(s) }
  function OfVector(s: Strategy): ProofShape { if s.FixedVector? then s.shape else OneInZeroOut }
  function AuditOf(f: AuditFields): Strategy { SegmentedAudit(f.0, f.1.0, f.1.1.0, f.1.1.1.0, f.1.1.1.1) }
  function OfAudit(s: Strategy): AuditFields {
    if s.SegmentedAudit? then (s.capacity, (s.spentSegments, (s.newSegments, (s.exclusionPairs, s.proofEntries))))
    else (0, (0, (0, (0, 0))))
  }

  function AuditCodec(): Codec<AuditFields> { Pair(U64(), Pair(U64(), Pair(U64(), Pair(U64(), U64())))) }

  function StrategyBody(audit: bool): Codec<Strategy> {
    if audit then Iso<AuditFields, Strategy>(AuditCodec(), AuditOf, OfAudit)
    else Iso<ProofShape, Strategy>(Enum(IsShapeTag, ShapeOfTag, ShapeTag), VectorOf, OfVector)
  }

  function StrategyCodec(): Codec<Strategy> {
    Dep(StrictBool(), IsAudit, StrategyBody)
  }

  lemma AuditField()
    ensures Field(AuditCodec(), 40)
  {
    PrimitiveFields();
    FieldPair(U64(), 8, U64(), 8);
    FieldPair(U64(), 8, Pair(U64(), U64()), 16);
    FieldPair(U64(), 8, Pair(U64(), Pair(U64(), U64())), 24);
    FieldPair(U64(), 8, Pair(U64(), Pair(U64(), Pair(U64(), U64()))), 32);
  }

  lemma StrategyBodyLawful(audit: bool)
    ensures Lawful(StrategyBody(audit))
  {
    if audit {
      assert Lawful(AuditCodec()) by { AuditField(); }
      IsoLawful<AuditFields, Strategy>(AuditCodec(), AuditOf, OfAudit);
    } else {
      assert Lawful(Enum(IsShapeTag, ShapeOfTag, ShapeTag)) by { EnumField(IsShapeTag, ShapeOfTag, ShapeTag); }
      IsoLawful<ProofShape, Strategy>(Enum(IsShapeTag, ShapeOfTag, ShapeTag), VectorOf, OfVector);
    }
  }

  lemma StrategyBodyOk(audit: bool, s: Strategy)
    ensures StrategyBody(audit).ok(s) <==> s.SegmentedAudit? == audit
  {
    if audit {
      assert AuditCodec().ok(OfAudit(s)) by { AuditField(); }
    } else {
      assert Enum(IsShapeTag, ShapeOfTag, ShapeTag).ok(OfVector(s)) by { EnumField(IsShapeTag, ShapeOfTag, ShapeTag); }
    }
  }

  function IsAudit(s: Strategy): bool { s.SegmentedAudit? }

  lemma StrategyLawful()
    ensures Lawful(StrategyCodec()) && Total(StrategyCodec())
  {
    StrictBoolLawful();
    forall b: bool ensures Lawful(StrategyBody(b)) { StrategyBodyLawful(b); }
    forall b: bool, s: Strategy ensures StrategyBody(b).ok(s) <==> IsAudit(s) == b { StrategyBodyOk(b, s); }
    DepLawful(StrictBool(), IsAudit, StrategyBody);
    forall s: Strategy ensures StrategyCodec().ok(s) { StrategyBodyOk(IsAudit(s), s); }
  }

  // ---- the record ----

  // ASCII "rgk:pas:0" and three zero bytes, then the encoding version.
  const RECORD_HEADER: Bytes := [0x72, 0x67, 0x6b, 0x3a, 0x70, 0x61, 0x73, 0x3a, 0x30, 0, 0, 0, 1, 0]

  type RecordFields = (Plan, (Strategy, Bytes32))

  function RecordCodec(): Codec<RecordFields> {
    Prefixed(RECORD_HEADER, Pair(PlanCodec(), Pair(StrategyCodec(), B32())))
  }

  lemma RecordLawful()
    ensures Lawful(RecordCodec())
    ensures forall f: RecordFields :: RecordCodec().ok(f) <==> SmallPlan(f.0)
  {
    var c := Pair(PlanCodec(), Pair(StrategyCodec(), B32()));
    PlanLawful();
    StrategyLawful();
    B32Lawful();
    PairLawful(StrategyCodec(), B32());
    PairLawful(PlanCodec(), Pair(StrategyCodec(), B32()));
    PrefixedLawful(RECORD_HEADER, c);
    forall f: RecordFields ensures c.ok(f) <==> SmallPlan(f.0) {
      assert StrategyCodec().ok(f.1.0) && B32().ok(f.1.1);
    }
  }

  // Encoding and decoding over any record codec and any way of building a record.
  function EncodeIn(c: Codec<RecordFields>, r: StrategyPlan): Result<Bytes, AssetError> {
    if !SmallPlan(r.plan) then Err(TooManyItems)
    else
      var b := c.enc((r.plan, (r.strategy, r.commitment)));
      if |b| > MAX_BLOB_BYTES then Err(RecordTooLarge) else Ok(b)
  }

  function DecodeIn(c: Codec<RecordFields>, build: Plan -> Result<StrategyPlan, AssetError>, b: Bytes)
    : Result<StrategyPlan, AssetError>
  {
    if |b| > MAX_BLOB_BYTES then Err(RecordTooLarge)
    else
      match DecodeAll(c, b)
      case None => Err(Malformed)
      case Some(f) =>
        var r :- build(f.0);
        if r.strategy != f.1.0 then Err(StrategyMismatch)
        else if r.commitment != f.1.1 then Err(CommitmentMismatch)
        else Ok(r)
  }

  // `canonical_bytes`
  function CanonicalBytes(r: StrategyPlan): Result<Bytes, AssetError> {
    EncodeIn(RecordCodec(), r)
  }

  // `decode_canonical`: the strategy and its commitment are recomputed and compared.
  function DecodeCanonical(d: StrategyDigests, b: Bytes): Result<StrategyPlan, AssetError> {
    DecodeIn(RecordCodec(), (p: Plan) => NewStrategyPlan(d, p), b)
  }

  lemma BijectionIn(c: Codec<RecordFields>, build: Plan -> Result<StrategyPlan, AssetError>, r: StrategyPlan, b: Bytes)
    requires Lawful(c)
    requires forall f: RecordFields :: c.ok(f) <==> SmallPlan(f.0)
    requires forall p: Plan :: build(p).Ok? ==> build(p).value.plan == p
    ensures DecodeIn(c, build, b) == Ok(r) <==> build(r.plan) == Ok(r) && EncodeIn(c, r) == Ok(b)
  {
    if DecodeIn(c, build, b) == Ok(r) {
      DecodeAllCanonical(c, b);
      assert DecodeAll(c, b).value == (r.plan, (r.strategy, r.commitment));
    }
    if build(r.plan) == Ok(r) && EncodeIn(c, r) == Ok(b) {
      DecodeAllInverts(c, (r.plan, (r.strategy, r.commitment)));
    }
  }

  // The record codec is a bijection between the records that encode and the byte strings
  // that decode.
  lemma RecordBijection(d: StrategyDigests, r: StrategyPlan, b: Bytes)
    ensures DecodeCanonical(d, b) == Ok(r) <==> Built(d, r) && CanonicalBytes(r) == Ok(b)
  {
    RecordLawful();
    BijectionIn(RecordCodec(), (p: Plan) => NewStrategyPlan(d, p), r, b);
  }
}
