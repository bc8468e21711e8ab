/**
 The native asset grammar (rgk-asset native.rs): issues, continuation plans and
 transitions, their validators and the digests that chain them.
 */
module Asset {
  import opened Bytes
  import opened Codec
  import opened Core
  import opened Hashing
  import opened Sorting
  import opened Tally

  datatype Privacy = PublicLineage | PrivateLane | StealthLane

  datatype ImageIdPolicy = Fixed(imageId: Bytes32) | AllowedSet(ids: seq<Bytes32>) | PolicyBranch(branch: Bytes32)

  datatype ProofPolicy =
    | VerifierPolicy(keyHash: Bytes32)
    | ZkPolicy(keyId: Bytes32, images: ImageIdPolicy)
    | HybridPolicy(keyHash: Bytes32, keyId: Bytes32)

  datatype Anchor = Anchor(
    chain: ChainId, outpoint: Outpoint, covenant: Bytes32, witnessTxid: Bytes32, daaScore: u64, depth: u64)

  datatype Allocation = Allocation(anchor: Anchor, amount: u64, note: Bytes32)

  datatype Shape = Shape(outputIndex: u32, covenant: Bytes32, amount: u64, note: Bytes32)

  datatype Burn = Burn(amount: u64, authorization: Bytes32)

  datatype Issue = Issue(
    chain: ChainId, schema: Bytes32, asset: Bytes32, totalSupply: u64, metadata: Bytes32, owner: Bytes32,
    allocations: seq<Allocation>, lane: Bytes32, privacy: Privacy, policy: ProofPolicy)

  datatype Transition = Transition(
    chain: ChainId, schema: Bytes32, asset: Bytes32, totalSupply: u64, metadata: Bytes32,
    previousOwner: Bytes32, newOwner: Bytes32, ownershipAuthorization: Bytes32, previousDigest: Bytes32,
    spent: seq<Allocation>, created: seq<Allocation>, burn: Option<Burn>, witnessTxid: Bytes32,
    lane: Bytes32, privacy: Privacy, policy: ProofPolicy)

  datatype Plan = Plan(
    chain: ChainId, schema: Bytes32, asset: Bytes32, totalSupply: u64, metadata: Bytes32,
    previousOwner: Bytes32, newOwner: Bytes32, ownershipAuthorization: Bytes32, previousDigest: Bytes32,
    spent: seq<Allocation>, shapes: seq<Shape>, burn: Option<Burn>,
    lane: Bytes32, privacy: Privacy, policy: ProofPolicy)

  datatype IssueReport = IssueReport(
    chain: ChainId, schema: Bytes32, asset: Bytes32, totalSupply: u64, metadata: Bytes32, owner: Bytes32,
    allocationCount: nat, lane: Bytes32, privacy: Privacy, policyCommitment: Bytes32, digest: Bytes32)

  datatype TransitionReport = TransitionReport(
    chain: ChainId, schema: Bytes32, asset: Bytes32, totalSupply: u64, metadata: Bytes32,
    previousOwner: Bytes32, newOwner: Bytes32, ownershipAuthorization: Bytes32,
    spentSupply: u64, newSupply: u64, burnedSupply: u64, burnAuthorization: Bytes32,
    spentCount: nat, newCount: nat, lane: Bytes32, privacy: Privacy, policyCommitment: Bytes32,
    previousDigest: Bytes32, newDigest: Bytes32, transitionDigest: Bytes32)

  datatype ContinuationReport = ContinuationReport(
    chain: ChainId, schema: Bytes32, asset: Bytes32, totalSupply: u64, metadata: Bytes32,
    previousOwner: Bytes32, newOwner: Bytes32, ownershipAuthorization: Bytes32,
    spentSupply: u64, newSupply: u64, burnedSupply: u64, burnAuthorization: Bytes32,
    spentCount: nat, newCount: nat, lane: Bytes32, privacy: Privacy, policyCommitment: Bytes32,
    previousDigest: Bytes32, shapeRoot: Bytes32, commitment: Bytes32)

  datatype AssetError =
    | ZeroSchemaId | ZeroAssetId | ZeroTotalSupply | ZeroLaneId | ZeroMetadata | ZeroOwner | ZeroVerifierKey
    | UnconstrainedImageId | ZeroOwnershipAuthorization | ZeroPreviousDigest | ZeroWitness
    | EmptyAllocations | EmptyShapes
    | ZeroAmount(index: nat) | ChainMismatch(index: nat) | NullOutpoint(index: nat) | ZeroCovenant(index: nat)
    | ZeroAnchorWitness(index: nat) | ZeroNote(index: nat) | Unconfirmed(index: nat) | DuplicateOutpoint(index: nat)
    | DuplicateOutput(index: nat) | ReusedSpent(index: nat)
    | SupplyOverflow | SupplyMismatch | SupplyInflation | DeflationWithoutBurn
    | ZeroBurnAmount | ZeroBurnAuthorization | BurnMismatch
    | PreviousDigestMismatch | NoOp
    | BurnNotConserving | EmptyAuditSide | GridTooLarge
    | RecordTooLarge | TooManyItems | Malformed | StrategyMismatch | CommitmentMismatch

  // ---- proof policies ----

  function ValidatePolicy(p: ProofPolicy): Outcome<AssetError> {
    match p
    case VerifierPolicy(k) => if k == ZERO32 then Fail(ZeroVerifierKey) else Pass
    case ZkPolicy(k, images) =>
      if k == ZERO32 then Fail(ZeroVerifierKey)
      else (match images
            case Fixed(id) => if id == ZERO32 then Fail(UnconstrainedImageId) else Pass
            case AllowedSet(ids) =>
              if ids == [] || ZERO32 in ids then Fail(UnconstrainedImageId) else Pass
            case PolicyBranch(b) => if b == ZERO32 then Fail(UnconstrainedImageId) else Pass)
    case HybridPolicy(a, b) => if a == ZERO32 || b == ZERO32 then Fail(ZeroVerifierKey) else Pass
  }

  function ImagesPayload(p: ImageIdPolicy): Bytes {
    match p
    case Fixed(id) => [0] + id
    case AllowedSet(ids) => [1] + LE(4, |ids|) + EncEach(B32(), ids)
    case PolicyBranch(b) => [2] + b
  }

  function PolicyPayload(p: ProofPolicy): Bytes {
    match p
    case VerifierPolicy(k) => [0] + k
    case ZkPolicy(k, images) => [1] + k + ImagesPayload(images)
    case HybridPolicy(a, b) => [2] + a + b
  }

  function PolicyPreimage(p: ProofPolicy): Bytes {
    Frame(Ascii("rgk:asset:policy:v1"), PolicyPayload(p))
  }

  function PolicyCommitment(h: Hash, p: ProofPolicy): Bytes32 {
    DomainHash(h, "rgk:asset:policy:v1", PolicyPayload(p))
  }

  // ---- allocation sets ----

  function AllocationFault(chain: ChainId, a: Allocation, i: nat): Option<AssetError> {
    if a.amount == 0 then Some(ZeroAmount(i))
    else if a.anchor.chain != chain then Some(ChainMismatch(i))
    else if a.anchor.outpoint == NULL_OUTPOINT then Some(NullOutpoint(i))
    else if a.anchor.covenant == ZERO32 then Some(ZeroCovenant(i))
    else if a.anchor.witnessTxid == ZERO32 then Some(ZeroAnchorWitness(i))
    else if a.note == ZERO32 then Some(ZeroNote(i))
    else if a.anchor.depth == 0 then Some(Unconfirmed(i))
    else None
  }

  function AllocationRules(chain: ChainId): Rules<Allocation, Outpoint, AssetError> {
    Rules((a: Allocation) => AllocationFault(chain, a, 0).None?,
          (a: Allocation, i: nat) =>
            match AllocationFault(chain, a, i) case Some(e) => e case None => SupplyOverflow,
          SpentOutpoint, (i: nat) => DuplicateOutpoint(i), AllocationAmount, SupplyOverflow)
  }

  function SpentOutpoint(a: Allocation): Outpoint { a.anchor.outpoint }

  function AllocationAmount(a: Allocation): u64 { a.amount }

  function Supply(s: seq<Allocation>): nat { Sum(AllocationAmount, s) }

  function OutpointSet(s: seq<Allocation>): set<Outpoint> { Ids(SpentOutpoint, s) }

  // An allocation the validator has no fault with.
  predicate Anchored(chain: ChainId, a: Allocation) {
    && a.amount != 0
    && a.anchor.chain == chain
    && a.anchor.outpoint != NULL_OUTPOINT
    && a.anchor.covenant != ZERO32
    && a.anchor.witnessTxid != ZERO32
    && a.note != ZERO32
    && a.anchor.depth != 0
  }

  ghost predicate WellFormedSet(chain: ChainId, s: seq<Allocation>) {
    && (forall a :: a in s ==> Anchored(chain, a))
    && DistinctIds(SpentOutpoint, s)
    && Supply(s) < U64_LIMIT
  }

  // `validate_allocation_set_structure_allow_empty`, as a value.
  function AllocationTotal(chain: ChainId, s: seq<Allocation>): Result<u64, AssetError> {
    Tallied(AllocationRules(chain), s)
  }

  // The validator accepts exactly the well-formed sets and returns their supply.
  lemma AllocationTotalMeans(chain: ChainId, s: seq<Allocation>)
    ensures AllocationTotal(chain, s).Ok? <==> WellFormedSet(chain, s)
    ensures AllocationTotal(chain, s).Ok? ==> AllocationTotal(chain, s).value == Supply(s)
  {
    TalliedMeans(AllocationRules(chain), s);
  }

  method ValidateAllocationSet(chain: ChainId, s: seq<Allocation>) returns (r: Result<u64, AssetError>)
    ensures r == AllocationTotal(chain, s)
    ensures r.Ok? <==> WellFormedSet(chain, s)
    ensures r.Ok? ==> r.value == Supply(s)
  {
    AllocationTotalMeans(chain, s);
    r := Scan(AllocationRules(chain), s);
  }

  // ---- continuation shapes ----

  function ShapeFault(s: Shape, i: nat): Option<AssetError> {
    if s.amount == 0 then Some(ZeroAmount(i))
    else if s.covenant == ZERO32 then Some(ZeroCovenant(i))
    else if s.note == ZERO32 then Some(ZeroNote(i))
    else None
  }

  function ShapeRules(): Rules<Shape, u32, AssetError> {
    Rules((s: Shape) => ShapeFault(s, 0).None?,
          (s: Shape, i: nat) => match ShapeFault(s, i) case Some(e) => e case None => SupplyOverflow,
          ShapeOutput, (i: nat) => DuplicateOutput(i), ShapeAmount, SupplyOverflow)
  }

  function ShapeOutput(s: Shape): u32 { s.outputIndex }

  function ShapeAmount(s: Shape): u64 { s.amount }

  function ShapeSupply(s: seq<Shape>): nat { Sum(ShapeAmount, s) }

  ghost predicate WellFormedShapes(s: seq<Shape>) {
    && (forall x :: x in s ==> x.amount != 0 && x.covenant != ZERO32 && x.note != ZERO32)
    && DistinctIds(ShapeOutput, s)
    && ShapeSupply(s) < U64_LIMIT
  }

  // `validate_continuation_shapes_structure_allow_empty`: no shapes only with a burn.
  function ShapeTotal(s: seq<Shape>, burn: Option<Burn>): Result<u64, AssetError> {
    if s == [] then (if burn.Some? then Ok(0) else Err(EmptyShapes)) else Tallied(ShapeRules(), s)
  }

  lemma ShapeTotalMeans(s: seq<Shape>, burn: Option<Burn>)
    ensures ShapeTotal(s, burn).Ok? <==> WellFormedShapes(s) && (s == [] ==> burn.Some?)
    ensures ShapeTotal(s, burn).Ok? ==> ShapeTotal(s, burn).value == ShapeSupply(s)
  {
    TalliedMeans(ShapeRules(), s);
  }

  method ValidateShapes(s: seq<Shape>, burn: Option<Burn>) returns (r: Result<u64, AssetError>)
    ensures r == ShapeTotal(s, burn)
    ensures r.Ok? <==> WellFormedShapes(s) && (s == [] ==> burn.Some?)
    ensures r.Ok? ==> r.value == ShapeSupply(s)
  {
    ShapeTotalMeans(s, burn);
    if s == [] {
      return if burn.Some? then Ok(0) else Err(EmptyShapes);
    }
    r := Scan(ShapeRules(), s);
  }

  // ---- supply delta ----

  function SupplyDelta(spent: u64, created: u64, burn: Option<Burn>): Result<u64, AssetError> {
    if created > spent then Err(SupplyInflation)
    else
      var burned := spent - created;
      match burn
      case None => if burned == 0 then Ok(0) else Err(DeflationWithoutBurn)
      case Some(b) =>
        if b.amount == 0 then Err(ZeroBurnAmount)
        else if burned == 0 then Err(BurnMismatch)
        else if b.authorization == ZERO32 then Err(ZeroBurnAuthorization)
        else if b.amount != burned then Err(BurnMismatch)
        else Ok(burned)
  }

  // Supply is conserved up to an authorised burn of exactly the difference.
  lemma SupplyDeltaMeans(spent: u64, created: u64, burn: Option<Burn>)
    ensures SupplyDelta(spent, created, burn).Ok? <==>
              created <= spent && (burn.None? <==> created == spent)
              && (burn.Some? ==> burn.value.amount == spent - created && burn.value.authorization != ZERO32)
    ensures SupplyDelta(spent, created, burn).Ok? ==> created + SupplyDelta(spent, created, burn).value == spent
  {
  }

  function BurnAuthorization(burn: Option<Burn>): Bytes32 {
    if burn.Some? then burn.value.authorization else ZERO32
  }

  // ---- roots and digests ----

  function PrivacyTag(p: Privacy): byte {
    match p
    case PublicLineage => 0
    case PrivateLane => 1
    case StealthLane => 2
  }

  function PrivacyOf(b: byte): Privacy {
    if b == 0 then PublicLineage else if b == 1 then PrivateLane else StealthLane
  }

  predicate IsPrivacyTag(b: byte) { b < 3 }

  function PrivacyByte(): Codec<Privacy> {
    Enum(IsPrivacyTag, PrivacyOf, PrivacyTag)
  }

  // The 157-byte encoding of an allocation.
  type AnchorFields = (ChainId, (Outpoint, (Bytes32, (Bytes32, (u64, u64)))))

  function ToAnchor(p: AnchorFields): Anchor {
    Anchor(p.0, p.1.0, p.1.1.0, p.1.1.1.0, p.1.1.1.1.0, p.1.1.1.1.1)
  }

  function FromAnchor(a: Anchor): AnchorFields {
    (a.chain, (a.outpoint, (a.covenant, (a.witnessTxid, (a.daaScore, a.depth)))))
  }

  function AnchorCodec(): Codec<Anchor> {
    Iso(Pair(ChainByte(), Pair(OutpointCodec(), Pair(B32(), Pair(B32(), Pair(U64(), U64()))))), ToAnchor, FromAnchor)
  }

  function AllocationCodec(): Codec<Allocation> {
    Iso(Pair(AnchorCodec(), Pair(U64(), B32())),
        (p: (Anchor, (u64, Bytes32))) => Allocation(p.0, p.1.0, p.1.1),
        (a: Allocation) => (a.anchor, (a.amount, a.note)))
  }

  function ShapeCodec(): Codec<Shape> {
    Iso(Pair(U32(), Pair(B32(), Pair(U64(), B32()))),
        (p: (u32, (Bytes32, (u64, Bytes32)))) => Shape(p.0, p.1.0, p.1.1.0, p.1.1.1),
        (s: Shape) => (s.outputIndex, (s.covenant, (s.amount, s.note))))
  }

  function AllocationKey(a: Allocation): seq<int> {
    a.anchor.outpoint.txid + [a.anchor.outpoint.index] + a.anchor.covenant + a.anchor.witnessTxid
    + [a.anchor.daaScore, a.amount]
  }

  function ShapeKey(s: Shape): seq<int> {
    [s.outputIndex] + s.covenant + s.note + [s.amount]
  }

  function RootPayload(s: seq<Allocation>): Bytes {
    LE(4, |s|) + EncEach(AllocationCodec(), Sort(AllocationKey, s))
  }

  function RootPreimage(s: seq<Allocation>): Bytes {
    Frame(Ascii("rgk:asset:allocation-root:v1"), RootPayload(s))
  }

  function AllocationRoot(h: Hash, s: seq<Allocation>): Bytes32 {
    DomainHash(h, "rgk:asset:allocation-root:v1", RootPayload(s))
  }

  function ShapeRootPayload(chain: ChainId, s: seq<Shape>): Bytes {
    [ChainTag(chain)] + LE(4, |s|) + EncEach(ShapeCodec(), Sort(ShapeKey, s))
  }

  function ShapeRootPreimage(chain: ChainId, s: seq<Shape>): Bytes {
    Frame(Ascii("rgk:continuation:shape-root:v1"), ShapeRootPayload(chain, s))
  }

  function ShapeRoot(h: Hash, chain: ChainId, s: seq<Shape>): Bytes32 {
    DomainHash(h, "rgk:continuation:shape-root:v1", ShapeRootPayload(chain, s))
  }

  // What a state digest commits to. The schema id and the chain are not among it.
  datatype StateInput = StateInput(
    asset: Bytes32, totalSupply: u64, allocations: seq<Allocation>, lane: Bytes32, privacy: Privacy,
    policy: ProofPolicy, metadata: Bytes32, owner: Bytes32)

  function StatePayload(h: Hash, s: StateInput): Bytes {
    s.asset + LE(8, s.totalSupply) + AllocationRoot(h, s.allocations) + PolicyCommitment(h, s.policy)
    + s.metadata + s.owner + [PrivacyTag(s.privacy)] + s.lane
  }

  function StatePreimage(h: Hash, s: StateInput): Bytes {
    Frame(Ascii("rgk:asset:state:v2"), StatePayload(h, s))
  }

  function StateDigest(h: Hash, s: StateInput): Bytes32 {
    DomainHash(h, "rgk:asset:state:v2", StatePayload(h, s))
  }

  function BurnPayload(b: Option<Burn>): Bytes {
    match b
    case None => [0]
    case Some(p) => [1] + LE(8, p.amount) + p.authorization
  }

  function PreviousState(t: Transition): StateInput {
    StateInput(t.asset, t.totalSupply, t.spent, t.lane, t.privacy, t.policy, t.metadata, t.previousOwner)
  }

  function NewState(t: Transition): StateInput {
    StateInput(t.asset, t.totalSupply, t.created, t.lane, t.privacy, t.policy, t.metadata, t.newOwner)
  }

  function EncTagged(tag: byte, s: seq<Allocation>): Bytes {
    if s == [] then [] else [tag] + AllocationCodec().enc(s[0]) + EncTagged(tag, s[1..])
  }

  function TransitionPayload(h: Hash, t: Transition): Bytes {
    [ChainTag(t.chain)] + t.schema + t.asset + LE(8, t.totalSupply) + t.previousDigest
    + StateDigest(h, NewState(t)) + t.witnessTxid + BurnPayload(t.burn) + t.lane + [PrivacyTag(t.privacy)]
    + PolicyCommitment(h, t.policy) + t.metadata + t.previousOwner + t.newOwner + t.ownershipAuthorization
    + LE(4, |t.spent|) + EncTagged(0x69, t.spent) + LE(4, |t.created|) + EncTagged(0x6f, t.created)
  }

  function TransitionDigest(h: Hash, t: Transition): Bytes32 {
    DomainHash(h, "rgk:asset:transition:v2", TransitionPayload(h, t))
  }

  // The digest functions the validators call.
  datatype Digests = Digests(
    state: StateInput -> Bytes32,
    policy: ProofPolicy -> Bytes32,
    transition: Transition -> Bytes32,
    shapes: (ChainId, seq<Shape>) -> Bytes32,
    continuation: Plan -> Bytes32)

  // Their definition over a hash.
  function NativeDigests(h: Hash): Digests {
    Digests((s: StateInput) => StateDigest(h, s),
            (p: ProofPolicy) => PolicyCommitment(h, p),
            (t: Transition) => TransitionDigest(h, t),
            (c: ChainId, s: seq<Shape>) => ShapeRoot(h, c, s),
            (p: Plan) => ContinuationCommitment(h, p))
  }

  function ContinuationPayload(h: Hash, p: Plan): Bytes {
    [ChainTag(p.chain)] + p.schema + p.asset + LE(8, p.totalSupply) + p.previousDigest
    + AllocationRoot(h, p.spent) + ShapeRoot(h, p.chain, p.shapes) + BurnPayload(p.burn) + p.lane
    + [PrivacyTag(p.privacy)] + PolicyCommitment(h, p.policy) + p.metadata + p.previousOwner + p.newOwner
    + p.ownershipAuthorization
  }

  function ContinuationCommitment(h: Hash, p: Plan): Bytes32 {
    DomainHash(h, "rgk:continuation:phase1:v2", ContinuationPayload(h, p))
  }

  // ---- issue ----

  function ValidateCommon(schema: Bytes32, asset: Bytes32, totalSupply: u64, lane: Bytes32, policy: ProofPolicy)
    : Outcome<AssetError>
  {
    if schema == ZERO32 then Fail(ZeroSchemaId)
    else if asset == ZERO32 then Fail(ZeroAssetId)
    else if totalSupply == 0 then Fail(ZeroTotalSupply)
    else if lane == ZERO32 then Fail(ZeroLaneId)
    else ValidatePolicy(policy)
  }

  function IssueState(i: Issue): StateInput {
    StateInput(i.asset, i.totalSupply, i.allocations, i.lane, i.privacy, i.policy, i.metadata, i.owner)
  }

  function ValidateIssue(d: Digests, i: Issue): Result<IssueReport, AssetError> {
    var common := ValidateCommon(i.schema, i.asset, i.totalSupply, i.lane, i.policy);
    if common.Fail? then Err(common.error)
    else if i.metadata == ZERO32 then Err(ZeroMetadata)
    else if i.owner == ZERO32 then Err(ZeroOwner)
    else if i.allocations == [] then Err(EmptyAllocations)
    else
      var total :- AllocationTotal(i.chain, i.allocations);
      if total != i.totalSupply then Err(SupplyMismatch)
      else Ok(IssueReport(i.chain, i.schema, i.asset, i.totalSupply, i.metadata, i.owner, |i.allocations|,
                          i.lane, i.privacy, d.policy(i.policy), d.state(IssueState(i))))
  }

  // ---- transition ----

  // The first created allocation that lands on a spent outpoint.
  function FirstReused(spent: set<Outpoint>, s: seq<Allocation>, i: nat): (r: Option<nat>)
    requires i <= |s|
    ensures r.None? <==> forall k :: i <= k < |s| ==> s[k].anchor.outpoint !in spent
    ensures r.Some? ==> i <= r.value < |s| && s[r.value].anchor.outpoint in spent
                        && forall k :: i <= k < r.value ==> s[k].anchor.outpoint !in spent
    decreases |s| - i
  {
    if i == |s| then None
    else if s[i].anchor.outpoint in spent then Some(i)
    else FirstReused(spent, s, i + 1)
  }

  function ValidateHeader(schema: Bytes32, asset: Bytes32, totalSupply: u64, lane: Bytes32, policy: ProofPolicy,
                          metadata: Bytes32, previousOwner: Bytes32, newOwner: Bytes32,
                          authorization: Bytes32, previousDigest: Bytes32): Outcome<AssetError>
  {
    var common := ValidateCommon(schema, asset, totalSupply, lane, policy);
    if common.Fail? then common
    else if metadata == ZERO32 then Fail(ZeroMetadata)
    else if previousOwner == ZERO32 || newOwner == ZERO32 then Fail(ZeroOwner)
    else if previousOwner != newOwner && authorization == ZERO32 then Fail(ZeroOwnershipAuthorization)
    else if previousDigest == ZERO32 then Fail(ZeroPreviousDigest)
    else Pass
  }

  function ValidateTransition(d: Digests, t: Transition): Result<TransitionReport, AssetError> {
    var header := ValidateHeader(t.schema, t.asset, t.totalSupply, t.lane, t.policy, t.metadata,
                                 t.previousOwner, t.newOwner, t.ownershipAuthorization, t.previousDigest);
    if header.Fail? then Err(header.error)
    else if t.witnessTxid == ZERO32 then Err(ZeroWitness)
    else if t.spent == [] then Err(EmptyAllocations)
    else
      var spentSupply :- AllocationTotal(t.chain, t.spent);
      var newSupply :- AllocationTotal(t.chain, t.created);
      var burned :- SupplyDelta(spentSupply, newSupply, t.burn);
      if d.state(PreviousState(t)) != t.previousDigest then Err(PreviousDigestMismatch)
      else if d.state(NewState(t)) == t.previousDigest then Err(NoOp)
      else
        match FirstReused(OutpointSet(t.spent), t.created, 0)
        case Some(i) => Err(ReusedSpent(i))
        case None =>
          Ok(TransitionReport(t.chain, t.schema, t.asset, t.totalSupply, t.metadata, t.previousOwner, t.newOwner,
                              t.ownershipAuthorization, spentSupply, newSupply, burned, BurnAuthorization(t.burn),
                              |t.spent|, |t.created|, t.lane, t.privacy, d.policy(t.policy),
                              t.previousDigest, d.state(NewState(t)), d.transition(t)))
  }
}
