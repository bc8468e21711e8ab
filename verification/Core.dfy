/**
 Canonical RGK types (rgk-core): chains, policies, outpoints, state commitments
 and receipts, with their wire codecs and structural rules.
 */
module Core {
  import opened Bytes
  import opened Codec

  datatype ChainId = KaspaMainnet | KaspaTestnet | KaspaSimnet | KaspaDevnet | KaspaLocalToccata
  datatype ProofMode = VerifierReceipt | ZkReceipt | P2mrRet
  datatype ReceiptPolicy = Any | VerifierOnly | ZkOrVerifier

  const ENCODING_VERSION: u16 := 1
  const MAX_BLOB_BYTES: nat := 0x10_0000

  predicate FitsBlob(n: nat) { n <= MAX_BLOB_BYTES }

  // The length field of a blob.
  function BlobLength(): Codec<nat> { Refine(Int(4), FitsBlob) }

  function ChainTag(c: ChainId): byte {
    match c
    case KaspaMainnet => 1
    case KaspaTestnet => 2
    case KaspaSimnet => 3
    case KaspaDevnet => 4
    case KaspaLocalToccata => 5
  }

  function ModeTag(m: ProofMode): byte {
    match m
    case VerifierReceipt => 1
    case ZkReceipt => 2
    case P2mrRet => 3
  }

  function PolicyTag(p: ReceiptPolicy): byte {
    match p
    case Any => 1
    case VerifierOnly => 2
    case ZkOrVerifier => 3
  }

  // Inverses of the tags; a byte that is no tag maps to an arbitrary value and
  // is turned away by the codecs below.
  function ChainOf(b: byte): ChainId {
    if b == 1 then KaspaMainnet
    else if b == 2 then KaspaTestnet
    else if b == 3 then KaspaSimnet
    else if b == 4 then KaspaDevnet
    else KaspaLocalToccata
  }

  function ModeOf(b: byte): ProofMode {
    if b == 1 then VerifierReceipt else if b == 2 then ZkReceipt else P2mrRet
  }

  function PolicyOf(b: byte): ReceiptPolicy {
    if b == 1 then Any else if b == 2 then VerifierOnly else ZkOrVerifier
  }

  predicate IsChainTag(b: byte) { 1 <= b <= 5 }
  predicate IsTag3(b: byte) { 1 <= b <= 3 }

  predicate Admits(p: ReceiptPolicy, m: ProofMode) {
    match p
    case Any => true
    case VerifierOnly => m.VerifierReceipt?
    case ZkOrVerifier => m.VerifierReceipt? || m.ZkReceipt?
  }

  // One-byte chain id, as the asset grammar writes it.
  function ChainByte(): Codec<ChainId> {
    Enum(IsChainTag, ChainOf, ChainTag)
  }

  lemma ChainByteField()
    ensures Field(ChainByte(), 1)
  {
    EnumField(IsChainTag, ChainOf, ChainTag);
  }

  // Two-byte forms: a type letter, then the tag.
  function Chain(): Codec<ChainId> {
    Prefixed([0x4b], ChainByte())
  }

  function Policy(): Codec<ReceiptPolicy> {
    Prefixed([0x52], Enum(IsTag3, PolicyOf, PolicyTag))
  }

  function Mode(): Codec<ProofMode> {
    Prefixed([0x50], Enum(IsTag3, ModeOf, ModeTag))
  }

  lemma ChainField()
    ensures Field(Chain(), 2)
  {
    ChainByteField();
    PrefixedField([0x4b], ChainByte(), 1);
  }

  lemma PolicyField()
    ensures Field(Policy(), 2)
  {
    EnumField(IsTag3, PolicyOf, PolicyTag);
    PrefixedField([0x52], Enum(IsTag3, PolicyOf, PolicyTag), 1);
  }

  lemma ModeField()
    ensures Field(Mode(), 2)
  {
    EnumField(IsTag3, ModeOf, ModeTag);
    PrefixedField([0x50], Enum(IsTag3, ModeOf, ModeTag), 1);
  }

  // ---- outpoints ----

  datatype Outpoint = Outpoint(txid: Bytes32, index: u32)

  const NULL_OUTPOINT := Outpoint(ZERO32, 0)

  function OutpointCodec(): Codec<Outpoint> {
    Iso(Pair(B32(), U32()), (p: (Bytes32, u32)) => Outpoint(p.0, p.1), (o: Outpoint) => (o.txid, o.index))
  }

  lemma OutpointField()
    ensures Field(OutpointCodec(), 36)
  {
    PrimitiveFields();
    FieldPair(B32(), 32, U32(), 4);
    FieldIso(Pair(B32(), U32()), 36, (p: (Bytes32, u32)) => Outpoint(p.0, p.1), (o: Outpoint) => (o.txid, o.index));
  }

  // ---- state commitments ----

  datatype StateCommitment = StateCommitment(
    version: u16,
    chain: ChainId,
    covenant: Bytes32,
    asset: Bytes32,
    digest: Bytes32,
    policy: ReceiptPolicy)

  predicate ValidCommitment(s: StateCommitment) {
    && s.version == ENCODING_VERSION
    && s.covenant != ZERO32
    && s.asset != ZERO32
    && s.digest != ZERO32
  }

  type CommitmentFields = (u16, (ChainId, (Bytes32, (Bytes32, (Bytes32, ReceiptPolicy)))))

  function CommitmentLayout(): Codec<CommitmentFields> {
    Pair(U16(), Pair(Chain(), Pair(B32(), Pair(B32(), Pair(B32(), Policy())))))
  }

  function ToCommitment(p: CommitmentFields): StateCommitment {
    StateCommitment(p.0, p.1.0, p.1.1.0, p.1.1.1.0, p.1.1.1.1.0, p.1.1.1.1.1)
  }

  function FromCommitment(s: StateCommitment): CommitmentFields {
    (s.version, (s.chain, (s.covenant, (s.asset, (s.digest, s.policy)))))
  }

  function RawCommitment(): Codec<StateCommitment> {
    Iso(CommitmentLayout(), ToCommitment, FromCommitment)
  }

  // `RgkStateCommitment::decode` validates the structure before it returns.
  function CommitmentCodec(): Codec<StateCommitment> {
    Refine(RawCommitment(), ValidCommitment)
  }

  lemma CommitmentField()
    ensures Field(RawCommitment(), 102)
  {
    PrimitiveFields();
    ChainField(); PolicyField();
    FieldPair(B32(), 32, Policy(), 2);
    FieldPair(B32(), 32, Pair(B32(), Policy()), 34);
    FieldPair(B32(), 32, Pair(B32(), Pair(B32(), Policy())), 66);
    FieldPair(Chain(), 2, Pair(B32(), Pair(B32(), Pair(B32(), Policy()))), 98);
    FieldPair(U16(), 2, Pair(Chain(), Pair(B32(), Pair(B32(), Pair(B32(), Policy())))), 100);
    FieldIso(CommitmentLayout(), 102, ToCommitment, FromCommitment);
  }

  lemma CommitmentLaws()
    ensures Lawful(CommitmentCodec())
    ensures forall s: StateCommitment :: CommitmentCodec().ok(s) <==> ValidCommitment(s)
  {
    CommitmentField();
    RefineLawful(RawCommitment(), ValidCommitment);
    forall s: StateCommitment ensures CommitmentCodec().ok(s) <==> ValidCommitment(s) {
      assert RawCommitment().ok(s);
    }
  }

  // ---- receipts ----

  datatype Receipt = Receipt(
    version: u16,
    chain: ChainId,
    covenant: Bytes32,
    oldState: StateCommitment,
    newState: StateCommitment,
    transitionDigest: Bytes32,
    continuationCommitment: Bytes32,
    mode: ProofMode,
    replayNonce: Bytes32)

  predicate ValidReceipt(r: Receipt) {
    && r.version == ENCODING_VERSION
    && ValidCommitment(r.oldState)
    && ValidCommitment(r.newState)
    && r.oldState.chain == r.chain && r.newState.chain == r.chain
    && r.oldState.covenant == r.covenant && r.newState.covenant == r.covenant
    && r.oldState.asset == r.newState.asset
    && r.oldState.policy == r.newState.policy
    && r.oldState.digest != r.newState.digest
    && r.transitionDigest != ZERO32
    && r.continuationCommitment != ZERO32
    && Admits(r.oldState.policy, r.mode)
  }

  type ReceiptFields =
    (u16, (ChainId, (Bytes32, (StateCommitment, (StateCommitment, (Bytes32, (Bytes32, (ProofMode, Bytes32))))))))

  function ReceiptTail(): Codec<(Bytes32, (Bytes32, (ProofMode, Bytes32)))> {
    Pair(B32(), Pair(B32(), Pair(Mode(), B32())))
  }

  function ReceiptLayout(): Codec<ReceiptFields> {
    Pair(U16(), Pair(Chain(), Pair(B32(), Pair(CommitmentCodec(), Pair(CommitmentCodec(), ReceiptTail())))))
  }

  function ToReceipt(p: ReceiptFields): Receipt {
    Receipt(p.0, p.1.0, p.1.1.0, p.1.1.1.0, p.1.1.1.1.0, p.1.1.1.1.1.0, p.1.1.1.1.1.1.0,
            p.1.1.1.1.1.1.1.0, p.1.1.1.1.1.1.1.1)
  }

  function FromReceipt(r: Receipt): ReceiptFields {
    (r.version, (r.chain, (r.covenant, (r.oldState, (r.newState, (r.transitionDigest,
      (r.continuationCommitment, (r.mode, r.replayNonce))))))))
  }

  // ASCII "rgk:v0" and two zero bytes.
  const DOMAIN_MAGIC: Bytes := [0x72, 0x67, 0x6b, 0x3a, 0x76, 0x30, 0, 0]

  // The magic, then the encoding version.
  const WIRE_HEADER: Bytes := DOMAIN_MAGIC + [1, 0]

  // `encode_canonical` / `decode_canonical` of a receipt.
  function ReceiptCodec(): Codec<Receipt> {
    Prefixed(WIRE_HEADER, Refine(Iso(ReceiptLayout(), ToReceipt, FromReceipt), ValidReceipt))
  }

  lemma ReceiptTailField()
    ensures Field(ReceiptTail(), 98)
  {
    PrimitiveFields();
    ModeField();
    FieldPair(Mode(), 2, B32(), 32);
    FieldPair(B32(), 32, Pair(Mode(), B32()), 34);
    FieldPair(B32(), 32, Pair(B32(), Pair(Mode(), B32())), 66);
  }

  lemma ReceiptLayoutLaws()
    ensures Lawful(ReceiptLayout())
  {
    ReceiptTailField();
    CommitmentLaws();
    var c1 := Pair(CommitmentCodec(), ReceiptTail());
    var c2 := Pair(CommitmentCodec(), c1);
    var c3 := Pair(B32(), c2);
    assert Lawful(c1) by { PairLawful(CommitmentCodec(), ReceiptTail()); }
    assert Lawful(c2) by { PairLawful(CommitmentCodec(), c1); }
    assert Lawful(c3) by { PrimitiveFields(); PairLawful(B32(), c2); }
    assert Lawful(Pair(Chain(), c3)) by { ChainField(); PairLawful(Chain(), c3); }
    assert Lawful(ReceiptLayout()) by { PrimitiveFields(); PairLawful(U16(), Pair(Chain(), c3)); }
  }

  lemma ReceiptLayoutTotal(r: Receipt)
    ensures ReceiptLayout().ok(FromReceipt(r)) <==> ValidCommitment(r.oldState) && ValidCommitment(r.newState)
  {
    assert Total(U16()) && Total(B32()) by { PrimitiveFields(); }
    assert Total(Chain()) by { ChainField(); }
    assert Total(ReceiptTail()) by { ReceiptTailField(); }
    assert forall s: StateCommitment :: CommitmentCodec().ok(s) <==> ValidCommitment(s) by { CommitmentLaws(); }
    assert ReceiptTail().ok((r.transitionDigest, (r.continuationCommitment, (r.mode, r.replayNonce))));
  }

  lemma ReceiptLaws()
    ensures Lawful(ReceiptCodec())
    ensures forall r: Receipt :: ReceiptCodec().ok(r) <==> ValidReceipt(r)
  {
    var raw := Iso(ReceiptLayout(), ToReceipt, FromReceipt);
    assert Lawful(raw) by { ReceiptLayoutLaws(); IsoLawful(ReceiptLayout(), ToReceipt, FromReceipt); }
    var c := Refine(raw, ValidReceipt);
    assert Lawful(c) by { RefineLawful(raw, ValidReceipt); }
    PrefixedLawful(WIRE_HEADER, c);
    forall r: Receipt ensures ReceiptCodec().ok(r) <==> ValidReceipt(r) {
      ReceiptLayoutTotal(r);
      assert c.ok(r) <==> raw.ok(r) && ValidReceipt(r);
    }
  }

  // The canonical wire form of a receipt is a bijection between structurally
  // valid receipts and the byte strings that decode.
  lemma ReceiptWireBijection(r: Receipt, s: Bytes)
    ensures ValidReceipt(r) ==> DecodeAll(ReceiptCodec(), ReceiptCodec().enc(r)) == Some(r)
    ensures DecodeAll(ReceiptCodec(), s) == Some(r) ==> ValidReceipt(r) && ReceiptCodec().enc(r) == s
  {
    ReceiptLaws();
    if ValidReceipt(r) { DecodeAllInverts(ReceiptCodec(), r); }
    if DecodeAll(ReceiptCodec(), s) == Some(r) { DecodeAllCanonical(ReceiptCodec(), s); }
  }
}
