/**
 One indexed covenant (rgk-indexer): the entry, the operations that change it and their
 errors, as functions of the entry.
 */
module Ledger {
  import opened Bytes
  import opened Codec
  import opened Core
  import opened Hashing

  datatype ContinuationProof = ContinuationProof(commitment: Bytes32, shapeRoot: Bytes32, transitionDigest: Bytes32)

  datatype MigrationProof = MigrationProof(
    previousPolicy: ReceiptPolicy, newPolicy: ReceiptPolicy, previousDigest: Bytes32, newDigest: Bytes32,
    transitionDigest: Bytes32, authorization: Bytes32, commitment: Bytes32)

  datatype Certificate = Certificate(id: Bytes32, bytes: Bytes)

  // `previousDigest` is the field the source calls `new_state_digest`: the digest to go
  // back to when the spend is undone.
  datatype Spend = Spend(
    daa: u64, spent: Outpoint, created: Outpoint, previousDigest: Bytes32, resultingDigest: Bytes32,
    previousPolicy: ReceiptPolicy, newPolicy: ReceiptPolicy, receipt: Bytes32,
    continuation: Option<ContinuationProof>, migration: Option<MigrationProof>, certificate: Option<Certificate>)

  datatype Entry = Entry(
    covenant: Bytes32, lineage: Bytes32, chain: ChainId, open: Option<Outpoint>, latest: StateCommitment,
    receipts: seq<Bytes32>, history: seq<Spend>, lastDaa: u64)

  datatype IndexerError =
    | NotIndexed
    | AlreadyIndexed
    | ChainMismatch
    | LineageMismatch
    | Replay
    | RollbackTooDeep
    | ContinuationIncomplete
    | MigrationInvalid
    | CertificateInvalid
    | LaneInvariant
    | SpendReceiptNotIndexed
    | Invariant
    | RebuildSource
    | RebuildSpendMissing
    | RebuildTxMismatch
    | RebuildMissingDaa
    | RebuildInsufficientConfirmations
    | Storage

  // ---- proofs ----

  // What a migration proof commits to, and the commitment as a function of it.
  datatype Migration = Migration(
    previousPolicy: ReceiptPolicy, newPolicy: ReceiptPolicy, previousDigest: Bytes32, newDigest: Bytes32,
    transitionDigest: Bytes32, authorization: Bytes32)

  type Seal = Migration -> Bytes32

  function MigrationPayload(m: Migration): Bytes {
    Policy().enc(m.previousPolicy) + Policy().enc(m.newPolicy) + m.previousDigest + m.newDigest + m.transitionDigest
    + m.authorization
  }

  // `policy_migration_commitment`
  function PolicyMigrationCommitment(h: Hash): Seal {
    (m: Migration) => DomainHash(h, "rgk:policy-migration", MigrationPayload(m))
  }

  // The commitment binds every field of the migration.
  lemma MigrationCommitmentBinds(h: Hash, m: Migration, n: Migration)
    requires CollisionFree(h, {Frame(Ascii("rgk:policy-migration"), MigrationPayload(m)),
                               Frame(Ascii("rgk:policy-migration"), MigrationPayload(n))})
    ensures PolicyMigrationCommitment(h)(m) == PolicyMigrationCommitment(h)(n) <==> m == n
  {
    if PolicyMigrationCommitment(h)(m) == PolicyMigrationCommitment(h)(n) {
      SameHash(h, "rgk:policy-migration", MigrationPayload(m), MigrationPayload(n),
               {Frame(Ascii("rgk:policy-migration"), MigrationPayload(m)),
                Frame(Ascii("rgk:policy-migration"), MigrationPayload(n))});
      MigrationPayloadInjective(m, n);
    }
  }

  lemma MigrationPayloadInjective(m: Migration, n: Migration)
    requires MigrationPayload(m) == MigrationPayload(n)
    ensures m == n
  {
    var p, q := Policy().enc(m.previousPolicy), Policy().enc(n.previousPolicy);
    var p', q' := Policy().enc(m.newPolicy), Policy().enc(n.newPolicy);
    assert |p| == 2 && |q| == 2 && |p'| == 2 && |q'| == 2 by {
      PolicyField();
      assert Policy().ok(m.previousPolicy) && Policy().ok(n.previousPolicy);
      assert Policy().ok(m.newPolicy) && Policy().ok(n.newPolicy);
    }
    SixPieces(MigrationPayload(m), p, p', m.previousDigest, m.newDigest, m.transitionDigest, m.authorization);
    SixPieces(MigrationPayload(n), q, q', n.previousDigest, n.newDigest, n.transitionDigest, n.authorization);
    assert m.previousPolicy == n.previousPolicy && m.newPolicy == n.newPolicy by {
      PolicyField();
      Injective(Policy(), m.previousPolicy, n.previousPolicy);
      Injective(Policy(), m.newPolicy, n.newPolicy);
    }
  }

  lemma SixPieces(s: Bytes, a: Bytes, b: Bytes, c: Bytes, d: Bytes, e: Bytes, f: Bytes)
    requires s == a + b + c + d + e + f
    requires |a| == 2 && |b| == 2 && |c| == 32 && |d| == 32 && |e| == 32 && |f| == 32
    ensures |s| == 132 && a == s[..2] && b == s[2..4] && c == s[4..36] && d == s[36..68] && e == s[68..100] && f == s[100..]
  {
  }

  // `validate_continuation_proof`
  predicate CompleteContinuation(p: ContinuationProof) {
    p.commitment != ZERO32 && p.shapeRoot != ZERO32 && p.transitionDigest != ZERO32
  }

  // `validate_policy_migration_proof`
  predicate ValidMigration(seal: Seal, p: MigrationProof, before: ReceiptPolicy, after: ReceiptPolicy,
                           previousDigest: Bytes32, newDigest: Bytes32, transitionDigest: Bytes32)
  {
    && before != after
    && p.previousPolicy == before
    && p.newPolicy == after
    && p.previousDigest == previousDigest
    && p.newDigest == newDigest
    && p.transitionDigest == transitionDigest
    && p.authorization != ZERO32
    && p.commitment == seal(Migration(p.previousPolicy, p.newPolicy, p.previousDigest, p.newDigest,
                                      p.transitionDigest, p.authorization))
  }

  const CERTIFICATE_MAGIC: Bytes := [0x72, 0x67, 0x6b, 0x3a, 0x61, 0x61, 0x63, 0x31]

  // `validate_allocation_audit_certificate_record`
  predicate ValidCertificate(c: Certificate) {
    && c.id != ZERO32
    && 41 <= |c.bytes| <= MAX_BLOB_BYTES
    && c.bytes[..8] == CERTIFICATE_MAGIC
    && c.bytes[8..40] == c.id
  }

  // The proofs stored with a spend are those its checks let through.
  predicate ProvenSpend(seal: Seal, s: Spend) {
    && (s.continuation.Some? ==> CompleteContinuation(s.continuation.value))
    && (s.migration.Some? ==>
          && s.continuation.Some?
          && ValidMigration(seal, s.migration.value, s.previousPolicy, s.newPolicy, s.previousDigest, s.resultingDigest,
                            s.continuation.value.transitionDigest))
    && (s.certificate.Some? ==> ValidCertificate(s.certificate.value))
  }

  // ---- operations ----

  datatype Request = Request(
    receipt: Bytes32, spent: Outpoint, created: Outpoint, state: StateCommitment, daa: u64,
    continuation: Option<ContinuationProof>, migration: Option<MigrationProof>)

  function Opened(covenant: Bytes32, chain: ChainId, lineage: Bytes32, state: StateCommitment, at: Outpoint, daa: u64): Entry
  {
    Entry(covenant, lineage, chain, Some(at), state, [], [], daa)
  }

  // Why `apply_spend_to_entry` refuses, in the order it checks.
  function CheckSpend(seal: Seal, e: Entry, q: Request): Outcome<IndexerError> {
    if q.continuation.Some? && !CompleteContinuation(q.continuation.value) then Fail(ContinuationIncomplete)
    else if q.receipt in e.receipts then Fail(Replay)
    else if e.chain != q.state.chain then Fail(ChainMismatch)
    else if e.covenant != q.state.covenant then Fail(Invariant)
    else if e.latest.asset != q.state.asset then Fail(Invariant)
    else if e.open != Some(q.spent) then Fail(Invariant)
    else if e.latest.digest == q.state.digest then Fail(Invariant)
    else if q.migration.Some?
            && (q.continuation.None?
                || !ValidMigration(seal, q.migration.value, e.latest.policy, q.state.policy, e.latest.digest,
                                   q.state.digest, q.continuation.value.transitionDigest))
    then Fail(MigrationInvalid)
    else Pass
  }

  function SpendOf(e: Entry, q: Request): Spend {
    Spend(q.daa, q.spent, q.created, e.latest.digest, q.state.digest, e.latest.policy, q.state.policy, q.receipt,
          q.continuation, q.migration, None)
  }

  function Spent(e: Entry, q: Request): Entry {
    e.(open := Some(q.created), latest := q.state, lastDaa := q.daa, receipts := e.receipts + [q.receipt],
       history := e.history + [SpendOf(e, q)])
  }

  function ApplySpend(seal: Seal, e: Entry, q: Request): Result<Entry, IndexerError> {
    match CheckSpend(seal, e, q)
    case Pass => Ok(Spent(e, q))
    case Fail(error) => Err(error)
  }

  // One turn of the rollback loop.
  function UndoOne(e: Entry): Entry
    requires e.history != []
  {
    var last := Last(e.history);
    e.(open := Some(last.spent), latest := e.latest.(digest := last.previousDigest, policy := last.previousPolicy),
       receipts := if e.receipts == [] then [] else e.receipts[..|e.receipts| - 1],
       history := e.history[..|e.history| - 1],
       lastDaa := if last.daa == 0 then 0 else last.daa - 1)
  }

  function Undo(e: Entry, k: nat): Entry
    requires k <= |e.history|
    decreases k
  {
    if k == 0 then e else Undo(UndoOne(e), k - 1)
  }

  function Rollback(e: Entry, depth: nat): Result<Entry, IndexerError> {
    if depth > |e.history| then Err(RollbackTooDeep) else Ok(Undo(e, depth))
  }

  // The first spend with a receipt id, or the length of the history.
  function FindSpend(history: seq<Spend>, receipt: Bytes32): (i: nat)
    ensures i <= |history|
    ensures i < |history| ==> history[i].receipt == receipt
    ensures forall j :: 0 <= j < i ==> history[j].receipt != receipt
  {
    if history == [] || history[0].receipt == receipt then 0 else 1 + FindSpend(history[1..], receipt)
  }

  // `record_allocation_audit_certificate_on_entry`
  function RecordCertificate(e: Entry, receipt: Bytes32, c: Certificate): Result<Entry, IndexerError> {
    if !ValidCertificate(c) then Err(CertificateInvalid)
    else
      var i := FindSpend(e.history, receipt);
      if i == |e.history| then Err(SpendReceiptNotIndexed)
      else
        match e.history[i].certificate
        case Some(existing) => if existing != c then Err(CertificateInvalid) else Ok(e)
        case None => Ok(e.(history := e.history[i := e.history[i].(certificate := Some(c))]))
  }

  // ---- runs ----

  datatype Op = DoSpend(request: Request) | DoRollback(depth: nat) | DoCertify(receipt: Bytes32, certificate: Certificate)

  function Step(seal: Seal, e: Entry, op: Op): Result<Entry, IndexerError> {
    match op
    case DoSpend(q) => ApplySpend(seal, e, q)
    case DoRollback(k) => Rollback(e, k)
    case DoCertify(r, c) => RecordCertificate(e, r, c)
  }

  // A refused operation leaves the entry as it was.
  function After(seal: Seal, e: Entry, op: Op): Entry {
    match Step(seal, e, op) case Ok(f) => f case Err(_) => e
  }

  function Run(seal: Seal, e: Entry, ops: seq<Op>): Entry
    decreases |ops|
  {
    if ops == [] then e else Run(seal, After(seal, e, ops[0]), ops[1..])
  }
}
