/**
 Receipt ids (rgk-core commit.rs) and the local and indexed verification of receipts
 (rgk-receipt, rgk-resolver).
 */
module Receipts {
  import opened Bytes
  import opened Codec
  import opened Core
  import opened Hashing
  import opened Ledger
  import opened LedgerRuns

  // ---- the domain string ----

  function ChainName(c: ChainId): string {
    match c
    case KaspaMainnet => "kaspa-mainnet"
    case KaspaTestnet => "kaspa-testnet"
    case KaspaSimnet => "kaspa-simnet"
    case KaspaDevnet => "kaspa-devnet"
    case KaspaLocalToccata => "kaspa-local-toccata"
  }

  function PolicyName(p: ReceiptPolicy): string {
    match p
    case Any => "any"
    case VerifierOnly => "verifier-only"
    case ZkOrVerifier => "zk-or-verifier"
  }

  function ModeName(m: ProofMode): string {
    match m
    case VerifierReceipt => "verifier-receipt"
    case ZkReceipt => "zk-receipt"
    case P2mrRet => "p2mr-ret"
  }

  // `domain_string` of a receipt.
  function DomainString(c: ChainId, p: ReceiptPolicy, m: ProofMode): string {
    "rgk:v0 | chain=" + (ChainName(c) + (" | policy=" + (PolicyName(p) + (" | mode=" + ModeName(m)))))
  }

  // A name ends at the first space after it.
  lemma {:induction false} SplitAtSpace(a: string, x: string, b: string, y: string)
    requires ' ' !in a && ' ' !in b
    requires x != [] && y != [] && x[0] == ' ' && y[0] == ' '
    requires a + x == b + y
    ensures a == b && x == y
  {
    var s := a + x;
    assert s[|a|] == x[0] && (b + y)[|b|] == y[0];
    assert s[..|a|] == a && (b + y)[..|b|] == b;
    assert s[|a|..] == x && (b + y)[|b|..] == y;
  }

  lemma {:induction false} ChainNamesDiffer(a: ChainId, b: ChainId)
    ensures ' ' !in ChainName(a)
    ensures ChainName(a) == ChainName(b) <==> a == b
  {
    if |ChainName(a)| == |ChainName(b)| && a != b { assert ChainName(a)[6] != ChainName(b)[6]; }
  }

  lemma {:induction false} PolicyAndMode(p: ReceiptPolicy, m: ProofMode, p': ReceiptPolicy, m': ProofMode)
    requires PolicyName(p) + (" | mode=" + ModeName(m)) == PolicyName(p') + (" | mode=" + ModeName(m'))
    ensures p == p' && m == m'
  {
    SplitAtSpace(PolicyName(p), " | mode=" + ModeName(m), PolicyName(p'), " | mode=" + ModeName(m'));
    SamePrefix(" | mode=", ModeName(m), ModeName(m'));
  }

  lemma {:induction false} DomainStringInjective(
    c: ChainId, p: ReceiptPolicy, m: ProofMode, c': ChainId, p': ReceiptPolicy, m': ProofMode)
    ensures DomainString(c, p, m) == DomainString(c', p', m') <==> c == c' && p == p' && m == m'
  {
    if DomainString(c, p, m) == DomainString(c', p', m') {
      var x, y := PolicyName(p) + (" | mode=" + ModeName(m)), PolicyName(p') + (" | mode=" + ModeName(m'));
      SamePrefix("rgk:v0 | chain=", ChainName(c) + (" | policy=" + x), ChainName(c') + (" | policy=" + y));
      ChainNamesDiffer(c, c');
      ChainNamesDiffer(c', c);
      SplitAtSpace(ChainName(c), " | policy=" + x, ChainName(c'), " | policy=" + y);
      SamePrefix(" | policy=", x, y);
      PolicyAndMode(p, m, p', m');
    }
  }

  lemma {:induction false} SamePrefix(p: string, x: string, y: string)
    requires p + x == p + y
    ensures x == y
  {
    assert (p + x)[|p|..] == x && (p + y)[|p|..] == y;
  }

  predicate IsAscii(s: string) { forall i :: 0 <= i < |s| ==> s[i] < 128 as char }

  lemma {:induction false} AsciiInjective(s: string, t: string)
    requires IsAscii(s) && IsAscii(t) && Ascii(s) == Ascii(t)
    ensures s == t
  {
    forall i | 0 <= i < |s| ensures s[i] == t[i] { assert Ascii(s)[i] == Ascii(t)[i]; }
  }

  lemma AsciiAppend(s: string, t: string)
    requires IsAscii(s) && IsAscii(t)
    ensures IsAscii(s + t) && |s + t| == |s| + |t|
  {
  }

  lemma ChainNameAscii(c: ChainId)
    ensures IsAscii(ChainName(c)) && |ChainName(c)| < 20
  {
  }

  lemma PolicyNameAscii(p: ReceiptPolicy)
    ensures IsAscii(PolicyName(p)) && |PolicyName(p)| < 20
  {
  }

  lemma ModeNameAscii(m: ProofMode)
    ensures IsAscii(ModeName(m)) && |ModeName(m)| < 20
  {
  }

  lemma {:induction false} DomainStringAscii(c: ChainId, p: ReceiptPolicy, m: ProofMode)
    ensures IsAscii(DomainString(c, p, m)) && |DomainString(c, p, m)| < 100
  {
    ChainNameAscii(c);
    PolicyNameAscii(p);
    ModeNameAscii(m);
    AsciiAppend(" | mode=", ModeName(m));
    var x := " | mode=" + ModeName(m);
    AsciiAppend(PolicyName(p), x);
    AsciiAppend(" | policy=", PolicyName(p) + x);
    var y := " | policy=" + (PolicyName(p) + x);
    AsciiAppend(ChainName(c), y);
    AsciiAppend("rgk:v0 | chain=", ChainName(c) + y);
  }

  // ---- the receipt id ----

  // `RgkReceipt::encode_body`: a length-prefixed domain string, then six digests.
  function ReceiptBody(r: Receipt): Bytes {
    var d := Ascii(DomainString(r.chain, r.oldState.policy, r.mode));
    LE(4, |d|) + (d + SixDigests(r))
  }

  function SixDigests(r: Receipt): Bytes {
    r.covenant + r.oldState.digest + r.newState.digest + r.transitionDigest + r.continuationCommitment + r.replayNonce
  }

  function ReceiptId(h: Hash): Receipt -> Bytes32 { (r: Receipt) => DomainHash(h, "rgk:receipt", ReceiptBody(r)) }

  ghost predicate SameBody(r: Receipt, s: Receipt) {
    && r.chain == s.chain && r.oldState.policy == s.oldState.policy && r.mode == s.mode
    && r.covenant == s.covenant && r.oldState.digest == s.oldState.digest && r.newState.digest == s.newState.digest
    && r.transitionDigest == s.transitionDigest && r.continuationCommitment == s.continuationCommitment
    && r.replayNonce == s.replayNonce
  }

  lemma DigestPieces(s: Bytes, a: Bytes, b: Bytes, c: Bytes, d: Bytes, e: Bytes, f: Bytes)
    requires s == a + b + c + d + e + f
    requires |a| == 32 && |b| == 32 && |c| == 32 && |d| == 32 && |e| == 32 && |f| == 32
    ensures |s| == 192
    ensures a == s[..32] && b == s[32..64] && c == s[64..96] && d == s[96..128] && e == s[128..160] && f == s[160..]
  {
  }

  lemma {:induction false} ReceiptBodyIff(r: Receipt, s: Receipt)
    ensures ReceiptBody(r) == ReceiptBody(s) <==> SameBody(r, s)
  {
    if ReceiptBody(r) == ReceiptBody(s) {
      var d, e := DomainString(r.chain, r.oldState.policy, r.mode), DomainString(s.chain, s.oldState.policy, s.mode);
      DomainStringAscii(r.chain, r.oldState.policy, r.mode);
      DomainStringAscii(s.chain, s.oldState.policy, s.mode);
      BlobSplits(Ascii(d), SixDigests(r), Ascii(e), SixDigests(s));
      AsciiInjective(d, e);
      DomainStringInjective(r.chain, r.oldState.policy, r.mode, s.chain, s.oldState.policy, s.mode);
      DigestPieces(SixDigests(r), r.covenant, r.oldState.digest, r.newState.digest, r.transitionDigest,
                   r.continuationCommitment, r.replayNonce);
      DigestPieces(SixDigests(s), s.covenant, s.oldState.digest, s.newState.digest, s.transitionDigest,
                   s.continuationCommitment, s.replayNonce);
    }
  }

  lemma {:induction false} BlobSplits(a: Bytes, x: Bytes, b: Bytes, y: Bytes)
    requires |a| < 0x1_0000_0000 && |b| < 0x1_0000_0000
    requires LE(4, |a|) + (a + x) == LE(4, |b|) + (b + y)
    ensures a == b && x == y
  {
    var s, t := LE(4, |a|) + (a + x), LE(4, |b|) + (b + y);
    assert s[..4] == LE(4, |a|) && t[..4] == LE(4, |b|);
    Pow256Values();
    FromLEInvertsLE(4, |a|);
    FromLEInvertsLE(4, |b|);
    assert s[4..] == a + x && t[4..] == b + y;
    assert s[4..][..|a|] == a && t[4..][..|b|] == b;
    assert s[4..][|a|..] == x && t[4..][|b|..] == y;
  }

  // Barring a collision, two structurally valid receipts for one asset have the same id
  // exactly when they are the same receipt.
  lemma {:induction false} ReceiptIdIff(h: Hash, r: Receipt, s: Receipt)
    requires CollisionFree(h, {Frame(Ascii("rgk:receipt"), ReceiptBody(r)), Frame(Ascii("rgk:receipt"), ReceiptBody(s))})
    requires ValidReceipt(r) && ValidReceipt(s)
    ensures r == s <==> ReceiptId(h)(r) == ReceiptId(h)(s) && r.oldState.asset == s.oldState.asset
  {
    if ReceiptId(h)(r) == ReceiptId(h)(s) {
      SameHash(h, "rgk:receipt", ReceiptBody(r), ReceiptBody(s),
               {Frame(Ascii("rgk:receipt"), ReceiptBody(r)), Frame(Ascii("rgk:receipt"), ReceiptBody(s))});
      ReceiptBodyIff(r, s);
    }
  }

  // The asset is not part of the id, whatever the hash.
  lemma {:induction false} AssetIsNotInTheId(h: Hash, r: Receipt, asset: Bytes32)
    ensures ReceiptId(h)(r.(oldState := r.oldState.(asset := asset), newState := r.newState.(asset := asset)))
            == ReceiptId(h)(r)
  {
    ReceiptBodyIff(r, r.(oldState := r.oldState.(asset := asset), newState := r.newState.(asset := asset)));
  }

  // ---- verification ----

  datatype ReceiptError =
    | NotIndexedCovenant
    | DecodeFailure
    | ReplayedReceipt
    | WrongChain
    | WrongCovenant
    | WrongAsset
    | WrongOldState
    | PolicyRejectsMode

  // `verify_local_structured`
  function VerifyLocal(r: Receipt, covenant: Bytes32, expected: StateCommitment, chain: ChainId): Outcome<ReceiptError> {
    if r.chain != chain then Fail(WrongChain)
    else if r.covenant != covenant then Fail(WrongCovenant)
    else if r.oldState.asset != expected.asset || r.newState.asset != expected.asset then Fail(WrongAsset)
    else if r.oldState.digest != expected.digest then Fail(WrongOldState)
    else if !Admits(expected.policy, r.mode) then Fail(PolicyRejectsMode)
    else Pass
  }

  type Ids = Receipt -> Bytes32

  function VerifyDecoded(id: Ids, chain: ChainId, covenant: Bytes32, e: Entry, decoded: Option<Receipt>)
    : Result<StateCommitment, ReceiptError>
  {
    match decoded
    case None => Err(DecodeFailure)
    case Some(r) =>
      if id(r) in e.receipts then Err(ReplayedReceipt)
      else
        match VerifyLocal(r, covenant, e.latest, chain)
        case Fail(error) => Err(error)
        case Pass => Ok(r.newState)
  }

  // `verify_receipt_against_indexer`, with the entry the index holds for the covenant.
  function VerifyReceipt(id: Ids, chain: ChainId, covenant: Bytes32, x: Option<Entry>, bytes: Bytes)
    : Result<StateCommitment, ReceiptError>
  {
    if x.None? then Err(NotIndexedCovenant)
    else VerifyDecoded(id, chain, covenant, x.value, DecodeAll(ReceiptCodec(), bytes))
  }

  // The spend that applies a verified receipt to the open outpoint.
  function ReceiptRequest(id: Ids, e: Entry, r: Receipt, created: Outpoint, daa: u64, c: Option<ContinuationProof>): Request
    requires e.open.Some?
  {
    Request(id(r), e.open.value, created, r.newState, daa, c, None)
  }

  lemma DecodedIffApplies(seal: Seal, id: Ids, base: Entry, e: Entry, r: Receipt, created: Outpoint, daa: u64,
                          c: Option<ContinuationProof>)
    requires Sound(seal, base, e) && ValidReceipt(r)
    requires c.Some? ==> CompleteContinuation(c.value)
    ensures VerifyDecoded(id, e.chain, e.covenant, e, Some(r)).Ok?
            <==> && ApplySpend(seal, e, ReceiptRequest(id, e, r, created, daa, c)).Ok?
                 && r.oldState.digest == e.latest.digest && Admits(e.latest.policy, r.mode)
    ensures VerifyDecoded(id, e.chain, e.covenant, e, Some(r)).Ok? ==>
              VerifyDecoded(id, e.chain, e.covenant, e, Some(r)).value == r.newState
  {
  }

  // Verification is the whole check: on an entry for the verifier's chain, a receipt that
  // decodes can be applied to the open outpoint, starts from the entry's state and is
  // admitted by the entry's policy exactly when it verifies.
  lemma {:induction false} VerifiedIffApplies(
    seal: Seal, id: Ids, base: Entry, e: Entry, bytes: Bytes, r: Receipt, created: Outpoint, daa: u64, c:
    Option<ContinuationProof>)
    requires Sound(seal, base, e)
    requires DecodeAll(ReceiptCodec(), bytes) == Some(r)
    requires c.Some? ==> CompleteContinuation(c.value)
    ensures VerifyReceipt(id, e.chain, e.covenant, Some(e), bytes).Ok?
            <==> && ApplySpend(seal, e, ReceiptRequest(id, e, r, created, daa, c)).Ok?
                 && r.oldState.digest == e.latest.digest && Admits(e.latest.policy, r.mode)
    ensures VerifyReceipt(id, e.chain, e.covenant, Some(e), bytes).Ok? ==>
              VerifyReceipt(id, e.chain, e.covenant, Some(e), bytes).value == r.newState
  {
    assert ValidReceipt(r) by { ReceiptWireBijection(r, bytes); }
    DecodedIffApplies(seal, id, base, e, r, created, daa, c);
  }

  // ---- replay ----

  lemma {:induction false} UndoKeepsPrefix(e: Entry, k: nat)
    requires Paired(e) && k <= |e.history|
    ensures var u := Undo(e, k);
            Paired(u) && |u.history| == |e.history| - k && u.receipts <= e.receipts
    decreases k
  {
    if k != 0 { UndoKeepsPrefix(UndoOne(e), k - 1); }
  }

  lemma {:induction false} StepKeepsReceipt(seal: Seal, e: Entry, op: Op, n: nat)
    requires Paired(e) && |e.history| > n && |After(seal, e, op).history| > n
    ensures Paired(After(seal, e, op)) && After(seal, e, op).receipts[n] == e.receipts[n]
  {
    if op.DoRollback? && op.depth <= |e.history| { UndoKeepsPrefix(e, op.depth); }
  }

  lemma {:induction false} RunKeepsReceipt(seal: Seal, e: Entry, ops: seq<Op>, n: nat)
    requires Paired(e) && StaysAtLeast(seal, e, ops, n + 1)
    ensures |Run(seal, e, ops).receipts| > n && Run(seal, e, ops).receipts[n] == e.receipts[n]
    decreases |ops|
  {
    if ops != [] {
      StepKeepsReceipt(seal, e, ops[0], n);
      RunKeepsReceipt(seal, After(seal, e, ops[0]), ops[1..], n);
    }
  }

  lemma VerifySeen(id: Ids, chain: ChainId, covenant: Bytes32, e: Entry, bytes: Bytes, r: Receipt)
    requires DecodeAll(ReceiptCodec(), bytes) == Some(r) && id(r) in e.receipts
    ensures VerifyReceipt(id, chain, covenant, Some(e), bytes) == Err(ReplayedReceipt)
  {
  }

  lemma {:induction false} AppliedStays(seal: Seal, e: Entry, q: Request, ops: seq<Op>)
    requires Paired(e) && StaysAtLeast(seal, Spent(e, q), ops, |e.history| + 1)
    ensures q.receipt in Run(seal, Spent(e, q), ops).receipts
  {
    RunKeepsReceipt(seal, Spent(e, q), ops, |e.history|);
    assert Spent(e, q).receipts[|e.history|] == q.receipt;
  }

  // Once applied, the same bytes are a replay through any later spends, rollbacks and
  // certificates, for as long as the spend itself is not undone.
  lemma {:induction false} AppliedIsReplay(
    seal: Seal, id: Ids, e: Entry, bytes: Bytes, r: Receipt, created: Outpoint, daa: u64,
    c: Option<ContinuationProof>, ops: seq<Op>, chain: ChainId, covenant: Bytes32)
    requires Paired(e) && e.open.Some?
    requires DecodeAll(ReceiptCodec(), bytes) == Some(r)
    requires StaysAtLeast(seal, Spent(e, ReceiptRequest(id, e, r, created, daa, c)), ops, |e.history| + 1)
    ensures var f := Run(seal, Spent(e, ReceiptRequest(id, e, r, created, daa, c)), ops);
            VerifyReceipt(id, chain, covenant, Some(f), bytes) == Err(ReplayedReceipt)
  {
    var q := ReceiptRequest(id, e, r, created, daa, c);
    AppliedStays(seal, e, q, ops);
    VerifySeen(id, chain, covenant, Run(seal, Spent(e, q), ops), bytes, r);
  }

  // Verification looks at nothing that a rollback fails to restore.
  lemma VerifyAlike(id: Ids, chain: ChainId, covenant: Bytes32, a: Entry, b: Entry, decoded: Option<Receipt>)
    requires Alike(a, b)
    ensures VerifyDecoded(id, chain, covenant, a, decoded) == VerifyDecoded(id, chain, covenant, b, decoded)
  {
  }

  lemma SameVerdict(id: Ids, chain: ChainId, covenant: Bytes32, a: Entry, b: Entry, bytes: Bytes)
    requires forall d: Option<Receipt> :: VerifyDecoded(id, chain, covenant, a, d) == VerifyDecoded(id, chain, covenant, b, d)
    ensures VerifyReceipt(id, chain, covenant, Some(a), bytes) == VerifyReceipt(id, chain, covenant, Some(b), bytes)
  {
  }

  // Rolled back to as many spends after whatever the entry's own spends survived.
  ghost function Returned(seal: Seal, e: Entry, ops: seq<Op>): Entry {
    var f := Run(seal, e, ops);
    if |f.history| >= |e.history| then Undo(f, |f.history| - |e.history|) else f
  }

  lemma {:induction false} ReturnedVerdict(seal: Seal, id: Ids, e: Entry, ops: seq<Op>, chain: ChainId,
                                           covenant: Bytes32) returns (u: Entry)
    requires Keyed(e) && StaysAtLeast(seal, e, ops, |e.history|)
    ensures |Run(seal, e, ops).history| >= |e.history| && u == Returned(seal, e, ops)
    ensures forall d: Option<Receipt> :: VerifyDecoded(id, chain, covenant, u, d) == VerifyDecoded(id, chain, covenant, e, d)
  {
    ReturnsAlike(seal, e, ops);
    u := Returned(seal, e, ops);
    forall d: Option<Receipt> ensures VerifyDecoded(id, chain, covenant, u, d) == VerifyDecoded(id, chain, covenant, e, d) {
      VerifyAlike(id, chain, covenant, u, e, d);
    }
  }

  // Whatever spends, rollbacks and certificates follow, as long as the entry's own spends stay
  // standing: rolled back to as many spends, the same bytes get the verdict they got before.
  lemma {:induction false} RolledBackVerifiesAgain(
    seal: Seal, id: Ids, e: Entry, ops: seq<Op>, chain: ChainId, covenant: Bytes32, bytes: Bytes)
    requires Keyed(e) && StaysAtLeast(seal, e, ops, |e.history|)
    ensures |Run(seal, e, ops).history| >= |e.history|
    ensures VerifyReceipt(id, chain, covenant, Some(Returned(seal, e, ops)), bytes)
            == VerifyReceipt(id, chain, covenant, Some(e), bytes)
  {
    var u := ReturnedVerdict(seal, id, e, ops, chain, covenant);
    SameVerdict(id, chain, covenant, u, e, bytes);
  }
}
