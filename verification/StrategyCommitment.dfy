/**
 What the strategy commitment of a production plan commits to.
 */
module StrategyCommitment {
  import opened Bytes
  import opened Core
  import opened Hashing
  import opened Tally
  import opened Asset
  import opened StrategyRecord

  lemma SevenPieces(s: Bytes, a: Bytes, b: Bytes, c: Bytes, d: Bytes, e: Bytes, f: Bytes, g: Bytes, r: Bytes)
    requires s == a + b + c + d + e + f + g + r
    requires |a| == 1 && |b| == 32 && |c| == 32 && |d| == 8 && |e| == 32 && |f| == 32 && |g| == 32
    ensures |s| >= 169
    ensures a == s[..1] && b == s[1..33] && c == s[33..65] && d == s[65..73] && e == s[73..105] && f == s[105..137]
    ensures g == s[137..169] && r == s[169..]
  {
  }

  lemma FiveNumbers(s: Bytes, a: Bytes, b: Bytes, c: Bytes, d: Bytes, e: Bytes, r: Bytes)
    requires s == a + b + c + d + e + r
    requires |a| == 8 && |b| == 8 && |c| == 8 && |d| == 8 && |e| == 8
    ensures |s| >= 40
    ensures a == s[..8] && b == s[8..16] && c == s[16..24] && d == s[24..32] && e == s[32..40] && r == s[40..]
  {
  }

  lemma SameNumber(a: nat, b: nat)
    requires a < U64_LIMIT && b < U64_LIMIT && LE(8, a) == LE(8, b)
    ensures a == b
  {
    Pow256Values();
    FromLEInvertsLE(8, a);
    FromLEInvertsLE(8, b);
  }

  function Numbers(r: ContinuationReport): Bytes {
    LE(8, r.spentSupply) + LE(8, r.newSupply) + LE(8, r.burnedSupply) + LE(8, r.spentCount) + LE(8, r.newCount)
  }

  lemma PayloadParts(r: ContinuationReport, s: Strategy)
    ensures StrategyPayload(r, s)
            == [ChainTag(r.chain)] + r.schema + r.asset + LE(8, r.totalSupply) + r.previousDigest + r.shapeRoot
               + r.commitment + (Numbers(r) + StrategyTail(s))
  {
    var head := [ChainTag(r.chain)] + r.schema + r.asset + LE(8, r.totalSupply) + r.previousDigest + r.shapeRoot
                + r.commitment;
    Regroup(head, LE(8, r.spentSupply), LE(8, r.newSupply), LE(8, r.burnedSupply), LE(8, r.spentCount), LE(8, r.newCount),
            StrategyTail(s));
  }

  lemma Regroup(h: Bytes, a: Bytes, b: Bytes, c: Bytes, d: Bytes, e: Bytes, t: Bytes)
    ensures h + a + b + c + d + e + t == h + ((a + b + c + d + e) + t)
  {
  }

  lemma TailInjective(s: Strategy, t: Strategy)
    requires StrategyTail(s) == StrategyTail(t)
    ensures s == t
  {
    assert StrategyTail(s)[0] == StrategyTail(t)[0];
    match s {
      case FixedVector(x) =>
        assert StrategyTail(s)[1..9] == LE(8, SpentCount(x)) && StrategyTail(t)[1..9] == LE(8, SpentCount(t.shape));
        assert StrategyTail(s)[9..17] == LE(8, NewCount(x)) && StrategyTail(t)[9..17] == LE(8, NewCount(t.shape));
        SameNumber(SpentCount(x), SpentCount(t.shape));
        SameNumber(NewCount(x), NewCount(t.shape));
      case SegmentedAudit(c, a, b, e, n) =>
        FiveNumbers(StrategyTail(s)[1..], LE(8, c), LE(8, a), LE(8, b), LE(8, e), LE(8, n), []);
        FiveNumbers(StrategyTail(t)[1..], LE(8, t.capacity), LE(8, t.spentSegments), LE(8, t.newSegments),
                    LE(8, t.exclusionPairs), LE(8, t.proofEntries), []);
        SameNumber(c, t.capacity);
        SameNumber(a, t.spentSegments);
        SameNumber(b, t.newSegments);
        SameNumber(e, t.exclusionPairs);
        SameNumber(n, t.proofEntries);
    }
  }

  // The fields of a report that the commitment covers.
  ghost predicate SameCovered(r: ContinuationReport, q: ContinuationReport) {
    && r.chain == q.chain && r.schema == q.schema && r.asset == q.asset && r.totalSupply == q.totalSupply
    && r.previousDigest == q.previousDigest && r.shapeRoot == q.shapeRoot && r.commitment == q.commitment
    && r.spentSupply == q.spentSupply && r.newSupply == q.newSupply && r.burnedSupply == q.burnedSupply
    && r.spentCount == q.spentCount && r.newCount == q.newCount
  }

  predicate Countable(r: ContinuationReport) { r.spentCount < U64_LIMIT && r.newCount < U64_LIMIT }

  lemma NumbersInjective(r: ContinuationReport, s: Strategy, q: ContinuationReport, t: Strategy)
    requires Countable(r) && Countable(q) && Numbers(r) + StrategyTail(s) == Numbers(q) + StrategyTail(t)
    ensures r.spentSupply == q.spentSupply && r.newSupply == q.newSupply && r.burnedSupply == q.burnedSupply
    ensures r.spentCount == q.spentCount && r.newCount == q.newCount && s == t
  {
    FiveNumbers(Numbers(r) + StrategyTail(s), LE(8, r.spentSupply), LE(8, r.newSupply), LE(8, r.burnedSupply),
                LE(8, r.spentCount), LE(8, r.newCount), StrategyTail(s));
    FiveNumbers(Numbers(q) + StrategyTail(t), LE(8, q.spentSupply), LE(8, q.newSupply), LE(8, q.burnedSupply),
                LE(8, q.spentCount), LE(8, q.newCount), StrategyTail(t));
    SameNumber(r.spentSupply, q.spentSupply);
    SameNumber(r.newSupply, q.newSupply);
    SameNumber(r.burnedSupply, q.burnedSupply);
    SameNumber(r.spentCount, q.spentCount);
    SameNumber(r.newCount, q.newCount);
    TailInjective(s, t);
  }

  lemma PayloadIff(r: ContinuationReport, s: Strategy, q: ContinuationReport, t: Strategy)
    requires Countable(r) && Countable(q)
    ensures StrategyPayload(r, s) == StrategyPayload(q, t) <==> SameCovered(r, q) && s == t
  {
    if StrategyPayload(r, s) == StrategyPayload(q, t) {
      PayloadParts(r, s);
      PayloadParts(q, t);
      SevenPieces(StrategyPayload(r, s), [ChainTag(r.chain)], r.schema, r.asset, LE(8, r.totalSupply), r.previousDigest,
                  r.shapeRoot, r.commitment, Numbers(r) + StrategyTail(s));
      SevenPieces(StrategyPayload(q, t), [ChainTag(q.chain)], q.schema, q.asset, LE(8, q.totalSupply), q.previousDigest,
                  q.shapeRoot, q.commitment, Numbers(q) + StrategyTail(t));
      assert ChainTag(r.chain) == ChainTag(q.chain);
      SameNumber(r.totalSupply, q.totalSupply);
      NumbersInjective(r, s, q, t);
    }
  }

  const TAG := "rgk:asset:production-allocation-strategy:v1"

  // Barring a collision, equal commitments mean equal counts, supplies and digests and the
  // same proof strategy.
  lemma StrategyCommitmentBinds(h: Hash, r: ContinuationReport, s: Strategy, q: ContinuationReport, t: Strategy)
    requires Countable(r) && Countable(q)
    requires CollisionFree(h, {Frame(Ascii(TAG), StrategyPayload(r, s)), Frame(Ascii(TAG), StrategyPayload(q, t))})
    ensures NativeStrategyDigests(h).strategy(r, s) == NativeStrategyDigests(h).strategy(q, t)
            <==> SameCovered(r, q) && s == t
  {
    PayloadIff(r, s, q, t);
    if NativeStrategyDigests(h).strategy(r, s) == NativeStrategyDigests(h).strategy(q, t) {
      SameHash(h, TAG, StrategyPayload(r, s), StrategyPayload(q, t),
               {Frame(Ascii(TAG), StrategyPayload(r, s)), Frame(Ascii(TAG), StrategyPayload(q, t))});
    }
  }
}
