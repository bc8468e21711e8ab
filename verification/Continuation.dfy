/**
 Two-phase continuation: a plan commits to the next outputs before the spending
 transaction id exists, and finalizing it with that id yields a transition. Also the
 semantic statement rgk-zk derives from the two reports.
 */
module Continuation {
  import opened Bytes
  import opened Core
  import opened Hashing
  import opened Tally
  import opened Asset
  import opened AssetDigests
  import opened AssetRun

  function PlanState(p: Plan): StateInput {
    StateInput(p.asset, p.totalSupply, p.spent, p.lane, p.privacy, p.policy, p.metadata, p.previousOwner)
  }

  function ValidatePlan(d: Digests, p: Plan): Result<ContinuationReport, AssetError> {
    var header := ValidateHeader(p.schema, p.asset, p.totalSupply, p.lane, p.policy, p.metadata,
                                 p.previousOwner, p.newOwner, p.ownershipAuthorization, p.previousDigest);
    if header.Fail? then Err(header.error)
    else if p.spent == [] then Err(EmptyAllocations)
    else
      var spentSupply :- AllocationTotal(p.chain, p.spent);
      if d.state(PlanState(p)) != p.previousDigest then Err(PreviousDigestMismatch)
      else
        var newSupply :- ShapeTotal(p.shapes, p.burn);
        var burned :- SupplyDelta(spentSupply, newSupply, p.burn);
        Ok(ContinuationReport(p.chain, p.schema, p.asset, p.totalSupply, p.metadata, p.previousOwner, p.newOwner,
                              p.ownershipAuthorization, spentSupply, newSupply, burned, BurnAuthorization(p.burn),
                              |p.spent|, |p.shapes|, p.lane, p.privacy, d.policy(p.policy), p.previousDigest,
                              d.shapes(p.chain, p.shapes), d.continuation(p)))
  }

  ghost predicate PlanRules(d: Digests, p: Plan) {
    && HeaderRules(p.schema, p.asset, p.totalSupply, p.lane, p.policy, p.metadata, p.previousOwner, p.newOwner,
                   p.ownershipAuthorization, p.previousDigest)
    && p.spent != []
    && WellFormedSet(p.chain, p.spent)
    && d.state(PlanState(p)) == p.previousDigest
    && WellFormedShapes(p.shapes) && (p.shapes == [] ==> p.burn.Some?)
    && Conserves(Supply(p.spent), ShapeSupply(p.shapes), p.burn)
  }

  lemma PlanMeans(d: Digests, p: Plan)
    ensures ValidatePlan(d, p).Ok? <==> PlanRules(d, p)
    ensures ValidatePlan(d, p).Ok? ==>
              var r := ValidatePlan(d, p).value;
              && r.spentSupply == Supply(p.spent) && r.newSupply == ShapeSupply(p.shapes)
              && r.newSupply + r.burnedSupply == r.spentSupply
  {
    PolicyMeans(p.policy);
    AllocationTotalMeans(p.chain, p.spent);
    ShapeTotalMeans(p.shapes, p.burn);
    if WellFormedSet(p.chain, p.spent) && WellFormedShapes(p.shapes) {
      SupplyDeltaMeans(Supply(p.spent), ShapeSupply(p.shapes), p.burn);
    }
  }

  // ---- finalization ----

  datatype Settlement = Settlement(txid: Bytes32, daaScore: u64, depth: u64)

  function Settle(chain: ChainId, x: Settlement, s: Shape): Allocation {
    Allocation(Anchor(chain, Outpoint(x.txid, s.outputIndex), s.covenant, x.txid, x.daaScore, x.depth),
               s.amount, s.note)
  }

  function SettleAll(chain: ChainId, x: Settlement, s: seq<Shape>): (r: seq<Allocation>)
    ensures |r| == |s|
    ensures forall i :: 0 <= i < |s| ==> r[i] == Settle(chain, x, s[i])
  {
    seq(|s|, i requires 0 <= i < |s| => Settle(chain, x, s[i]))
  }

  function FinalTransition(p: Plan, x: Settlement): Transition {
    Transition(p.chain, p.schema, p.asset, p.totalSupply, p.metadata, p.previousOwner, p.newOwner,
               p.ownershipAuthorization, p.previousDigest, p.spent, SettleAll(p.chain, x, p.shapes), p.burn,
               x.txid, p.lane, p.privacy, p.policy)
  }

  datatype Finalized = Finalized(commitment: Bytes32, transition: Transition, report: TransitionReport)

  function Finalize(d: Digests, p: Plan, x: Settlement): Result<Finalized, AssetError> {
    var continuation :- ValidatePlan(d, p);
    var t := FinalTransition(p, x);
    var report :- ValidateTransition(d, t);
    Ok(Finalized(continuation.commitment, t, report))
  }

  ghost predicate LandsOnSpent(p: Plan, x: Settlement) {
    exists i :: 0 <= i < |p.shapes| && Outpoint(x.txid, p.shapes[i].outputIndex) in OutpointSet(p.spent)
  }

  lemma {:induction false} SettledSupply(chain: ChainId, x: Settlement, s: seq<Shape>)
    ensures Supply(SettleAll(chain, x, s)) == ShapeSupply(s)
  {
    if s != [] {
      var t := s[..|s| - 1];
      SettledSupply(chain, x, t);
      assert SettleAll(chain, x, s)[..|s| - 1] == SettleAll(chain, x, t);
    }
  }

  lemma SettledDistinct(chain: ChainId, x: Settlement, s: seq<Shape>)
    requires DistinctIds(ShapeOutput, s)
    ensures DistinctIds(SpentOutpoint, SettleAll(chain, x, s))
  {
    var a := SettleAll(chain, x, s);
    forall i, j | 0 <= i < j < |a| ensures SpentOutpoint(a[i]) != SpentOutpoint(a[j]) {
      assert ShapeOutput(s[i]) != ShapeOutput(s[j]);
    }
  }

  // Settling well-formed shapes gives a well-formed set exactly when the transaction id
  // is non-zero and the anchor is confirmed, or there is nothing to settle.
  lemma SettledWellFormed(chain: ChainId, x: Settlement, s: seq<Shape>)
    requires WellFormedShapes(s)
    ensures WellFormedSet(chain, SettleAll(chain, x, s)) <==> s == [] || (x.txid != ZERO32 && x.depth != 0)
  {
    var a := SettleAll(chain, x, s);
    SettledSupply(chain, x, s);
    SettledDistinct(chain, x, s);
    if s != [] {
      assert a[0] in a;
      forall y | y in a ensures Anchored(chain, y) <==> x.txid != ZERO32 && x.depth != 0 {
        var i :| 0 <= i < |a| && a[i] == y;
        assert s[i] in s;
      }
    }
  }

  lemma SettledDisjoint(p: Plan, x: Settlement)
    ensures OutpointSet(p.spent) !! OutpointSet(SettleAll(p.chain, x, p.shapes)) <==> !LandsOnSpent(p, x)
  {
    var a := SettleAll(p.chain, x, p.shapes);
    if LandsOnSpent(p, x) {
      var i :| 0 <= i < |p.shapes| && Outpoint(x.txid, p.shapes[i].outputIndex) in OutpointSet(p.spent);
      assert SpentOutpoint(a[i]) in OutpointSet(a);
    } else {
      forall o | o in OutpointSet(a) ensures o !in OutpointSet(p.spent) {
        var i :| 0 <= i < |a| && SpentOutpoint(a[i]) == o;
        assert o == Outpoint(x.txid, p.shapes[i].outputIndex);
      }
    }
  }

  // Permutations of a non-empty allocation set share an outpoint.
  lemma PermutationShares(a: seq<Allocation>, b: seq<Allocation>)
    requires a != [] && multiset(a) == multiset(b)
    ensures !(OutpointSet(a) !! OutpointSet(b))
  {
    assert a[0] in multiset(b);
    var j :| 0 <= j < |b| && b[j] == a[0];
    assert SpentOutpoint(a[0]) in OutpointSet(a) && SpentOutpoint(b[j]) in OutpointSet(b);
  }

  // The state digest tells the plan's two states apart.
  ghost predicate Separates(d: Digests, p: Plan, x: Settlement) {
    var t := FinalTransition(p, x);
    d.state(PlanState(p)) == d.state(NewState(t)) ==> SameState(PlanState(p), NewState(t))
  }

  // A valid plan finalizes exactly when the transaction id is non-zero, the depth is at
  // least one unless there is no output, and no output lands on a spent outpoint.
  lemma FinalizeIff(d: Digests, p: Plan, x: Settlement)
    requires ValidatePlan(d, p).Ok? && Separates(d, p, x)
    ensures Finalize(d, p, x).Ok? <==>
              x.txid != ZERO32 && (x.depth >= 1 || p.shapes == []) && !LandsOnSpent(p, x)
  {
    var t := FinalTransition(p, x);
    PlanMeans(d, p);
    TransitionMeans(d, t);
    SettledWellFormed(p.chain, x, p.shapes);
    SettledSupply(p.chain, x, p.shapes);
    SettledDisjoint(p, x);
    assert PreviousState(t) == PlanState(p);
    if multiset(t.spent) == multiset(t.created) { PermutationShares(t.spent, t.created); }
  }

  // The eighteen fields the semantic statement compares.
  ghost predicate ReportsAgree(t: TransitionReport, c: ContinuationReport) {
    && t.chain == c.chain && t.schema == c.schema && t.asset == c.asset && t.totalSupply == c.totalSupply
    && t.spentSupply == c.spentSupply && t.newSupply == c.newSupply && t.burnedSupply == c.burnedSupply
    && t.burnAuthorization == c.burnAuthorization && t.spentCount == c.spentCount && t.newCount == c.newCount
    && t.lane == c.lane && t.privacy == c.privacy && t.policyCommitment == c.policyCommitment
    && t.metadata == c.metadata && t.previousOwner == c.previousOwner && t.newOwner == c.newOwner
    && t.ownershipAuthorization == c.ownershipAuthorization && t.previousDigest == c.previousDigest
  }

  lemma FinalizedReportsAgree(d: Digests, p: Plan, x: Settlement)
    requires Finalize(d, p, x).Ok?
    ensures ReportsAgree(Finalize(d, p, x).value.report, ValidatePlan(d, p).value)
    ensures Finalize(d, p, x).value.commitment == ValidatePlan(d, p).value.commitment
    ensures Finalize(d, p, x).value.transition == FinalTransition(p, x)
  {
    PlanMeans(d, p);
    TransitionMeans(d, FinalTransition(p, x));
    SettledSupply(p.chain, x, p.shapes);
  }

  // ---- the semantic statement (rgk-zk) ----

  datatype Statement = Statement(
    chain: ChainId, schema: Bytes32, asset: Bytes32, previousDigest: Bytes32, newDigest: Bytes32,
    transitionDigest: Bytes32, commitment: Bytes32, shapeRoot: Bytes32, lane: Bytes32, privacy: Privacy,
    policyCommitment: Bytes32, metadata: Bytes32, previousOwner: Bytes32, newOwner: Bytes32,
    ownershipAuthorization: Bytes32, totalSupply: u64, spentCount: nat, newCount: nat,
    spentSupply: u64, newSupply: u64, burnedSupply: u64, burnAuthorization: Bytes32)

  datatype ZkError = Mismatch | ZeroField | NoAuthorization | NoOpDigest | BadSupply | BadCount | BadBurn

  function ValidateStatement(s: Statement): Outcome<ZkError> {
    if s.schema == ZERO32 || s.asset == ZERO32 || s.previousDigest == ZERO32 || s.newDigest == ZERO32
       || s.transitionDigest == ZERO32 || s.commitment == ZERO32 || s.shapeRoot == ZERO32 || s.lane == ZERO32
       || s.policyCommitment == ZERO32 || s.metadata == ZERO32 || s.previousOwner == ZERO32 || s.newOwner == ZERO32
    then Fail(ZeroField)
    else if s.previousOwner != s.newOwner && s.ownershipAuthorization == ZERO32 then Fail(NoAuthorization)
    else if s.previousDigest == s.newDigest then Fail(NoOpDigest)
    else if s.totalSupply == 0 then Fail(BadSupply)
    else if s.spentCount == 0 then Fail(BadCount)
    else if s.spentSupply == 0 then Fail(BadSupply)
    else if s.spentSupply > s.totalSupply || s.newSupply > s.totalSupply then Fail(BadSupply)
    else if s.newSupply + s.burnedSupply >= U64_LIMIT then Fail(BadSupply)
    else if s.newSupply + s.burnedSupply != s.spentSupply then Fail(BadSupply)
    else if s.newCount == 0 && s.burnedSupply == 0 then Fail(BadCount)
    else if s.newSupply == 0 && s.burnedSupply == 0 then Fail(BadSupply)
    else if s.burnedSupply == 0 && s.burnAuthorization != ZERO32 then Fail(BadBurn)
    else if s.burnedSupply != 0 && s.burnAuthorization == ZERO32 then Fail(BadBurn)
    else Pass
  }

  // `SemanticTransitionStatement::from_reports`
  function FromReports(t: TransitionReport, c: ContinuationReport): Result<Statement, ZkError> {
    if t.chain != c.chain || t.schema != c.schema || t.asset != c.asset || t.totalSupply != c.totalSupply
       || t.spentSupply != c.spentSupply || t.newSupply != c.newSupply || t.burnedSupply != c.burnedSupply
       || t.burnAuthorization != c.burnAuthorization || t.spentCount != c.spentCount || t.newCount != c.newCount
       || t.lane != c.lane || t.privacy != c.privacy || t.policyCommitment != c.policyCommitment
       || t.metadata != c.metadata || t.previousOwner != c.previousOwner || t.newOwner != c.newOwner
       || t.ownershipAuthorization != c.ownershipAuthorization || t.previousDigest != c.previousDigest
    then Err(Mismatch)
    else
      var s := Statement(t.chain, t.schema, t.asset, t.previousDigest, t.newDigest, t.transitionDigest, c.commitment,
                         c.shapeRoot, t.lane, t.privacy, t.policyCommitment, t.metadata, t.previousOwner, t.newOwner,
                         t.ownershipAuthorization, t.totalSupply, t.spentCount, t.newCount, t.spentSupply,
                         t.newSupply, t.burnedSupply, t.burnAuthorization);
      match ValidateStatement(s)
      case Fail(e) => Err(e)
      case Pass => Ok(s)
  }

  // The five statement fields that are hash outputs no validator has checked.
  ghost predicate NonZeroHashes(t: TransitionReport, c: ContinuationReport) {
    && t.newDigest != ZERO32 && t.transitionDigest != ZERO32 && t.policyCommitment != ZERO32
    && c.commitment != ZERO32 && c.shapeRoot != ZERO32
  }

  lemma PositiveSupply(chain: ChainId, s: seq<Allocation>)
    requires WellFormedSet(chain, s) && s != []
    ensures Supply(s) > 0
  {
    assert Last(s) in s;
  }

  // Finalized within the issued supply, the two reports yield a statement unless one of
  // the five hashes happens to be zero.
  lemma StatementIff(d: Digests, p: Plan, x: Settlement)
    requires Finalize(d, p, x).Ok?
    requires Supply(p.spent) <= p.totalSupply
    ensures var t, c := Finalize(d, p, x).value.report, ValidatePlan(d, p).value;
            FromReports(t, c).Ok? <==> NonZeroHashes(t, c)
  {
    var t, c := Finalize(d, p, x).value.report, ValidatePlan(d, p).value;
    assert ReportsAgree(t, c) by { FinalizedReportsAgree(d, p, x); }
    StatementMaterial(d, p, x);
    StatementFrom(t, c);
  }

  // What a statement needs of a transition report besides the five hashes.
  ghost predicate Statable(t: TransitionReport) {
    && t.schema != ZERO32 && t.asset != ZERO32 && t.previousDigest != ZERO32 && t.lane != ZERO32 && t.metadata != ZERO32
    && t.previousOwner != ZERO32 && t.newOwner != ZERO32
    && (t.previousOwner == t.newOwner || t.ownershipAuthorization != ZERO32)
    && t.previousDigest != t.newDigest
    && t.totalSupply != 0 && t.spentCount != 0 && t.spentSupply != 0
    && t.spentSupply <= t.totalSupply && t.newSupply + t.burnedSupply == t.spentSupply
    && (t.newCount == 0 ==> t.burnedSupply != 0)
    && (t.burnedSupply == 0 <==> t.burnAuthorization == ZERO32)
  }

  lemma StatementFrom(t: TransitionReport, c: ContinuationReport)
    requires ReportsAgree(t, c) && Statable(t)
    ensures FromReports(t, c).Ok? <==> NonZeroHashes(t, c)
  {
  }

  lemma StatementMaterial(d: Digests, p: Plan, x: Settlement)
    requires Finalize(d, p, x).Ok? && Supply(p.spent) <= p.totalSupply
    ensures Statable(Finalize(d, p, x).value.report)
  {
    var tr := FinalTransition(p, x);
    PlanMeans(d, p);
    TransitionMeans(d, tr);
    PositiveSupply(p.chain, p.spent);
  }

  // ---- plans at the end of a run ----

  ghost predicate BindsPlan(d: Digests, r: Run, p: Plan) {
    d.state(StateAfter(r, |r.steps|)) == d.state(PlanState(p)) ==> SameState(StateAfter(r, |r.steps|), PlanState(p))
  }

  lemma {:induction false} TotalSupplyFixed(r: Run, n: nat)
    requires Linked(r) && n <= |r.steps|
    ensures StateAfter(r, n).totalSupply == r.issue.totalSupply
  {
    if n > 0 { StaticsNeverChange(r, n - 1); }
  }

  // A plan that continues a run spends exactly the run's last state, so no more than was
  // issued.
  lemma PlanContinuesRun(d: Digests, r: Run, p: Plan)
    requires ValidRun(d, r) && Binding(d, r) && BindsPlan(d, r, p)
    requires ValidatePlan(d, p).Ok? && p.previousDigest == d.state(StateAfter(r, |r.steps|))
    ensures SameState(StateAfter(r, |r.steps|), PlanState(p))
    ensures p.totalSupply == r.issue.totalSupply && Supply(p.spent) <= p.totalSupply
  {
    var last := StateAfter(r, |r.steps|);
    assert d.state(PlanState(p)) == p.previousDigest by { PlanMeans(d, p); }
    assert SameState(last, PlanState(p));
    assert Supply(last.allocations) <= r.issue.totalSupply by { RunConservesSupply(d, r, |r.steps|); }
    assert last.totalSupply == r.issue.totalSupply by {
      RunIsLinked(d, r);
      TotalSupplyFixed(r, |r.steps|);
    }
    SumOfPermutation(AllocationAmount, last.allocations, p.spent);
  }

  function PlanPreimages(h: Hash, r: Run, p: Plan, x: Settlement): set<Bytes> {
    RunPreimages(h, r) + StatePreimages(h, StateAfter(r, |r.steps|)) + StatePreimages(h, PlanState(p))
    + StatePreimages(h, NewState(FinalTransition(p, x)))
  }

  lemma NativePlanBinding(h: Hash, r: Run, p: Plan, x: Settlement)
    requires ValidRun(NativeDigests(h), r) && ValidatePlan(NativeDigests(h), p).Ok?
    requires CollisionFree(h, PlanPreimages(h, r, p, x))
    ensures BindsPlan(NativeDigests(h), r, p) && Separates(NativeDigests(h), p, x)
  {
    var d := NativeDigests(h);
    var t := FinalTransition(p, x);
    var all := PlanPreimages(h, r, p, x);
    assert DistinctIds(SpentOutpoint, p.spent) && WellFormedShapes(p.shapes) by { PlanMeans(d, p); }
    StateAfterWellFormed(d, r, |r.steps|);
    SettledDistinct(p.chain, x, p.shapes);
    DigestIffSameState(h, StateAfter(r, |r.steps|), PlanState(p), all);
    DigestIffSameState(h, PlanState(p), NewState(t), all);
  }

  // The plan finalizes exactly when its settlement is sound; its reports then agree, yield a
  // semantic statement unless one of the five hashes in it is zero, and the finalized
  // transition extends the run.
  ghost predicate PlanLaws(d: Digests, r: Run, p: Plan, x: Settlement)
    requires ValidatePlan(d, p).Ok?
  {
    && (Finalize(d, p, x).Ok? <==> x.txid != ZERO32 && (x.depth >= 1 || p.shapes == []) && !LandsOnSpent(p, x))
    && (Finalize(d, p, x).Ok? ==>
          var t, c := Finalize(d, p, x).value.report, ValidatePlan(d, p).value;
          && ReportsAgree(t, c)
          && (FromReports(t, c).Ok? <==> NonZeroHashes(t, c))
          && ValidRun(d, r.(steps := r.steps + [Finalize(d, p, x).value.transition])))
  }

  lemma BoundPlanAtEndOfRun(d: Digests, r: Run, p: Plan, x: Settlement)
    requires ValidRun(d, r) && Binding(d, r) && BindsPlan(d, r, p) && Separates(d, p, x)
    requires ValidatePlan(d, p).Ok? && p.previousDigest == d.state(StateAfter(r, |r.steps|))
    ensures PlanLaws(d, r, p, x)
  {
    FinalizeIff(d, p, x);
    if Finalize(d, p, x).Ok? {
      FinalizedReportsAgree(d, p, x);
      PlanContinuesRun(d, r, p);
      StatementIff(d, p, x);
      ExtendRun(d, r, Finalize(d, p, x).value.transition);
    }
  }

  // From a valid issue through any run to a finalized continuation, barring collisions
  // among the byte strings hashed on the way.
  lemma PlanAtEndOfRun(h: Hash, r: Run, p: Plan, x: Settlement)
    requires ValidRun(NativeDigests(h), r) && ValidatePlan(NativeDigests(h), p).Ok?
    requires p.previousDigest == NativeDigests(h).state(StateAfter(r, |r.steps|))
    requires CollisionFree(h, PlanPreimages(h, r, p, x))
    ensures PlanLaws(NativeDigests(h), r, p, x)
  {
    NativePlanBinding(h, r, p, x);
    assert CollisionFree(h, RunPreimages(h, r));
    NativeBinding(h, r);
    BoundPlanAtEndOfRun(NativeDigests(h), r, p, x);
  }

  lemma KeepStep(d: Digests, r: Run, r': Run, i: nat)
    requires i < |r.steps| && r.issue == r'.issue && r.steps <= r'.steps
    requires ValidStep(d, r, i)
    ensures ValidStep(d, r', i)
  {
    assert r'.steps[i] == r.steps[i];
    assert StateAfter(r', i) == StateAfter(r, i);
  }

  lemma ExtendRun(d: Digests, r: Run, t: Transition)
    requires ValidRun(d, r) && ValidateTransition(d, t).Ok?
    requires t.previousDigest == d.state(StateAfter(r, |r.steps|))
    ensures ValidRun(d, r.(steps := r.steps + [t]))
  {
    var r' := r.(steps := r.steps + [t]);
    var n := |r.steps|;
    assert StateAfter(r', n) == StateAfter(r, n) && r'.steps[n] == t;
    assert ValidStep(d, r', n);
    forall i | 0 <= i < |r'.steps| ensures ValidStep(d, r', i) {
      if i < n { KeepStep(d, r, r', i); }
    }
  }
}
