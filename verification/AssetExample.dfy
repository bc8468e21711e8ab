/**
 One asset from issue through a finalized continuation, and a hash that does not collide on it:
 the hypotheses of the run theorem and of the plan theorem can be met together.
 */
module AssetExample {
  import opened Bytes
  import opened Codec
  import opened Core
  import opened Hashing
  import opened Tally
  import opened Sorting
  import opened Asset
  import opened AssetDigests
  import opened AssetRun
  import opened Continuation

  function Coin(txid: byte): Allocation {
    Allocation(Anchor(KaspaMainnet, Outpoint(Fill(txid), 0), Fill(13), Fill(txid), 0, 1), 10, Fill(14))
  }

  const POLICY := VerifierPolicy(Fill(8))

  const ISSUE :=
    Issue(KaspaMainnet, Fill(4), Fill(5), 10, Fill(6), Fill(11), [Coin(9)], Fill(7), PublicLineage, POLICY)

  const PLAN :=
    Plan(KaspaMainnet, Fill(4), Fill(5), 10, Fill(6), Fill(11), Fill(12), Fill(15), Fill(11), [Coin(9)],
         [Shape(0, Fill(13), 10, Fill(14))], None, Fill(7), PublicLineage, POLICY)

  const SETTLED := Settlement(Fill(16), 0, 1)

  // The states the example passes through: owner 11 holds coin 9, then owner 12 holds coin 16.
  function Held(owner: byte, coin: byte): StateInput {
    StateInput(Fill(5), 10, [Coin(coin)], Fill(7), PublicLineage, POLICY, Fill(6), Fill(owner))
  }

  // A hash for the example: the two roots, then states by a byte of their owner, then the rest.
  function HashBy(one: Bytes, two: Bytes): Hash {
    (b: Bytes) =>
      if b == one then Fill(1) else if b == two then Fill(2) else if |b| == 223 then Fill(b[158]) else Fill(3)
  }

  // ---- the byte strings hashed ----

  lemma {:induction false} RootWidth(a: Allocation)
    ensures |RootPreimage([a])| == 193
  {
    var s := Sort(AllocationKey, [a]);
    SortPermutes(AllocationKey, [a]);
    assert |s| == 1;
    AllocationField();
    EncEachLength(AllocationCodec(), 157, s);
  }

  lemma PolicyWidth(k: Bytes32)
    ensures |PolicyPreimage(VerifierPolicy(k))| == 56
  {
  }

  // A state's preimage ends with its owner, privacy and lane.
  lemma StateOwnerByte(h: Hash, s: StateInput)
    ensures |StatePreimage(h, s)| == 223 && StatePreimage(h, s)[158] == s.owner[0]
  {
    var front := s.asset + LE(8, s.totalSupply) + AllocationRoot(h, s.allocations) + PolicyCommitment(h, s.policy)
                 + s.metadata;
    assert |front| == 136;
    var tail := s.owner + [PrivacyTag(s.privacy)] + s.lane;
    assert StatePayload(h, s) == front + tail;
    assert StatePreimage(h, s) == (LE(4, 18) + Ascii("rgk:asset:state:v2") + front) + tail;
  }

  lemma {:induction false} RootsDiffer(a: Allocation, b: Allocation)
    requires a != b
    ensures RootPreimage([a]) != RootPreimage([b])
  {
    assert a in multiset([a]) && a !in multiset([b]);
    RootPayloadIffPermutation([a], [b]);
    var tag := Ascii("rgk:asset:allocation-root:v1");
    FrameInjective(tag, RootPayload([a]), tag, RootPayload([b]));
  }

  lemma HashCases(one: Bytes, two: Bytes, b: Bytes)
    requires one != two && |one| == |two| == 193
    ensures b == one ==> HashBy(one, two)(b) == Fill(1)
    ensures b == two ==> HashBy(one, two)(b) == Fill(2)
    ensures |b| == 223 ==> HashBy(one, two)(b) == Fill(b[158])
    ensures |b| == 56 ==> HashBy(one, two)(b) == Fill(3)
  {
  }

  lemma {:induction false} StateHashes(one: Bytes, two: Bytes, s: StateInput)
    requires one != two && |one| == |two| == 193
    ensures HashBy(one, two)(StatePreimage(HashBy(one, two), s)) == Fill(s.owner[0])
  {
    StateOwnerByte(HashBy(one, two), s);
    HashCases(one, two, StatePreimage(HashBy(one, two), s));
  }

  ghost predicate Suits(h: Hash, one: Bytes, two: Bytes, policy: Bytes, s: StateInput, s': StateInput) {
    && h(one) == Fill(1) && h(two) == Fill(2) && h(policy) == Fill(3)
    && h(StatePreimage(h, s)) == Fill(s.owner[0]) && h(StatePreimage(h, s')) == Fill(s'.owner[0])
  }

  lemma {:induction false} PickHash(one: Bytes, two: Bytes, policy: Bytes, s: StateInput, s': StateInput)
    requires one != two && |one| == |two| == 193 && |policy| == 56
    ensures Suits(HashBy(one, two), one, two, policy, s, s')
  {
    HashCases(one, two, one);
    HashCases(one, two, two);
    HashCases(one, two, policy);
    StateHashes(one, two, s);
    StateHashes(one, two, s');
  }

  // A hash that keeps apart every byte string behind two states with one coin each.
  lemma {:induction false} HashFor(a: Allocation, b: Allocation, k: Bytes32, s: StateInput, s': StateInput)
    returns (h: Hash)
    requires a != b && s.allocations == [a] && s'.allocations == [b] && s.policy == s'.policy == VerifierPolicy(k)
    requires s.owner == Fill(11) && s'.owner == Fill(12)
    ensures StateDigest(h, s) == Fill(11)
    ensures KeptApart(h, s, s')
  {
    var one, two, policy := RootPreimage([a]), RootPreimage([b]), PolicyPreimage(VerifierPolicy(k));
    assert |one| == 193 && |two| == 193 by { RootWidth(a); RootWidth(b); }
    assert one != two by { RootsDiffer(a, b); }
    assert |policy| == 56 by { PolicyWidth(k); }
    h := HashBy(one, two);
    assert Suits(h, one, two, policy, s, s') by { PickHash(one, two, policy, s, s'); }
    forall all: set<Bytes> | all <= StatePreimages(h, s) + StatePreimages(h, s') ensures CollisionFree(h, all) {
      FiveApart(h, one, two, policy, StatePreimage(h, s), StatePreimage(h, s'), all);
    }
  }

  lemma {:induction false} FiveApart(h: Hash, r: Bytes, r': Bytes, p: Bytes, s: Bytes, s': Bytes, all: set<Bytes>)
    requires h(r) == Fill(1) && h(r') == Fill(2) && h(p) == Fill(3) && h(s) == Fill(11) && h(s') == Fill(12)
    requires all <= {r, p, s} + {r', p, s'}
    ensures CollisionFree(h, all)
  {
    FillDiffers(1, 2); FillDiffers(1, 3); FillDiffers(1, 11); FillDiffers(1, 12);
    FillDiffers(2, 3); FillDiffers(2, 11); FillDiffers(2, 12);
    FillDiffers(3, 11); FillDiffers(3, 12);
    FillDiffers(11, 12);
  }

  // ---- the example is valid ----

  lemma {:induction false} NonZero(b: byte)
    requires b != 0
    ensures Fill(b) != ZERO32
  {
    FillDiffers(b, b);
  }

  lemma {:induction false} CoinWellFormed(b: byte)
    requires b != 0
    ensures WellFormedSet(KaspaMainnet, [Coin(b)]) && Supply([Coin(b)]) == 10
  {
    NonZero(b);
    NonZero(13);
    NonZero(14);
    assert [Coin(b)][..0] == [];
    assert Sum(AllocationAmount, [Coin(b)]) == Sum(AllocationAmount, []) + 10;
  }

  lemma {:induction false} IssueIsValid(d: Digests)
    ensures ValidRun(d, Run(ISSUE, []))
  {
    NonZero(4); NonZero(5); NonZero(6); NonZero(7); NonZero(8); NonZero(11);
    CoinWellFormed(9);
    IssueMeans(d, ISSUE);
  }

  lemma {:induction false} PlanIsValid(d: Digests)
    requires d.state(Held(11, 9)) == Fill(11)
    ensures ValidatePlan(d, PLAN).Ok?
  {
    NonZero(4); NonZero(5); NonZero(6); NonZero(7); NonZero(8); NonZero(11); NonZero(12); NonZero(15);
    CoinWellFormed(9);
    assert WellFormedShapes(PLAN.shapes) && ShapeSupply(PLAN.shapes) == 10 by {
      NonZero(13);
      NonZero(14);
      assert PLAN.shapes[..0] == [];
      assert Sum(ShapeAmount, PLAN.shapes) == Sum(ShapeAmount, []) + 10;
    }
    PlanMeans(d, PLAN);
  }

  lemma {:induction false} SettlementIsSound()
    ensures SETTLED.txid != ZERO32 && !LandsOnSpent(PLAN, SETTLED)
    ensures PreviousState(FinalTransition(PLAN, SETTLED)) == Held(11, 9) == PlanState(PLAN)
    ensures NewState(FinalTransition(PLAN, SETTLED)) == Held(12, 16)
  {
    NonZero(16);
    FillDiffers(9, 16);
    assert SettleAll(KaspaMainnet, SETTLED, PLAN.shapes) == [Coin(16)];
  }

  // The hypotheses of the run theorem, and those of the plan theorem.
  ghost predicate RunApplies(h: Hash, r: Run) {
    ValidRun(NativeDigests(h), r) && CollisionFree(h, RunPreimages(h, r))
  }

  ghost predicate PlanApplies(h: Hash, r: Run, p: Plan, x: Settlement) {
    && ValidRun(NativeDigests(h), r) && ValidatePlan(NativeDigests(h), p).Ok?
    && p.previousDigest == NativeDigests(h).state(StateAfter(r, |r.steps|))
    && CollisionFree(h, PlanPreimages(h, r, p, x))
  }

  ghost predicate KeptApart(h: Hash, s: StateInput, s': StateInput) {
    forall all: set<Bytes> :: all <= StatePreimages(h, s) + StatePreimages(h, s') ==> CollisionFree(h, all)
  }

  lemma {:induction false} PlanPreimagesAre(h: Hash, r: Run, p: Plan, x: Settlement, s: StateInput, s': StateInput)
    requires r.steps == [] && s == IssueState(r.issue) == PlanState(p) && s' == NewState(FinalTransition(p, x))
    ensures PlanPreimages(h, r, p, x) <= StatePreimages(h, s) + StatePreimages(h, s')
  {
    IssuePreimages(h, r);
    Absorbed(RunPreimages(h, r), StatePreimages(h, s), StatePreimages(h, s'));
  }

  lemma {:induction false} IssuePreimages(h: Hash, r: Run)
    requires r.steps == []
    ensures RunPreimages(h, r) <= StatePreimages(h, IssueState(r.issue))
  {
  }

  lemma Absorbed(all: set<Bytes>, a: set<Bytes>, b: set<Bytes>)
    requires all <= a
    ensures all + a + a + b <= a + b
  {
  }

  lemma {:induction false} PlanMeets(h: Hash, i: Issue, p: Plan, x: Settlement, s: StateInput, s': StateInput)
    requires ValidRun(NativeDigests(h), Run(i, [])) && ValidatePlan(NativeDigests(h), p).Ok?
    requires p.previousDigest == NativeDigests(h).state(s)
    requires s == IssueState(i) == PlanState(p) && s' == NewState(FinalTransition(p, x)) && KeptApart(h, s, s')
    ensures PlanApplies(h, Run(i, []), p, x)
  {
    PlanPreimagesAre(h, Run(i, []), p, x, s, s');
  }

  lemma {:induction false} FinalizedExtends(d: Digests, r: Run, p: Plan, x: Settlement)
    requires ValidatePlan(d, p).Ok? && PlanLaws(d, r, p, x)
    requires x.txid != ZERO32 && x.depth >= 1 && !LandsOnSpent(p, x)
    ensures Finalize(d, p, x).Ok? && ValidRun(d, r.(steps := r.steps + [FinalTransition(p, x)]))
  {
    FinalizedReportsAgree(d, p, x);
  }

  lemma {:induction false} RunMeets(h: Hash, i: Issue, t: Transition, s: StateInput, s': StateInput)
    requires ValidRun(NativeDigests(h), Run(i, [t])) && KeptApart(h, s, s')
    requires s == IssueState(i) == PreviousState(t) && s' == NewState(t)
    ensures RunApplies(h, Run(i, [t]))
  {
    OneStepPreimages(h, Run(i, [t]), s, s');
  }

  // An issue, a plan and a settlement to which the plan theorem applies; the plan finalizes, and
  // the run theorem applies to the run it extends.
  lemma {:induction false} TheoremsApply() returns (h: Hash)
    ensures PlanApplies(h, Run(ISSUE, []), PLAN, SETTLED)
    ensures Finalize(NativeDigests(h), PLAN, SETTLED).Ok?
    ensures RunApplies(h, Run(ISSUE, [FinalTransition(PLAN, SETTLED)]))
  {
    FillDiffers(9, 16);
    var r, s, s' := Run(ISSUE, []), Held(11, 9), Held(12, 16);
    h := HashFor(Coin(9), Coin(16), Fill(8), s, s');
    var d := NativeDigests(h);
    SettlementIsSound();
    assert ValidRun(d, r) by { IssueIsValid(d); }
    assert ValidatePlan(d, PLAN).Ok? by { PlanIsValid(d); }
    PlanMeets(h, ISSUE, PLAN, SETTLED, s, s');
    PlanAtEndOfRun(h, r, PLAN, SETTLED);
    FinalizedExtends(d, r, PLAN, SETTLED);
    assert r.steps + [FinalTransition(PLAN, SETTLED)] == [FinalTransition(PLAN, SETTLED)];
    RunMeets(h, ISSUE, FinalTransition(PLAN, SETTLED), s, s');
  }

  lemma {:induction false} OneStepPreimages(h: Hash, r: Run, s: StateInput, s': StateInput)
    requires |r.steps| == 1 && IssueState(r.issue) == s
    requires PreviousState(r.steps[0]) == s && NewState(r.steps[0]) == s'
    ensures RunPreimages(h, r) <= StatePreimages(h, s) + StatePreimages(h, s')
  {
  }
}
