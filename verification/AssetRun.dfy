/**
 Whole runs of an asset: a valid issue followed by any number of valid transitions,
 each naming the state digest its predecessor produced.
 */
module AssetRun {
  import opened Bytes
  import opened Core
  import opened Hashing
  import opened Tally
  import opened Asset
  import opened AssetDigests

  // ---- what one validation means ----

  // Every key and image id a proof policy names.
  function NamedKeys(p: ProofPolicy): seq<Bytes32> {
    match p
    case VerifierPolicy(k) => [k]
    case ZkPolicy(k, images) =>
      [k] + (match images case Fixed(id) => [id] case AllowedSet(ids) => ids case PolicyBranch(b) => [b])
    case HybridPolicy(a, b) => [a, b]
  }

  // A policy is usable when none of them is zero and an allowed set allows something.
  predicate UsablePolicy(p: ProofPolicy) {
    ZERO32 !in NamedKeys(p) && (p.ZkPolicy? && p.images.AllowedSet? ==> p.images.ids != [])
  }

  lemma PolicyMeans(p: ProofPolicy)
    ensures ValidatePolicy(p).Pass? <==> UsablePolicy(p)
  {
    if p.ZkPolicy? && p.images.AllowedSet? {
      assert ZERO32 in NamedKeys(p) <==> p.keyId == ZERO32 || ZERO32 in p.images.ids;
    }
  }

  ghost predicate HeaderRules(schema: Bytes32, asset: Bytes32, totalSupply: u64, lane: Bytes32, policy: ProofPolicy,
                              metadata: Bytes32, previousOwner: Bytes32, newOwner: Bytes32,
                              authorization: Bytes32, previousDigest: Bytes32)
  {
    && schema != ZERO32 && asset != ZERO32 && totalSupply != 0 && lane != ZERO32 && UsablePolicy(policy)
    && metadata != ZERO32 && previousOwner != ZERO32 && newOwner != ZERO32
    && (previousOwner == newOwner || authorization != ZERO32)
    && previousDigest != ZERO32
  }

  // A burn proof is present exactly when supply shrinks, and is for the difference.
  ghost predicate Conserves(spent: nat, created: nat, burn: Option<Burn>) {
    && created <= spent
    && (burn.None? <==> created == spent)
    && (burn.Some? ==> burn.value.amount == spent - created && burn.value.authorization != ZERO32)
  }

  ghost predicate TransitionRules(d: Digests, t: Transition) {
    && HeaderRules(t.schema, t.asset, t.totalSupply, t.lane, t.policy, t.metadata, t.previousOwner, t.newOwner,
                   t.ownershipAuthorization, t.previousDigest)
    && t.witnessTxid != ZERO32
    && t.spent != []
    && WellFormedSet(t.chain, t.spent) && WellFormedSet(t.chain, t.created)
    && Conserves(Supply(t.spent), Supply(t.created), t.burn)
    && d.state(PreviousState(t)) == t.previousDigest
    && d.state(NewState(t)) != t.previousDigest
    && OutpointSet(t.spent) !! OutpointSet(t.created)
  }

  // The validator accepts exactly what the rules allow, and its report's supply
  // figures are those of the two allocation sets.
  lemma TransitionMeans(d: Digests, t: Transition)
    ensures ValidateTransition(d, t).Ok? <==> TransitionRules(d, t)
    ensures ValidateTransition(d, t).Ok? ==>
              var r := ValidateTransition(d, t).value;
              && r.spentSupply == Supply(t.spent) && r.newSupply == Supply(t.created)
              && r.newSupply + r.burnedSupply == r.spentSupply
  {
    PolicyMeans(t.policy);
    AllocationTotalMeans(t.chain, t.spent);
    AllocationTotalMeans(t.chain, t.created);
    DisjointMeans(t.spent, t.created);
    if WellFormedSet(t.chain, t.spent) && WellFormedSet(t.chain, t.created) {
      SupplyDeltaMeans(Supply(t.spent), Supply(t.created), t.burn);
    }
  }

  lemma DisjointMeans(a: seq<Allocation>, b: seq<Allocation>)
    ensures OutpointSet(a) !! OutpointSet(b) <==> FirstReused(OutpointSet(a), b, 0).None?
  {
    if OutpointSet(a) !! OutpointSet(b) {
      forall k | 0 <= k < |b| ensures b[k].anchor.outpoint !in OutpointSet(a) {
        assert SpentOutpoint(b[k]) in OutpointSet(b);
      }
    }
  }

  ghost predicate IssueRules(i: Issue) {
    && i.schema != ZERO32 && i.asset != ZERO32 && i.totalSupply != 0 && i.lane != ZERO32 && UsablePolicy(i.policy)
    && i.metadata != ZERO32 && i.owner != ZERO32
    && i.allocations != [] && WellFormedSet(i.chain, i.allocations) && Supply(i.allocations) == i.totalSupply
  }

  lemma IssueMeans(d: Digests, i: Issue)
    ensures ValidateIssue(d, i).Ok? <==> IssueRules(i)
    ensures ValidateIssue(d, i).Ok? ==> ValidateIssue(d, i).value.digest == d.state(IssueState(i))
  {
    PolicyMeans(i.policy);
    AllocationTotalMeans(i.chain, i.allocations);
  }

  // ---- runs ----

  datatype Run = Run(issue: Issue, steps: seq<Transition>)

  // The state a run has reached after its first n steps.
  function StateAfter(r: Run, n: nat): StateInput
    requires n <= |r.steps|
  {
    if n == 0 then IssueState(r.issue) else NewState(r.steps[n - 1])
  }

  function ChainAfter(r: Run, n: nat): ChainId
    requires n <= |r.steps|
  {
    if n == 0 then r.issue.chain else r.steps[n - 1].chain
  }

  ghost predicate ValidRun(d: Digests, r: Run) {
    && ValidateIssue(d, r.issue).Ok?
    && forall i :: 0 <= i < |r.steps| ==> ValidStep(d, r, i)
  }

  ghost predicate ValidStep(d: Digests, r: Run, i: nat)
    requires i < |r.steps|
  {
    && ValidateTransition(d, r.steps[i]).Ok?
    && r.steps[i].previousDigest == d.state(StateAfter(r, i))
  }

  // Along this run, equal digests of a state left and a state spent mean equal states.
  ghost predicate Binding(d: Digests, r: Run) {
    forall i :: 0 <= i < |r.steps| ==> BoundAt(d, r, i)
  }

  ghost predicate BoundAt(d: Digests, r: Run, i: nat)
    requires i < |r.steps|
  {
    d.state(StateAfter(r, i)) == d.state(PreviousState(r.steps[i])) ==>
      SameState(StateAfter(r, i), PreviousState(r.steps[i]))
  }

  // Live supply after n steps, and what the n-th step reports burned.
  function LiveAt(r: Run, n: nat): nat { if n <= |r.steps| then Supply(StateAfter(r, n).allocations) else 0 }

  function BurnedAt(d: Digests, r: Run, i: nat): nat {
    if i >= |r.steps| then 0
    else match ValidateTransition(d, r.steps[i]) case Ok(report) => report.burnedSupply case Err(_) => 0
  }

  function BurnedBefore(d: Digests, r: Run, n: nat): nat {
    if n == 0 then 0 else BurnedBefore(d, r, n - 1) + BurnedAt(d, r, n - 1)
  }

  predicate ConservesAt(d: Digests, r: Run, i: nat) { LiveAt(r, i + 1) + BurnedAt(d, r, i) == LiveAt(r, i) }

  lemma {:induction false} Telescope(d: Digests, r: Run, n: nat)
    requires forall i: nat :: i < n ==> ConservesAt(d, r, i)
    ensures LiveAt(r, n) + BurnedBefore(d, r, n) == LiveAt(r, 0)
  {
    if n > 0 {
      Telescope(d, r, n - 1);
      assert ConservesAt(d, r, n - 1);
    }
  }

  lemma StateAfterWellFormed(d: Digests, r: Run, n: nat)
    requires ValidRun(d, r) && n <= |r.steps|
    ensures WellFormedSet(ChainAfter(r, n), StateAfter(r, n).allocations)
  {
    IssueMeans(d, r.issue);
    if n > 0 {
      assert ValidStep(d, r, n - 1);
      TransitionMeans(d, r.steps[n - 1]);
    }
  }

  lemma SharedChain(c: ChainId, a: seq<Allocation>, c': ChainId, b: seq<Allocation>)
    requires WellFormedSet(c, a) && WellFormedSet(c', b)
    requires multiset(a) == multiset(b) && b != []
    ensures c == c'
  {
    assert b[0] in multiset(b);
    assert b[0] in a && b[0] in b;
  }

  // A step spends exactly the state its predecessor left.
  lemma StepLinks(d: Digests, r: Run, i: nat)
    requires ValidRun(d, r) && Binding(d, r) && i < |r.steps|
    ensures LinkedAt(r, i)
  {
    assert ValidStep(d, r, i) && BoundAt(d, r, i);
    var t := r.steps[i];
    assert t.spent != [] && WellFormedSet(t.chain, t.spent) && d.state(PreviousState(t)) == t.previousDigest by {
      TransitionMeans(d, t);
    }
    assert SameState(StateAfter(r, i), PreviousState(t));
    StateAfterWellFormed(d, r, i);
    SharedChain(ChainAfter(r, i), StateAfter(r, i).allocations, t.chain, t.spent);
  }

  ghost predicate Linked(r: Run) {
    forall i :: 0 <= i < |r.steps| ==> LinkedAt(r, i)
  }

  ghost predicate LinkedAt(r: Run, i: nat)
    requires i < |r.steps|
  {
    SameState(StateAfter(r, i), PreviousState(r.steps[i])) && r.steps[i].chain == ChainAfter(r, i)
  }

  lemma RunIsLinked(d: Digests, r: Run)
    requires ValidRun(d, r) && Binding(d, r)
    ensures Linked(r)
  {
    forall i | 0 <= i < |r.steps| ensures LinkedAt(r, i) {
      StepLinks(d, r, i);
    }
  }

  ghost predicate SameAsset(i: Issue, t: Transition) {
    && t.chain == i.chain && t.asset == i.asset && t.totalSupply == i.totalSupply && t.lane == i.lane
    && t.privacy == i.privacy && t.metadata == i.metadata && t.policy == i.policy
  }

  lemma {:induction false} StaticsNeverChange(r: Run, i: nat)
    requires Linked(r) && i < |r.steps|
    ensures SameAsset(r.issue, r.steps[i])
  {
    assert LinkedAt(r, i);
    if i > 0 { StaticsNeverChange(r, i - 1); }
  }

  lemma StepConserves(d: Digests, r: Run, i: nat)
    requires ValidRun(d, r) && Binding(d, r) && i < |r.steps|
    ensures ConservesAt(d, r, i)
  {
    var t := r.steps[i];
    assert Supply(t.created) + BurnedAt(d, r, i) == Supply(t.spent) by {
      assert ValidStep(d, r, i);
      TransitionMeans(d, t);
    }
    assert LiveAt(r, i) == Supply(t.spent) by {
      StepLinks(d, r, i);
      SumOfPermutation(AllocationAmount, StateAfter(r, i).allocations, t.spent);
    }
  }

  lemma IssuedSupply(d: Digests, r: Run)
    requires ValidRun(d, r)
    ensures LiveAt(r, 0) == r.issue.totalSupply
  {
    IssueMeans(d, r.issue);
  }

  // Conservation over whole runs: what is live plus what was burned is what was issued.
  lemma RunConservesSupply(d: Digests, r: Run, n: nat)
    requires ValidRun(d, r) && Binding(d, r) && n <= |r.steps|
    ensures Supply(StateAfter(r, n).allocations) + BurnedBefore(d, r, n) == r.issue.totalSupply
  {
    StepsConserve(d, r);
    Telescope(d, r, n);
    IssuedSupply(d, r);
  }

  lemma StepsConserve(d: Digests, r: Run)
    requires ValidRun(d, r) && Binding(d, r)
    ensures forall i: nat :: i < |r.steps| ==> ConservesAt(d, r, i)
  {
    forall i: nat | i < |r.steps| ensures ConservesAt(d, r, i) { StepConserves(d, r, i); }
  }

  // Nothing follows a step that leaves no allocation.
  lemma FullBurnIsFinal(d: Digests, r: Run, i: nat)
    requires ValidRun(d, r) && Binding(d, r) && i < |r.steps|
    ensures r.steps[i].created == [] ==> i == |r.steps| - 1
  {
    if i + 1 < |r.steps| {
      var t := r.steps[i + 1];
      StepLinks(d, r, i + 1);
      assert t.spent != [] by { assert ValidStep(d, r, i + 1); TransitionMeans(d, t); }
      assert multiset(r.steps[i].created) == multiset(t.spent) by { assert LinkedAt(r, i + 1); }
      assert t.spent[0] in multiset(t.spent);
    }
  }

  // The run theorem for any digests that bind the run's states.
  lemma BoundRunTheorem(d: Digests, r: Run)
    requires ValidRun(d, r) && Binding(d, r)
    ensures RunLaws(d, r)
  {
    RunIsLinked(d, r);
    forall n | 0 <= n <= |r.steps|
      ensures Supply(StateAfter(r, n).allocations) + BurnedBefore(d, r, n) == r.issue.totalSupply
    {
      RunConservesSupply(d, r, n);
    }
    forall i | 0 <= i < |r.steps|
      ensures multiset(r.steps[i].spent) == multiset(StateAfter(r, i).allocations)
      ensures r.steps[i].previousOwner == StateAfter(r, i).owner
      ensures SameAsset(r.issue, r.steps[i])
    {
      assert LinkedAt(r, i);
      StaticsNeverChange(r, i);
    }
    forall i | 0 <= i < |r.steps|
      ensures r.steps[i].created == [] ==> i == |r.steps| - 1
    {
      FullBurnIsFinal(d, r, i);
    }
  }

  // Supply is conserved up to reported burns; every step spends a permutation of what
  // its predecessor left and takes over from its owner; nothing else about the asset
  // changes; and a full burn ends the run.
  ghost predicate RunLaws(d: Digests, r: Run) {
    && (forall n :: 0 <= n <= |r.steps| ==>
          Supply(StateAfter(r, n).allocations) + BurnedBefore(d, r, n) == r.issue.totalSupply)
    && (forall i :: 0 <= i < |r.steps| ==>
          && multiset(r.steps[i].spent) == multiset(StateAfter(r, i).allocations)
          && r.steps[i].previousOwner == StateAfter(r, i).owner
          && SameAsset(r.issue, r.steps[i]))
    && (forall i :: 0 <= i < |r.steps| && r.steps[i].created == [] ==> i == |r.steps| - 1)
  }

  // ---- the native digests ----

  // Every byte string a verifier hashes to check the states along the run.
  function RunPreimages(h: Hash, r: Run): set<Bytes> {
    StatePreimages(h, IssueState(r.issue))
    + (set i, p | 0 <= i < |r.steps| && p in StatePreimages(h, PreviousState(r.steps[i])) :: p)
    + (set i, p | 0 <= i < |r.steps| && p in StatePreimages(h, NewState(r.steps[i])) :: p)
  }

  lemma PreimagesBefore(h: Hash, r: Run, i: nat)
    requires i < |r.steps|
    ensures StatePreimages(h, StateAfter(r, i)) + StatePreimages(h, PreviousState(r.steps[i])) <= RunPreimages(h, r)
  {
    forall p | p in StatePreimages(h, PreviousState(r.steps[i])) ensures p in RunPreimages(h, r) {
    }
    forall p | p in StatePreimages(h, StateAfter(r, i)) ensures p in RunPreimages(h, r) {
      if i > 0 { assert p in StatePreimages(h, NewState(r.steps[i - 1])); }
    }
  }

  lemma NativeBinding(h: Hash, r: Run)
    requires ValidRun(NativeDigests(h), r) && CollisionFree(h, RunPreimages(h, r))
    ensures Binding(NativeDigests(h), r)
  {
    var d := NativeDigests(h);
    forall i | 0 <= i < |r.steps| ensures BoundAt(d, r, i) {
      assert ValidStep(d, r, i);
      StateAfterWellFormed(d, r, i);
      TransitionMeans(d, r.steps[i]);
      PreimagesBefore(h, r, i);
      DigestIffSameState(h, StateAfter(r, i), PreviousState(r.steps[i]), RunPreimages(h, r));
    }
  }

  // The run theorem: barring a hash collision among the byte strings of the run.
  lemma RunTheorem(h: Hash, r: Run)
    requires ValidRun(NativeDigests(h), r) && CollisionFree(h, RunPreimages(h, r))
    ensures RunLaws(NativeDigests(h), r)
  {
    NativeBinding(h, r);
    BoundRunTheorem(NativeDigests(h), r);
  }

  // The schema id is the one field a run does not pin: any valid transition stays valid,
  // with the same digests before and after, under any other non-zero schema id.
  lemma SchemaIsNotBound(d: Digests, t: Transition, schema: Bytes32)
    requires ValidateTransition(d, t).Ok?
    ensures var t' := t.(schema := schema);
            && (ValidateTransition(d, t').Ok? <==> schema != ZERO32)
            && d.state(PreviousState(t')) == d.state(PreviousState(t))
            && d.state(NewState(t')) == d.state(NewState(t))
  {
    var t' := t.(schema := schema);
    assert PreviousState(t') == PreviousState(t) && NewState(t') == NewState(t);
  }
}
