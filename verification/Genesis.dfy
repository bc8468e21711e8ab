/**
 Binding outputs to genesis covenant groups (`populate_genesis_covenants`).
 */
module Genesis {
  import opened Bytes
  import opened Core
  import opened Tally
  import opened Tx

  datatype Group = Group(authorizingInput: u16, outputs: seq<u32>)

  datatype GroupError = NoInput | EmptyGroup | Unordered | NoOutput | SharedOutput | AlreadyBound

  // The covenant id of a genesis outpoint and its authorised outputs: index, value and
  // script key of each, in order.
  type IdRecipe = (Outpoint, seq<(u32, u64, ScriptKey)>) -> Bytes32

  predicate StrictlyIncreasing(s: seq<u32>) {
    forall i, j :: 0 <= i < j < |s| ==> s[i] < s[j]
  }

  // One when the group claims output k.
  function Claims(k: u32): Group -> u64 {
    (g: Group) => if k in g.outputs then 1 else 0
  }

  function ClaimCount(groups: seq<Group>, k: u32): nat { Sum(Claims(k), groups) }

  predicate GoodGroup(inputs: seq<Input>, n: nat, g: Group) {
    && g.authorizingInput < |inputs|
    && g.outputs != []
    && StrictlyIncreasing(g.outputs)
    && forall k :: k in g.outputs ==> k < n
  }

  // What the checks demand of the groups together: each is good, no output has two
  // groups, and no claimed output is bound already.
  ghost predicate Admissible(inputs: seq<Input>, outputs: seq<Output>, groups: seq<Group>) {
    && (forall g :: g in groups ==> GoodGroup(inputs, |outputs|, g))
    && (forall k: u32 :: ClaimCount(groups, k) <= 1)
    && (forall g, k :: g in groups && k in g.outputs ==> k < |outputs| && outputs[k].binding.None?)
  }

  function Authorized(outputs: seq<Output>, indices: seq<u32>): seq<(u32, u64, ScriptKey)>
    requires forall k :: k in indices ==> k < |outputs|
  {
    seq(|indices|, i requires 0 <= i < |indices| =>
          assert indices[i] in indices;
          (indices[i], outputs[indices[i]].value, outputs[indices[i]].key))
  }

  function BindingOf(recipe: IdRecipe, inputs: seq<Input>, outputs: seq<Output>, g: Group): Binding
    requires GoodGroup(inputs, |outputs|, g)
  {
    Binding(g.authorizingInput, recipe(inputs[g.authorizingInput].previous, Authorized(outputs, g.outputs)))
  }

  // Every output a group claims carries that group's binding; all else is as before.
  ghost predicate Populated(recipe: IdRecipe, inputs: seq<Input>, before: seq<Output>, groups: seq<Group>,
                            after: seq<Output>)
    requires forall g :: g in groups ==> GoodGroup(inputs, |before|, g)
  {
    && |after| == |before|
    && (forall g, k :: g in groups && k in g.outputs && k < |before| ==>
          after[k] == before[k].(binding := Some(BindingOf(recipe, inputs, before, g))))
    && (forall k: u32 :: k < |before| && ClaimCount(groups, k) == 0 ==> after[k] == before[k])
    && (forall k :: 0x1_0000_0000 <= k < |before| ==> after[k] == before[k])
  }

  // ---- counting claims ----

  lemma {:induction false} ClaimedMember(groups: seq<Group>, k: u32)
    ensures ClaimCount(groups, k) > 0 <==> exists g :: g in groups && k in g.outputs
    ensures forall g :: g in groups && k in g.outputs ==> ClaimCount(groups, k) > 0
  {
    if groups != [] {
      var t := groups[..|groups| - 1];
      ClaimedMember(t, k);
      assert groups == t + [Last(groups)];
    }
  }

  lemma {:induction false} ClaimsGrow(groups: seq<Group>, i: nat, k: u32)
    requires i <= |groups|
    ensures ClaimCount(groups[..i], k) <= ClaimCount(groups, k)
  {
    if i < |groups| {
      var t := groups[..|groups| - 1];
      ClaimsGrow(t, i, k);
      assert t[..i] == groups[..i];
    } else {
      assert groups[..i] == groups;
    }
  }

  lemma ClaimsSnoc(groups: seq<Group>, i: nat, k: u32)
    requires i < |groups|
    ensures ClaimCount(groups[..i + 1], k) == ClaimCount(groups[..i], k) + if k in groups[i].outputs then 1 else 0
  {
    assert groups[..i + 1][..i] == groups[..i];
  }

  // A group admitted after others claims nothing they claim.
  lemma FreshClaims(groups: seq<Group>, i: nat, k: u32)
    requires i < |groups| && k in groups[i].outputs
    requires ClaimCount(groups, k) <= 1
    ensures ClaimCount(groups[..i], k) == 0
  {
    ClaimsSnoc(groups, i, k);
    ClaimsGrow(groups, i + 1, k);
  }

  // ---- permutations ----

  // Permuting the groups changes neither whether they are admitted nor the result.
  lemma PermutedGroups(recipe: IdRecipe, inputs: seq<Input>, before: seq<Output>, a: seq<Group>, b: seq<Group>,
                       after: seq<Output>)
    requires multiset(a) == multiset(b)
    ensures Admissible(inputs, before, a) <==> Admissible(inputs, before, b)
    ensures Admissible(inputs, before, a) ==>
              (Populated(recipe, inputs, before, a, after) <==> Populated(recipe, inputs, before, b, after))
  {
    forall g ensures g in a <==> g in b {
      assert g in multiset(a) <==> g in multiset(b);
    }
    forall k: u32 ensures ClaimCount(a, k) == ClaimCount(b, k) {
      SumOfPermutation(Claims(k), a, b);
    }
  }

  // The result is determined.
  lemma PopulatedUnique(recipe: IdRecipe, inputs: seq<Input>, before: seq<Output>, groups: seq<Group>,
                        x: seq<Output>, y: seq<Output>)
    requires forall g :: g in groups ==> GoodGroup(inputs, |before|, g)
    requires Populated(recipe, inputs, before, groups, x) && Populated(recipe, inputs, before, groups, y)
    ensures x == y
  {
    forall k | 0 <= k < |before| ensures x[k] == y[k] {
      if k < 0x1_0000_0000 {
        ClaimedMember(groups, k);
        if ClaimCount(groups, k) > 0 {
          var g :| g in groups && k in g.outputs;
        }
      }
    }
  }

  // What `populate_genesis_covenants` may answer and leave behind.
  ghost predicate Answers(recipe: IdRecipe, inputs: seq<Input>, before: seq<Output>, groups: seq<Group>,
                          r: Outcome<GroupError>, after: seq<Output>)
  {
    && (r.Pass? <==> Admissible(inputs, before, groups))
    && (r.Fail? ==> after == before && Explains(r.error, inputs, before, groups))
    && (r.Pass? ==> Populated(recipe, inputs, before, groups, after))
  }

  // Two runs from the same draft on the same groups in another order agree: both are refused and
  // change nothing, or both end with the same outputs.
  lemma PermutedRunsAgree(recipe: IdRecipe, inputs: seq<Input>, before: seq<Output>, a: seq<Group>, b: seq<Group>,
                          r: Outcome<GroupError>, x: seq<Output>, q: Outcome<GroupError>, y: seq<Output>)
    requires multiset(a) == multiset(b)
    requires Answers(recipe, inputs, before, a, r, x) && Answers(recipe, inputs, before, b, q, y)
    ensures (r.Pass? <==> q.Pass?) && x == y
  {
    PermutedGroups(recipe, inputs, before, a, b, y);
    if r.Pass? { PopulatedUnique(recipe, inputs, before, a, x, y); }
  }

  // ---- the draft ----

  // A fault that keeps the groups from being admitted.
  ghost predicate Explains(e: GroupError, inputs: seq<Input>, outputs: seq<Output>, groups: seq<Group>) {
    match e
    case NoInput => exists g :: g in groups && g.authorizingInput >= |inputs|
    case EmptyGroup => exists g :: g in groups && g.outputs == []
    case Unordered => exists g :: g in groups && !StrictlyIncreasing(g.outputs)
    case NoOutput => exists g, k :: g in groups && k in g.outputs && k >= |outputs|
    case SharedOutput => exists k: u32 :: ClaimCount(groups, k) > 1
    case AlreadyBound => exists g, k :: g in groups && k in g.outputs && k < |outputs| && outputs[k].binding.Some?
  }

  lemma ExplainedIsInadmissible(e: GroupError, inputs: seq<Input>, outputs: seq<Output>, groups: seq<Group>)
    requires Explains(e, inputs, outputs, groups)
    ensures !Admissible(inputs, outputs, groups)
  {
  }

  lemma AdmitOne(inputs: seq<Input>, outputs: seq<Output>, groups: seq<Group>, i: nat)
    requires i < |groups| && Admissible(inputs, outputs, groups[..i])
    requires GoodGroup(inputs, |outputs|, groups[i])
    requires forall k :: k in groups[i].outputs ==> ClaimCount(groups[..i], k) == 0 && outputs[k].binding.None?
    ensures Admissible(inputs, outputs, groups[..i + 1])
    ensures forall k: u32 ::
              ClaimCount(groups[..i + 1], k) > 0 <==> ClaimCount(groups[..i], k) > 0 || k in groups[i].outputs
  {
    forall k: u32
      ensures ClaimCount(groups[..i + 1], k) == ClaimCount(groups[..i], k) + if k in groups[i].outputs then 1 else 0
    {
      ClaimsSnoc(groups, i, k);
    }
    assert groups[..i + 1] == groups[..i] + [groups[i]];
  }

  // Binding one more group on top of the earlier ones.
  lemma PopulateOne(recipe: IdRecipe, inputs: seq<Input>, before: seq<Output>, groups: seq<Group>, i: nat,
                    prev: seq<Output>, after: seq<Output>)
    requires i < |groups| && Admissible(inputs, before, groups)
    requires (forall g :: g in groups[..i] ==> GoodGroup(inputs, |before|, g))
             && Populated(recipe, inputs, before, groups[..i], prev)
    requires |after| == |prev|
    requires var binding := BindingOf(recipe, inputs, before, groups[i]);
             forall k :: 0 <= k < |after| ==>
               after[k] == if k in groups[i].outputs then prev[k].(binding := Some(binding)) else prev[k]
    ensures Populated(recipe, inputs, before, groups[..i + 1], after)
  {
    var done := groups[..i + 1];
    assert done == groups[..i] + [groups[i]];
    forall g, k | g in done && k in g.outputs && k < |before|
      ensures after[k] == before[k].(binding := Some(BindingOf(recipe, inputs, before, g)))
    {
      if k in groups[i].outputs {
        FreshClaims(groups, i, k);
        ClaimedMember(groups[..i], k);
        assert g == groups[i];
        assert prev[k] == before[k];
      } else {
        assert g in groups[..i];
      }
    }
    forall k: u32 | k < |before| && ClaimCount(done, k) == 0 ensures after[k] == before[k] {
      ClaimsSnoc(groups, i, k);
    }
  }

  // Strictly increasing indices, checked from one to the next.
  method Ordered(s: seq<u32>) returns (r: bool)
    ensures r <==> StrictlyIncreasing(s)
  {
    for i := 0 to |s|
      invariant forall a, b :: 0 <= a < b < i ==> s[a] < s[b]
    {
      if i > 0 && s[i - 1] >= s[i] { return false; }
    }
    return true;
  }

  class Draft {
    var inputs: seq<Input>
    var outputs: seq<Output>

    // First pass: admit every group or report the first fault; nothing is changed.
    method Admit(groups: seq<Group>) returns (r: Outcome<GroupError>)
      ensures r.Pass? <==> Admissible(inputs, outputs, groups)
      ensures r.Fail? ==> Explains(r.error, inputs, outputs, groups)
    {
      var seen := seq(|outputs|, i => false);
      for i := 0 to |groups|
        invariant |seen| == |outputs|
        invariant Admissible(inputs, outputs, groups[..i])
        invariant forall k: u32 :: k < |outputs| ==> (seen[k] <==> ClaimCount(groups[..i], k) > 0)
      {
        var g := groups[i];
        assert g in groups;
        if g.authorizingInput >= |inputs| {
          ExplainedIsInadmissible(NoInput, inputs, outputs, groups);
          return Fail(NoInput);
        }
        if g.outputs == [] { ExplainedIsInadmissible(EmptyGroup, inputs, outputs, groups); return Fail(EmptyGroup); }
        var ordered := Ordered(g.outputs);
        if !ordered { ExplainedIsInadmissible(Unordered, inputs, outputs, groups); return Fail(Unordered); }
        var claimed := seen;
        for j := 0 to |g.outputs|
          invariant |seen| == |outputs|
          invariant forall k: u32 :: k < |outputs| ==> (seen[k] <==> claimed[k] || k in g.outputs[..j])
          invariant forall k :: k in g.outputs[..j] ==> k < |outputs| && !claimed[k] && outputs[k].binding.None?
        {
          var slot := g.outputs[j];
          assert slot in g.outputs;
          if slot >= |outputs| { ExplainedIsInadmissible(NoOutput, inputs, outputs, groups); return Fail(NoOutput); }
          assert slot !in g.outputs[..j];
          if seen[slot] {
            ClaimsSnoc(groups, i, slot);
            ClaimsGrow(groups, i + 1, slot);
            assert ClaimCount(groups, slot) > 1;
            ExplainedIsInadmissible(SharedOutput, inputs, outputs, groups);
            return Fail(SharedOutput);
          }
          if outputs[slot].binding.Some? {
            ExplainedIsInadmissible(AlreadyBound, inputs, outputs, groups);
            return Fail(AlreadyBound);
          }
          seen := seen[slot := true];
          assert g.outputs[..j + 1] == g.outputs[..j] + [slot];
        }
        assert g.outputs[..|g.outputs|] == g.outputs;
        AdmitOne(inputs, outputs, groups, i);
      }
      assert groups[..|groups|] == groups;
      return Pass;
    }

    // `populate_genesis_covenants`: all or nothing.
    method Populate(recipe: IdRecipe, groups: seq<Group>) returns (r: Outcome<GroupError>)
      modifies this`outputs
      ensures Answers(recipe, inputs, old(outputs), groups, r, outputs)
    {
      r := Admit(groups);
      if r.Fail? { return; }
      ghost var before := outputs;
      for i := 0 to |groups|
        invariant |outputs| == |before|
        invariant Populated(recipe, inputs, before, groups[..i], outputs)
        invariant forall k :: 0 <= k < |before| ==>
                    outputs[k].value == before[k].value && outputs[k].key == before[k].key
      {
        var g := groups[i];
        assert g in groups;
        assert Authorized(outputs, g.outputs) == Authorized(before, g.outputs) by {
          forall n | 0 <= n < |g.outputs|
            ensures Authorized(outputs, g.outputs)[n] == Authorized(before, g.outputs)[n]
          {
            assert g.outputs[n] in g.outputs;
          }
        }
        var binding := BindingOf(recipe, inputs, outputs, g);
        ghost var prev := outputs;
        BindGroup(g.outputs, binding);
        PopulateOne(recipe, inputs, before, groups, i, prev, outputs);
      }
      assert groups[..|groups|] == groups;
    }

    // Bind the listed outputs, touching nothing else.
    method BindGroup(slots: seq<u32>, binding: Binding)
      requires forall k :: k in slots ==> k < |outputs|
      modifies this`outputs
      ensures |outputs| == |old(outputs)|
      ensures forall k :: 0 <= k < |outputs| ==>
                outputs[k] == if k in slots then old(outputs)[k].(binding := Some(binding)) else old(outputs)[k]
    {
      ghost var before := outputs;
      for j := 0 to |slots|
        invariant |outputs| == |before|
        invariant forall k :: 0 <= k < |outputs| ==>
                    outputs[k] == if k in slots[..j] then before[k].(binding := Some(binding)) else before[k]
      {
        var slot := slots[j];
        assert slot in slots;
        outputs := outputs[slot := outputs[slot].(binding := Some(binding))];
        assert slots[..j + 1] == slots[..j] + [slot];
      }
      assert slots[..|slots|] == slots;
    }
  }
}
