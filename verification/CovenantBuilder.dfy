/**
 The redeem script builders of rgk-covenant: bytes are pushed one opcode at a time, and
 the finished script accepts exactly the spends its policy allows.
 */
module CovenantBuilder {
  import opened Bytes
  import opened Core
  import opened ScriptNum
  import opened Script
  import opened Covenant
  import opened CovenantScript

  datatype BuildError =
    | ZeroOutputCount
    | NoCovenantOutputs
    | NoCovenantInputs
    | OutputOutsideCount(index: u32)
    | OutputsNotIncreasing
    | TooManyCovenantOutputs

  // ---- policy validation ----

  // `CovenantContinuationPolicy::validate`
  method ValidateContinuation(p: ContinuationPolicy) returns (r: Outcome<BuildError>)
    ensures r.Pass? <==> ValidPolicy(p)
    ensures r == Fail(ZeroOutputCount) <==> p.outputCount == 0
    ensures r == Fail(NoCovenantOutputs) <==> p.outputCount != 0 && p.indices == []
    ensures forall k: u32 :: r == Fail(OutputOutsideCount(k)) ==> k in p.indices && k >= p.outputCount
  {
    if p.outputCount == 0 { return Fail(ZeroOutputCount); }
    if p.indices == [] { return Fail(NoCovenantOutputs); }
    var previous: Option<u32> := None;
    for i := 0 to |p.indices|
      invariant previous == if i == 0 then None else Some(p.indices[i - 1])
      invariant forall j :: 0 <= j < i ==> p.indices[j] < p.outputCount
      invariant forall j :: 0 <= j < i - 1 ==> p.indices[j] < p.indices[j + 1]
    {
      var idx := p.indices[i];
      if idx >= p.outputCount { return Fail(OutputOutsideCount(idx)); }
      if previous.Some? && idx <= previous.value {
        assert p.indices[i - 1] >= p.indices[i - 1 + 1];
        return Fail(OutputsNotIncreasing);
      }
      previous := Some(idx);
    }
    return Pass;
  }

  // A valid list of covenant outputs names distinct outputs of the transaction, so there
  // are no more of them than outputs.
  lemma {:induction false} ValidPolicyOutputs(p: ContinuationPolicy, i: nat, j: nat)
    requires ValidPolicy(p) && i < j < |p.indices|
    ensures p.indices[i] < p.indices[j] && j - i <= p.indices[j] - p.indices[i]
    decreases j
  {
    assert p.indices[j - 1] < p.indices[j - 1 + 1];
    if i < j - 1 { ValidPolicyOutputs(p, i, j - 1); }
  }

  // `CovenantSharedContinuationPolicy::validate`
  function ValidateShared(p: SharedPolicy): (r: Outcome<BuildError>)
    ensures r.Pass? <==> ValidShared(p)
  {
    if p.covenantInputs == 0 then Fail(NoCovenantInputs)
    else if p.covenantOutputs == 0 then Fail(NoCovenantOutputs)
    else if p.outputCount == 0 then Fail(ZeroOutputCount)
    else if p.covenantOutputs > p.outputCount then Fail(TooManyCovenantOutputs)
    else Pass
  }

  // ---- the byte buffer ----

  class ScriptBuffer {
    var bytes: Bytes
    ghost var program: seq<Instr>

    ghost predicate Valid()
      reads this
    {
      ValidProgram(program) && bytes == Assemble(program)
    }

    constructor ()
      ensures Valid() && program == []
    {
      bytes, program := [], [];
    }

    ghost method Grow(i: Instr)
      requires ValidProgram(program) && ValidInstr(i) && bytes == Assemble(program) + Bytecode(i)
      modifies this`program
      ensures Valid() && program == old(program) + [i]
    {
      AssembleAppend(program, [i]);
      assert Assemble([i]) == Bytecode(i) + Assemble([i][1..]) == Bytecode(i);
      program := program + [i];
    }

    method PushOp(op: byte)
      requires Valid() && !IsPush(op)
      modifies this
      ensures Valid() && program == old(program) + [Op(op)]
    {
      bytes := bytes + [op];
      Grow(Op(op));
    }

    method PushI64(n: int)
      requires Valid() && IsI64(n)
      modifies this
      ensures Valid() && program == old(program) + [PushNum(n)]
    {
      bytes := PushScriptI64(bytes, n);
      Grow(PushNum(n));
    }

    method PushBlob(d: Bytes)
      requires Valid() && |d| < 0x1_0000_0000
      modifies this
      ensures Valid() && program == old(program) + [PushData(d)]
    {
      bytes := bytes + DataBytes(d);
      Grow(PushData(d));
    }

    // `push_payload_slice_equals`
    method PushSliceEquals(lo: nat, hi: nat, expected: Bytes)
      requires Valid() && IsI64(lo) && IsI64(hi) && |expected| < 0x1_0000_0000
      modifies this
      ensures Valid() && program == old(program) + SliceCheck(lo, hi, expected)
    {
      PushI64(lo);
      PushI64(hi);
      PushOp(OP_TX_PAYLOAD_SUBSTR);
      PushBlob(expected);
      PushOp(OP_EQUAL_VERIFY);
    }

    // The length check and the four slices, in that order.
    method PushPayloadChecks(t: Bytes)
      requires Valid() && |t| == 148
      modifies this
      ensures Valid() && program == old(program) + PayloadChecks(t)
    {
      PushOp(OP_TX_PAYLOAD_LEN);
      PushI64(148);
      PushOp(OP_EQUAL_VERIFY);
      assert program == old(program) + LengthCheck(148);
      PushSliceEquals(0, 16, t[0..16]);
      PushSliceEquals(16, 48, t[16..48]);
      PushSliceEquals(48, 80, t[48..80]);
      PushSliceEquals(112, 116, t[112..116]);
      Join5(old(program), LengthCheck(148), SliceCheck(0, 16, t[0..16]), SliceCheck(16, 48, t[16..48]),
            SliceCheck(48, 80, t[48..80]), SliceCheck(112, 116, t[112..116]));
    }

    // Two looked-up values compared.
    method PushLookupsEqual(a: u32, inputOp: byte, k: u32, outputOp: byte)
      requires Valid() && !IsPush(inputOp) && !IsPush(outputOp)
      modifies this
      ensures Valid()
      ensures program == old(program) + (([PushNum(a)] + [Op(inputOp)]) + ([PushNum(k)] + [Op(outputOp)]) + [EQV])
    {
      PushI64(a);
      PushOp(inputOp);
      PushI64(k);
      PushOp(outputOp);
      PushOp(OP_EQUAL_VERIFY);
    }

    method PushAuthorizerEquals(k: u32, a: u16)
      requires Valid()
      modifies this
      ensures Valid()
      ensures program == old(program) + (([PushNum(k)] + [Op(OP_OUTPUT_AUTHORIZING_INPUT)]) + [PushNum(a)] + [EQV])
    {
      PushI64(k);
      PushOp(OP_OUTPUT_AUTHORIZING_INPUT);
      PushI64(a);
      PushOp(OP_EQUAL_VERIFY);
    }

    // One listed output of a continuation policy.
    method PushOutputChecks(a: u16, k: u32)
      requires Valid()
      modifies this
      ensures Valid() && program == old(program) + OutputChecks(a, k)
    {
      PushLookupsEqual(a, OP_TX_INPUT_SPK, k, OP_TX_OUTPUT_SPK);
      ghost var mid := program;
      PushLookupsEqual(a, OP_INPUT_COVENANT_ID, k, OP_OUTPUT_COVENANT_ID);
      PushAuthorizerEquals(k, a);
      Regroup3(old(program), mid, program,
               ([PushNum(a)] + [Op(OP_TX_INPUT_SPK)]) + ([PushNum(k)] + [Op(OP_TX_OUTPUT_SPK)]) + [EQV],
               ([PushNum(a)] + [Op(OP_INPUT_COVENANT_ID)]) + ([PushNum(k)] + [Op(OP_OUTPUT_COVENANT_ID)]) + [EQV],
               ([PushNum(k)] + [Op(OP_OUTPUT_AUTHORIZING_INPUT)]) + [PushNum(a)] + [EQV]);
    }

    // The loop over the listed outputs.
    method PushAllOutputChecks(a: u16, ks: seq<u32>)
      requires Valid()
      modifies this
      ensures Valid() && program == old(program) + AllOutputChecks(a, ks)
    {
      for i := 0 to |ks|
        invariant Valid() && program == old(program) + AllOutputChecks(a, ks[..i])
      {
        PushOutputChecks(a, ks[i]);
        OutputChecksStep(old(program), a, ks, i);
      }
      assert ks[..|ks|] == ks;
    }

    method PushOpEquals(op: byte, n: u32)
      requires Valid() && !IsPush(op)
      modifies this
      ensures Valid() && program == old(program) + ([Op(op)] + [PushNum(n)] + [EQV])
    {
      PushOp(op);
      PushI64(n);
      PushOp(OP_EQUAL_VERIFY);
    }

    // `push_current_input_covenant_id`
    method PushCurrentId()
      requires Valid()
      modifies this
      ensures Valid() && program == old(program) + CurrentId
    {
      PushOp(OP_TX_INPUT_INDEX);
      PushOp(OP_INPUT_COVENANT_ID);
    }

    // `push_current_input_spk`
    method PushCurrentSpk()
      requires Valid()
      modifies this
      ensures Valid() && program == old(program) + CurrentSpk
    {
      PushOp(OP_TX_INPUT_INDEX);
      PushOp(OP_TX_INPUT_SPK);
    }

    // `push_shared_covenant_output_index`
    method PushSharedIndex(j: u32)
      requires Valid()
      modifies this
      ensures Valid() && program == old(program) + SharedIndex(j)
    {
      PushCurrentId();
      PushI64(j);
      PushOp(OP_COV_OUTPUT_IDX);
    }

    method PushCount(op: byte, n: u32)
      requires Valid() && !IsPush(op)
      modifies this
      ensures Valid() && program == old(program) + CountCheck(op, n)
    {
      PushCurrentId();
      PushOp(op);
      PushI64(n);
      PushOp(OP_EQUAL_VERIFY);
    }

    method PushSharedEquals(lookup: byte, j: u32)
      requires Valid() && !IsPush(lookup)
      modifies this
      ensures Valid() && program == old(program) + ((SharedIndex(j) + [Op(lookup)]) + [EQV])
    {
      PushSharedIndex(j);
      PushOp(lookup);
      PushOp(OP_EQUAL_VERIFY);
    }

    method PushSharedOutputChecks(j: u32)
      requires Valid()
      modifies this
      ensures Valid() && program == old(program) + SharedOutputChecks(j)
    {
      PushCurrentSpk();
      PushSharedEquals(OP_TX_OUTPUT_SPK, j);
      ghost var mid := program;
      PushCurrentId();
      PushSharedEquals(OP_OUTPUT_COVENANT_ID, j);
      RegroupPairs(old(program), mid, program, CurrentSpk, SharedIndex(j) + [Op(OP_TX_OUTPUT_SPK)], CurrentId,
                   SharedIndex(j) + [Op(OP_OUTPUT_COVENANT_ID)]);
    }

    // The loop over the output ordinals.
    method PushAllSharedChecks(n: u32)
      requires Valid()
      modifies this
      ensures Valid() && program == old(program) + AllSharedChecks(n)
    {
      for j := 0 to n
        invariant Valid() && program == old(program) + AllSharedChecks(j)
      {
        PushSharedOutputChecks(j);
        EachSnoc(old(program), SharedOutputChecks, j);
      }
    }
  }

  lemma EachSnoc(o: seq<Instr>, f: nat -> seq<Instr>, j: nat)
    ensures (o + Each(f, j)) + f(j) == o + Each(f, j + 1)
  {
  }

  lemma Regroup3(o: seq<Instr>, mid: seq<Instr>, end: seq<Instr>, a: seq<Instr>, b: seq<Instr>, c: seq<Instr>)
    requires mid == o + a && end == mid + b + c
    ensures end == o + (a + (b + c))
  {
  }

  lemma RegroupPairs(o: seq<Instr>, mid: seq<Instr>, end: seq<Instr>, a: seq<Instr>, b: seq<Instr>, c: seq<Instr>,
                     d: seq<Instr>)
    requires mid == o + a + (b + [EQV]) && end == mid + c + (d + [EQV])
    ensures end == o + ((a + b + [EQV]) + (c + d + [EQV]))
  {
    assert mid == o + (a + b + [EQV]);
    assert end == mid + (c + d + [EQV]);
  }

  lemma Join5(o: seq<Instr>, a: seq<Instr>, b: seq<Instr>, c: seq<Instr>, d: seq<Instr>, e: seq<Instr>)
    ensures o + a + b + c + d + e == o + (a + (b + (c + (d + e))))
  {
  }

  lemma {:induction false} OutputChecksSnoc(a: nat, ks: seq<nat>, k: nat)
    ensures AllOutputChecks(a, ks + [k]) == AllOutputChecks(a, ks) + OutputChecks(a, k)
  {
    if ks == [] {
      assert [k][1..] == [];
    } else {
      OutputChecksSnoc(a, ks[1..], k);
      assert (ks + [k])[0] == ks[0] && (ks + [k])[1..] == ks[1..] + [k];
      Reassociate(OutputChecks(a, ks[0]), AllOutputChecks(a, ks[1..]), OutputChecks(a, k));
    }
  }

  lemma RunWhole(c: Context, p: seq<Instr>, st: Stack, holds: bool)
    requires ValidProgram(p)
    requires ExecuteAll(On(c), p, st) == if holds then Some(st + [[1]]) else None
    ensures Accepts(c, Assemble(p), st) <==> holds
  {
    RunAssembled(c, p, [], st);
    assert Assemble(p) + [] == Assemble(p);
    if holds {
      assert Last(st + [[1]]) == [1] && [1][0] != 0;
    }
  }

  lemma PolicyScriptMeans(s: Spec, p: ContinuationPolicy, program: seq<Instr>)
    requires program == PolicyProgram(s, p) && ValidProgram(program)
    ensures forall c: Context, st: Stack :: Accepts(c, Assemble(program), st) <==> PolicyHolds(s, p, c)
  {
    forall c: Context, st: Stack ensures Accepts(c, Assemble(program), st) <==> PolicyHolds(s, p, c) {
      PolicyProgramMeans(s, p, c, st);
      RunWhole(c, program, st, PolicyHolds(s, p, c));
    }
  }

  lemma SharedScriptMeans(s: Spec, p: SharedPolicy, program: seq<Instr>)
    requires program == SharedProgram(s, p) && ValidProgram(program)
    ensures forall c: Context, st: Stack :: Accepts(c, Assemble(program), st) <==> SharedHolds(s, p, c)
  {
    forall c: Context, st: Stack ensures Accepts(c, Assemble(program), st) <==> SharedHolds(s, p, c) {
      SharedProgramMeans(s, p, c, st);
      RunWhole(c, program, st, SharedHolds(s, p, c));
    }
  }

  lemma OutputChecksStep(o: seq<Instr>, a: nat, ks: seq<nat>, i: nat)
    requires i < |ks|
    ensures (o + AllOutputChecks(a, ks[..i])) + OutputChecks(a, ks[i]) == o + AllOutputChecks(a, ks[..i + 1])
  {
    OutputChecksSnoc(a, ks[..i], ks[i]);
    assert ks[..i] + [ks[i]] == ks[..i + 1];
    Reassociate(o, AllOutputChecks(a, ks[..i]), OutputChecks(a, ks[i]));
  }

  lemma Reassociate(a: seq<Instr>, b: seq<Instr>, c: seq<Instr>)
    ensures (a + b) + c == a + (b + c)
  {
  }

  // ---- the builders ----

  lemma JoinPolicy(a: seq<Instr>, b: seq<Instr>, c: seq<Instr>, d: seq<Instr>, e: seq<Instr>)
    ensures [] + a + b + c + d + e == (a + (b + (c + d))) + e
  {
  }

  // The opcodes of `build_script_for_policy`, in the order it pushes them.
  method PushPolicy(b: ScriptBuffer, p: ContinuationPolicy, t: Bytes)
    requires b.Valid() && b.program == [] && |t| == 148
    modifies b
    ensures b.Valid() && b.program == PolicyBody(p, t)
  {
    b.PushOpEquals(OP_TX_INPUT_INDEX, p.authorizingInput);
    b.PushOpEquals(OP_TX_OUTPUT_COUNT, p.outputCount);
    b.PushAllOutputChecks(p.authorizingInput, p.indices);
    b.PushPayloadChecks(t);
    b.PushI64(1);
    JoinPolicy(InputIndexCheck(p.authorizingInput), OutputCountCheck(p.outputCount),
               AllOutputChecks(p.authorizingInput, p.indices), PayloadChecks(t), [PushNum(1)]);
  }

  // What a built script is worth: it accepts exactly the spends the policy allows.
  ghost predicate Enforces(script: Bytes, s: Spec, p: ContinuationPolicy) {
    forall c: Context, st: Stack :: Accepts(c, script, st) <==> PolicyHolds(s, p, c)
  }

  lemma PlainlyEnforces(script: Bytes, s: Spec, p: ContinuationPolicy)
    requires Enforces(script, s, p)
    ensures forall c: Context, st: Stack ::
              PlainEngine(c, p.authorizingInput) ==> (Accepts(c, script, st) <==> PolicyAllows(s, p, c))
  {
    forall c: Context, st: Stack | PlainEngine(c, p.authorizingInput)
      ensures Accepts(c, script, st) <==> PolicyAllows(s, p, c)
    {
      PolicyHoldsIffAllows(s, p, c);
    }
  }

  // `build_script_for_policy`: refuses exactly the invalid policies, and what it emits
  // accepts a spend exactly when the policy and the payload template hold of it: first as
  // the engine sees it, then in the transaction's own fields.
  method BuildScriptForPolicy(s: Spec, p: ContinuationPolicy) returns (r: Result<Bytes, BuildError>)
    ensures r.Ok? <==> ValidPolicy(p)
    ensures r.Ok? ==> Enforces(r.value, s, p)
    ensures r.Ok? ==> forall c: Context, st: Stack ::
              PlainEngine(c, p.authorizingInput) ==> (Accepts(c, r.value, st) <==> PolicyAllows(s, p, c))
  {
    var valid := ValidateContinuation(p);
    if valid.Fail? { return Err(valid.error); }
    TemplateSlices(s);
    var b := new ScriptBuffer();
    PushPolicy(b, p, Template(s));
    PolicyScriptMeans(s, p, b.program);
    PlainlyEnforces(b.bytes, s, p);
    return Ok(b.bytes);
  }

  lemma JoinShared(a: seq<Instr>, b: seq<Instr>, c: seq<Instr>, d: seq<Instr>, e: seq<Instr>, f: seq<Instr>)
    ensures [] + a + b + c + d + e + f == (a + (b + (c + (d + e)))) + f
  {
  }

  method PushShared(b: ScriptBuffer, p: SharedPolicy, t: Bytes)
    requires b.Valid() && b.program == [] && |t| == 148
    modifies b
    ensures b.Valid() && b.program == SharedBody(p, t)
  {
    b.PushOpEquals(OP_TX_OUTPUT_COUNT, p.outputCount);
    b.PushCount(OP_COV_INPUT_COUNT, p.covenantInputs);
    b.PushCount(OP_COV_OUTPUT_COUNT, p.covenantOutputs);
    b.PushAllSharedChecks(p.covenantOutputs);
    b.PushPayloadChecks(t);
    b.PushI64(1);
    JoinShared(OutputCountCheck(p.outputCount), CountCheck(OP_COV_INPUT_COUNT, p.covenantInputs),
               CountCheck(OP_COV_OUTPUT_COUNT, p.covenantOutputs), AllSharedChecks(p.covenantOutputs),
               PayloadChecks(t), [PushNum(1)]);
  }

  ghost predicate EnforcesShared(script: Bytes, s: Spec, p: SharedPolicy) {
    forall c: Context, st: Stack :: Accepts(c, script, st) <==> SharedHolds(s, p, c)
  }

  lemma PlainlyEnforcesShared(script: Bytes, s: Spec, p: SharedPolicy)
    requires EnforcesShared(script, s, p) && ValidShared(p)
    ensures forall c: Context, st: Stack :: PlainId(c) ==> (Accepts(c, script, st) <==> SharedAllows(s, p, c))
  {
    forall c: Context, st: Stack | PlainId(c) ensures Accepts(c, script, st) <==> SharedAllows(s, p, c) {
      SharedHoldsIffAllows(s, p, c);
    }
  }

  // `build_script_for_shared_policy`
  method BuildScriptForSharedPolicy(s: Spec, p: SharedPolicy) returns (r: Result<Bytes, BuildError>)
    ensures r.Ok? <==> ValidShared(p)
    ensures r.Ok? ==> EnforcesShared(r.value, s, p)
    ensures r.Ok? ==> forall c: Context, st: Stack :: PlainId(c) ==> (Accepts(c, r.value, st) <==> SharedAllows(s, p, c))
  {
    var valid := ValidateShared(p);
    if valid.Fail? { return Err(valid.error); }
    TemplateSlices(s);
    var b := new ScriptBuffer();
    PushShared(b, p, Template(s));
    SharedScriptMeans(s, p, b.program);
    PlainlyEnforcesShared(b.bytes, s, p);
    return Ok(b.bytes);
  }

  // A built shared script does not care which of the inputs with the same script and
  // covenant runs it, or on which stack.
  lemma SharedVerdictIsShared(script: Bytes, s: Spec, p: SharedPolicy, c: Context, i: nat, j: nat, st: Stack, st': Stack)
    requires EnforcesShared(script, s, p)
    requires i < |c.inputs| && j < |c.inputs| && c.inputs[i] == c.inputs[j]
    ensures Accepts(c.(current := i), script, st) <==> Accepts(c.(current := j), script, st')
  {
    SharedHoldsAlike(s, p, c, i, j);
  }

  // ---- whole lineages ----

  // The next transaction spends one of the covenant outputs of this one.
  ghost predicate Follows(p: ContinuationPolicy, c: Context, d: Context) {
    && c.noId == d.noId
    && p.authorizingInput < |d.inputs|
    && exists k: u32 :: k in p.indices && k < |c.outputs|
                        && d.inputs[p.authorizingInput] == SpentOutput(c.outputs[k].spk, c.outputs[k].covenant)
  }

  ghost predicate FollowsAt(p: ContinuationPolicy, txs: seq<Context>, i: nat) {
    i + 1 < |txs| ==> Follows(p, txs[i], txs[i + 1])
  }

  ghost predicate SameCovenant(a: nat, c: Context, d: Context) {
    && a < |c.inputs| && a < |d.inputs|
    && d.inputs[a].spk == c.inputs[a].spk
    && c.noId == d.noId
    && InputId(d, a).Some? && InputId(d, a) == InputId(c, a)
  }

  // On an engine whose stand-in for a missing id is no id, the covenants are the same.
  lemma SameCovenantField(a: nat, c: Context, d: Context)
    requires SameCovenant(a, c, d) && PlainId(c)
    ensures d.inputs[a].covenant == c.inputs[a].covenant
  {
    SamePushedId(c, c.inputs[a].covenant, d.inputs[a].covenant);
  }

  lemma AcceptedSpend(s: Spec, p: ContinuationPolicy, script: Bytes, c: Context)
    requires Enforces(script, s, p) && p.indices != []
    requires Accepts(c, script, [])
    ensures PolicyHolds(s, p, c) && SameCovenant(p.authorizingInput, c, c) && EncodesSome(s, c.payload)
  {
    assert PolicyHolds(s, p, c);
    assert p.indices[0] in p.indices;
    assert OutputHolds(c, p.authorizingInput, p.indices[0]);
    PayloadHoldsIff(s, c.payload);
  }

  lemma FollowKeeps(s: Spec, p: ContinuationPolicy, c: Context, d: Context)
    requires PolicyHolds(s, p, c) && Follows(p, c, d)
    ensures SameCovenant(p.authorizingInput, c, d)
  {
    var a := p.authorizingInput;
    var k: u32 :| k in p.indices && k < |c.outputs|
                  && d.inputs[a] == SpentOutput(c.outputs[k].spk, c.outputs[k].covenant);
    assert OutputHolds(c, a, k);
  }

  ghost predicate AcceptedAt(script: Bytes, txs: seq<Context>, i: nat) { i < |txs| ==> Accepts(txs[i], script, []) }

  ghost predicate LinkAt(a: nat, txs: seq<Context>, i: nat) { i + 1 < |txs| ==> SameCovenant(a, txs[i], txs[i + 1]) }

  lemma {:induction false} SameAlong(a: nat, txs: seq<Context>, n: nat)
    requires n < |txs| && SameCovenant(a, txs[0], txs[0])
    requires forall i: nat :: LinkAt(a, txs, i)
    ensures SameCovenant(a, txs[0], txs[n])
  {
    if n > 0 {
      SameAlong(a, txs, n - 1);
      assert LinkAt(a, txs, n - 1);
    }
  }

  lemma LineageLink(s: Spec, p: ContinuationPolicy, script: Bytes, txs: seq<Context>, i: nat)
    requires Enforces(script, s, p) && p.indices != []
    requires AcceptedAt(script, txs, i) && FollowsAt(p, txs, i)
    ensures LinkAt(p.authorizingInput, txs, i)
  {
    if i + 1 < |txs| {
      AcceptedSpend(s, p, script, txs[i]);
      FollowKeeps(s, p, txs[i], txs[i + 1]);
    }
  }

  // Along any chain of accepted spends, of any length and through any of the listed
  // outputs, the script and the covenant id the engine sees never change, nor does the
  // covenant itself on an engine whose stand-in for a missing id is no id; and every payload
  // encodes a state with the static fields of the spec.
  lemma LineageNeverChanges(s: Spec, p: ContinuationPolicy, script: Bytes, txs: seq<Context>, n: nat)
    requires Enforces(script, s, p) && p.indices != []
    requires n < |txs|
    requires forall i: nat :: AcceptedAt(script, txs, i)
    requires forall i: nat :: FollowsAt(p, txs, i)
    ensures SameCovenant(p.authorizingInput, txs[0], txs[n])
    ensures PlainId(txs[0]) ==>
              txs[n].inputs[p.authorizingInput].covenant == txs[0].inputs[p.authorizingInput].covenant
    ensures EncodesSome(s, txs[n].payload)
  {
    forall i: nat ensures LinkAt(p.authorizingInput, txs, i) {
      assert AcceptedAt(script, txs, i) && FollowsAt(p, txs, i);
      LineageLink(s, p, script, txs, i);
    }
    assert AcceptedAt(script, txs, 0) && AcceptedAt(script, txs, n);
    AcceptedSpend(s, p, script, txs[0]);
    AcceptedSpend(s, p, script, txs[n]);
    SameAlong(p.authorizingInput, txs, n);
    if PlainId(txs[0]) { SameCovenantField(p.authorizingInput, txs[0], txs[n]); }
  }

  // A built script goes on accepting the payload of every state that advances from genesis,
  // in any spend of the right shape.
  lemma AdvancedStatesStayAccepted(s: Spec, p: ContinuationPolicy, script: Bytes, moves: seq<(Bytes32, Bytes32)>,
                                   c: Context)
    requires Enforces(script, s, p)
    requires AdvanceAll(Genesis(s), moves).Some?
    requires c.payload == EncodePayload(AdvanceAll(Genesis(s), moves).value)
    ensures Accepts(c, script, []) <==>
              && c.current == p.authorizingInput && |c.outputs| == p.outputCount
              && forall k :: k in p.indices ==> OutputHolds(c, p.authorizingInput, k)
  {
    assert PayloadHolds(s, c.payload) by { AdvancesStayAccepted(s, Genesis(s), moves); }
    assert Accepts(c, script, []) <==> PolicyHolds(s, p, c);
  }
}
