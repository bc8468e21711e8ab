/**
 `build_script_for_policy` and `build_script_for_shared_policy`: the redeem scripts and
 what they mean on the stack machine.
 */
module CovenantScript {
  import opened Bytes
  import opened ScriptNum
  import opened Script
  import opened Covenant

  // ---- fragments ----

  // The fragment pushes one value, or fails.
  ghost predicate Pushes(x: Machine, p: seq<Instr>, v: Option<Bytes>) {
    forall st: Stack :: ExecuteAll(x, p, st) == PushOption(st, v)
  }

  // The fragment leaves the stack alone and goes on exactly when `holds`.
  ghost predicate Guards(x: Machine, p: seq<Instr>, holds: bool) {
    forall st: Stack :: ExecuteAll(x, p, st) == if holds then Some(st) else None
  }

  lemma ExecuteOne(x: Machine, i: Instr, st: Stack)
    ensures ExecuteAll(x, [i], st) == x(i, st)
  {
  }

  lemma LiteralPushes(x: Machine, i: Instr, v: Bytes)
    requires forall st: Stack :: x(i, st) == Some(st + [v])
    ensures Pushes(x, [i], Some(v))
  {
    forall st: Stack ensures ExecuteAll(x, [i], st) == PushOption(st, Some(v)) { ExecuteOne(x, i, st); }
  }

  // One operand, then an opcode that replaces the top of the stack.
  lemma UnaryPushes(x: Machine, p: seq<Instr>, v: Option<Bytes>, i: Instr, w: Option<Bytes>)
    requires Pushes(x, p, v)
    requires v.None? ==> w.None?
    requires v.Some? ==> forall st: Stack :: x(i, st + [v.value]) == PushOption(st, w)
    ensures Pushes(x, p + [i], w)
  {
    forall st: Stack ensures ExecuteAll(x, p + [i], st) == PushOption(st, w) {
      ExecuteAppend(x, p, [i], st);
      if v.Some? { ExecuteOne(x, i, st + [v.value]); }
    }
  }

  ghost predicate ComparesTop(x: Machine) {
    forall st: Stack, a: Bytes, b: Bytes :: x(EQV, st + [a] + [b]) == if a == b then Some(st) else None
  }

  lemma EqualVerifyCompares(c: Context)
    ensures ComparesTop(On(c))
  {
    forall st: Stack, a: Bytes, b: Bytes ensures On(c)(EQV, st + [a] + [b]) == if a == b then Some(st) else None {
      var top := st + [a] + [b];
      assert top[..|top| - 1] == st + [a];
      assert (st + [a])[..|st|] == st;
    }
  }

  lemma EqualGuardsOn(x: Machine, p: seq<Instr>, v: Option<Bytes>, q: seq<Instr>, w: Option<Bytes>)
    requires ComparesTop(x) && Pushes(x, p, v) && Pushes(x, q, w)
    ensures Guards(x, p + q + [EQV], v.Some? && w.Some? && v == w)
  {
    forall st: Stack
      ensures ExecuteAll(x, p + q + [EQV], st) == if v.Some? && w.Some? && v == w then Some(st) else None
    {
      ExecuteAppend(x, p + q, [EQV], st);
      ExecuteAppend(x, p, q, st);
      if v.Some? && w.Some? {
        assert ExecuteAll(x, p, st) == Some(st + [v.value]);
        assert ExecuteAll(x, q, st + [v.value]) == Some(st + [v.value] + [w.value]);
        ExecuteOne(x, EQV, st + [v.value] + [w.value]);
        assert x(EQV, st + [v.value] + [w.value]) == if v.value == w.value then Some(st) else None;
      }
    }
  }

  lemma EqualGuards(c: Context, p: seq<Instr>, v: Option<Bytes>, q: seq<Instr>, w: Option<Bytes>)
    requires Pushes(On(c), p, v) && Pushes(On(c), q, w)
    ensures Guards(On(c), p + q + [EQV], v.Some? && w.Some? && v == w)
  {
    EqualVerifyCompares(c);
    EqualGuardsOn(On(c), p, v, q, w);
  }

  lemma GuardsAppend(x: Machine, p: seq<Instr>, a: bool, q: seq<Instr>, b: bool)
    requires Guards(x, p, a) && Guards(x, q, b)
    ensures Guards(x, p + q, a && b)
  {
    forall st: Stack ensures ExecuteAll(x, p + q, st) == if a && b then Some(st) else None {
      ExecuteAppend(x, p, q, st);
    }
  }

  lemma EmptyGuards(x: Machine)
    ensures Guards(x, [], true)
  {
  }

  lemma NumPushes(c: Context, n: int)
    ensures Pushes(On(c), [PushNum(n)], Some(NumBytes(n)))
  {
    LiteralPushes(On(c), PushNum(n), NumBytes(n));
  }

  lemma DataPushes(c: Context, d: Bytes)
    ensures Pushes(On(c), [PushData(d)], Some(d))
  {
    LiteralPushes(On(c), PushData(d), d);
  }

  lemma IndexPopped(st: Stack, k: nat, n: nat)
    ensures PopIndex(st + [NumBytes(k)], n) == if k < n then Some((k, st)) else None
  {
    NumRoundTrip(k);
    assert (st + [NumBytes(k)])[..|st|] == st;
  }

  // ---- the values the checks compare ----

  function InputSpk(c: Context, k: nat): Option<Bytes> { if k < |c.inputs| then Some(c.inputs[k].spk) else None }
  function OutputSpk(c: Context, k: nat): Option<Bytes> { if k < |c.outputs| then Some(c.outputs[k].spk) else None }
  function InputId(c: Context, k: nat): Option<Bytes> {
    if k < |c.inputs| then PushedId(c, c.inputs[k].covenant) else None
  }
  function OutputId(c: Context, k: nat): Option<Bytes> {
    if k < |c.outputs| then PushedId(c, c.outputs[k].covenant) else None
  }
  function OutputAuthorizer(c: Context, k: nat): Option<Bytes> {
    if k < |c.outputs| then PushedAuthorizer(c, c.outputs[k].authorizing) else None
  }
  function Slice(c: Context, lo: nat, hi: nat): Option<Bytes> {
    if lo <= hi <= |c.payload| then Some(c.payload[lo..hi]) else None
  }

  // An index pushed by `p`, then an opcode that looks it up.
  lemma InputLookupPushes(c: Context, p: seq<Instr>, k: nat)
    requires Pushes(On(c), p, Some(NumBytes(k)))
    ensures Pushes(On(c), p + [Op(OP_TX_INPUT_SPK)], InputSpk(c, k))
    ensures Pushes(On(c), p + [Op(OP_INPUT_COVENANT_ID)], InputId(c, k))
  {
    var b := NumBytes(k);
    forall st: Stack
      ensures Step(c, OP_TX_INPUT_SPK, st + [b]) == PushOption(st, InputSpk(c, k))
      ensures Step(c, OP_INPUT_COVENANT_ID, st + [b]) == PushOption(st, InputId(c, k))
    {
      IndexPopped(st, k, |c.inputs|);
    }
    UnaryPushes(On(c), p, Some(b), Op(OP_TX_INPUT_SPK), InputSpk(c, k));
    UnaryPushes(On(c), p, Some(b), Op(OP_INPUT_COVENANT_ID), InputId(c, k));
  }

  lemma OutputLookupPushes(c: Context, p: seq<Instr>, k: nat)
    requires Pushes(On(c), p, Some(NumBytes(k)))
    ensures Pushes(On(c), p + [Op(OP_TX_OUTPUT_SPK)], OutputSpk(c, k))
    ensures Pushes(On(c), p + [Op(OP_OUTPUT_COVENANT_ID)], OutputId(c, k))
    ensures Pushes(On(c), p + [Op(OP_OUTPUT_AUTHORIZING_INPUT)], OutputAuthorizer(c, k))
  {
    var b := NumBytes(k);
    forall st: Stack
      ensures Step(c, OP_TX_OUTPUT_SPK, st + [b]) == PushOption(st, OutputSpk(c, k))
      ensures Step(c, OP_OUTPUT_COVENANT_ID, st + [b]) == PushOption(st, OutputId(c, k))
      ensures Step(c, OP_OUTPUT_AUTHORIZING_INPUT, st + [b]) == PushOption(st, OutputAuthorizer(c, k))
    {
      IndexPopped(st, k, |c.outputs|);
    }
    UnaryPushes(On(c), p, Some(b), Op(OP_TX_OUTPUT_SPK), OutputSpk(c, k));
    UnaryPushes(On(c), p, Some(b), Op(OP_OUTPUT_COVENANT_ID), OutputId(c, k));
    UnaryPushes(On(c), p, Some(b), Op(OP_OUTPUT_AUTHORIZING_INPUT), OutputAuthorizer(c, k));
  }

  lemma SlicePushes(c: Context, lo: nat, hi: nat)
    ensures Pushes(On(c), [PushNum(lo), PushNum(hi)] + [Op(OP_TX_PAYLOAD_SUBSTR)], Slice(c, lo, hi))
  {
    var p := [PushNum(lo), PushNum(hi)];
    forall st: Stack ensures ExecuteAll(On(c), p + [Op(OP_TX_PAYLOAD_SUBSTR)], st) == PushOption(st, Slice(c, lo, hi)) {
      ExecuteAppend(On(c), p, [Op(OP_TX_PAYLOAD_SUBSTR)], st);
      var mid := st + [NumBytes(lo)];
      assert ExecuteAll(On(c), p, st) == Some(mid + [NumBytes(hi)]) by {
        assert p[1..] == [PushNum(hi)];
        ExecuteOne(On(c), PushNum(hi), mid);
      }
      ExecuteOne(On(c), Op(OP_TX_PAYLOAD_SUBSTR), mid + [NumBytes(hi)]);
      IndexPopped(mid, hi, |c.payload| + 1);
      IndexPopped(st, lo, hi + 1);
    }
  }

  lemma CurrentPushes(c: Context)
    ensures Pushes(On(c), [Op(OP_TX_INPUT_INDEX)], Some(NumBytes(c.current)))
    ensures Pushes(On(c), [Op(OP_TX_OUTPUT_COUNT)], Some(NumBytes(|c.outputs|)))
    ensures Pushes(On(c), [Op(OP_TX_PAYLOAD_LEN)], Some(NumBytes(|c.payload|)))
  {
    LiteralPushes(On(c), Op(OP_TX_INPUT_INDEX), NumBytes(c.current));
    LiteralPushes(On(c), Op(OP_TX_OUTPUT_COUNT), NumBytes(|c.outputs|));
    LiteralPushes(On(c), Op(OP_TX_PAYLOAD_LEN), NumBytes(|c.payload|));
  }

  // ---- the continuation policy ----

  datatype ContinuationPolicy = ContinuationPolicy(authorizingInput: u16, outputCount: u32, indices: seq<u32>)

  predicate ValidPolicy(p: ContinuationPolicy) {
    && p.outputCount != 0
    && p.indices != []
    && (forall i :: 0 <= i < |p.indices| ==> p.indices[i] < p.outputCount)
    && (forall i :: 0 <= i < |p.indices| - 1 ==> p.indices[i] < p.indices[i + 1])
  }

  const EQV := Op(OP_EQUAL_VERIFY)

  function InputIndexCheck(a: nat): seq<Instr> { [Op(OP_TX_INPUT_INDEX)] + [PushNum(a)] + [EQV] }

  function OutputCountCheck(n: nat): seq<Instr> { [Op(OP_TX_OUTPUT_COUNT)] + [PushNum(n)] + [EQV] }

  function OutputChecks(a: nat, k: nat): seq<Instr> {
    (([PushNum(a)] + [Op(OP_TX_INPUT_SPK)]) + ([PushNum(k)] + [Op(OP_TX_OUTPUT_SPK)]) + [EQV])
    + ((([PushNum(a)] + [Op(OP_INPUT_COVENANT_ID)]) + ([PushNum(k)] + [Op(OP_OUTPUT_COVENANT_ID)]) + [EQV])
       + (([PushNum(k)] + [Op(OP_OUTPUT_AUTHORIZING_INPUT)]) + [PushNum(a)] + [EQV]))
  }

  function AllOutputChecks(a: nat, ks: seq<nat>): seq<Instr> {
    if ks == [] then [] else OutputChecks(a, ks[0]) + AllOutputChecks(a, ks[1..])
  }

  function SliceCheck(lo: nat, hi: nat, d: Bytes): seq<Instr> {
    ([PushNum(lo), PushNum(hi)] + [Op(OP_TX_PAYLOAD_SUBSTR)]) + [PushData(d)] + [EQV]
  }

  function LengthCheck(n: nat): seq<Instr> { [Op(OP_TX_PAYLOAD_LEN)] + [PushNum(n)] + [EQV] }

  function PayloadChecks(t: Bytes): seq<Instr>
    requires |t| == 148
  {
    LengthCheck(148)
    + (SliceCheck(0, 16, t[0..16])
       + (SliceCheck(16, 48, t[16..48]) + (SliceCheck(48, 80, t[48..80]) + SliceCheck(112, 116, t[112..116]))))
  }

  function PolicyBody(p: ContinuationPolicy, t: Bytes): seq<Instr>
    requires |t| == 148
  {
    (InputIndexCheck(p.authorizingInput)
     + (OutputCountCheck(p.outputCount)
        + (AllOutputChecks(p.authorizingInput, p.indices) + PayloadChecks(t))))
    + [PushNum(1)]
  }

  function PolicyProgram(s: Spec, p: ContinuationPolicy): seq<Instr> {
    TemplateSlices(s);
    PolicyBody(p, Template(s))
  }

  // ---- what the policy demands ----

  ghost predicate OutputHolds(c: Context, a: nat, k: nat) {
    && a < |c.inputs| && k < |c.outputs|
    && c.inputs[a].spk == c.outputs[k].spk
    && InputId(c, a).Some? && InputId(c, a) == OutputId(c, k)
    && OutputAuthorizer(c, k) == Some(NumBytes(a))
  }

  ghost predicate PolicyHolds(s: Spec, p: ContinuationPolicy, c: Context) {
    && c.current == p.authorizingInput
    && |c.outputs| == p.outputCount
    && (forall k :: k in p.indices ==> OutputHolds(c, p.authorizingInput, k))
    && PayloadHolds(s, c.payload)
  }

  // ---- the same in the transaction's own fields ----

  // What the engine pushes for a missing covenant id cannot be taken for an id.
  predicate PlainId(c: Context) { c.noId.None? || |c.noId.value| != 32 }

  // Nor what it pushes for a missing authorising input for input a.
  predicate PlainEngine(c: Context, a: nat) { PlainId(c) && c.noAuthorizer != Some(NumBytes(a)) }

  // The output keeps the script and the covenant of input a and names it as authorising.
  predicate KeepsCovenant(c: Context, a: nat, k: nat) {
    && a < |c.inputs| && k < |c.outputs|
    && c.outputs[k].spk == c.inputs[a].spk
    && c.outputs[k].covenant == c.inputs[a].covenant
    && (c.inputs[a].covenant.Some? || c.noId.Some?)
    && c.outputs[k].authorizing == Some(a)
  }

  lemma SamePushedId(c: Context, x: Option<Bytes32>, y: Option<Bytes32>)
    requires PlainId(c)
    ensures PushedId(c, x) == PushedId(c, y) <==> x == y
  {
  }

  lemma OutputHoldsIffKeeps(c: Context, a: nat, k: nat)
    requires PlainEngine(c, a)
    ensures OutputHolds(c, a, k) <==> KeepsCovenant(c, a, k)
  {
    if a < |c.inputs| && k < |c.outputs| {
      SamePushedId(c, c.inputs[a].covenant, c.outputs[k].covenant);
      if c.outputs[k].authorizing.Some? { NumInjective(c.outputs[k].authorizing.value, a); }
    }
  }

  ghost predicate PolicyAllows(s: Spec, p: ContinuationPolicy, c: Context) {
    && c.current == p.authorizingInput
    && |c.outputs| == p.outputCount
    && (forall k :: k in p.indices ==> KeepsCovenant(c, p.authorizingInput, k))
    && EncodesSome(s, c.payload)
  }

  // On such an engine the policy demands exactly this of the transaction.
  lemma PolicyHoldsIffAllows(s: Spec, p: ContinuationPolicy, c: Context)
    requires PlainEngine(c, p.authorizingInput)
    ensures PolicyHolds(s, p, c) <==> PolicyAllows(s, p, c)
  {
    forall k: nat ensures OutputHolds(c, p.authorizingInput, k) <==> KeepsCovenant(c, p.authorizingInput, k) {
      OutputHoldsIffKeeps(c, p.authorizingInput, k);
    }
    PayloadHoldsIff(s, c.payload);
  }

  predicate SameEngine(c: Context, d: Context) { c.noId == d.noId && c.noAuthorizer == d.noAuthorizer }

  lemma TemplateHolds(s: Spec)
    ensures PayloadHolds(s, Template(s)) && EncodesSome(s, Template(s))
  {
    TemplateSlices(s);
    PayloadHoldsIff(s, Template(s));
  }

  // A spend by input a whose outputs all carry one covenant id and one authorising input.
  function Uniform(a: nat, n: nat, from: Option<Bytes32>, to: Option<Bytes32>, auth: Option<nat>, payload: Bytes, e: Context)
    : Context
  {
    Context(seq(a + 1, i => SpentOutput([], from)), seq(n, i => CreatedOutput([], to, auth)), payload, a,
            e.noId, e.noAuthorizer)
  }

  lemma UniformOutput(
    a: nat, n: nat, from: Option<Bytes32>, to: Option<Bytes32>, auth: Option<nat>, payload: Bytes, e: Context, k: nat)
    requires k < n && PushedId(e, from).Some? && PushedId(e, from) == PushedId(e, to)
    requires PushedAuthorizer(e, auth) == Some(NumBytes(a))
    requires from != to || auth != Some(a)
    ensures var c := Uniform(a, n, from, to, auth, payload, e);
            OutputHolds(c, a, k) && !KeepsCovenant(c, a, k)
  {
    var c := Uniform(a, n, from, to, auth, payload, e);
    assert c.inputs[a] == SpentOutput([], from) && c.outputs[k] == CreatedOutput([], to, auth);
  }

  lemma UniformHolds(
    s: Spec, p: ContinuationPolicy, from: Option<Bytes32>, to: Option<Bytes32>, auth: Option<nat>, e: Context)
    returns (c: Context)
    requires ValidPolicy(p)
    requires PushedId(e, from).Some? && PushedId(e, from) == PushedId(e, to)
    requires PushedAuthorizer(e, auth) == Some(NumBytes(p.authorizingInput))
    requires from != to || auth != Some(p.authorizingInput)
    ensures SameEngine(c, e) && PolicyHolds(s, p, c) && !PolicyAllows(s, p, c)
  {
    var a, n := p.authorizingInput, p.outputCount;
    c := Uniform(a, n, from, to, auth, Template(s), e);
    assert PayloadHolds(s, c.payload) by { TemplateHolds(s); }
    forall k: nat | k < n ensures OutputHolds(c, a, k) && !KeepsCovenant(c, a, k) {
      UniformOutput(a, n, from, to, auth, Template(s), e, k);
    }
    assert p.indices[0] in p.indices && !KeepsCovenant(c, a, p.indices[0]);
  }

  // On any other engine some spend passes every check of the policy without keeping the
  // covenant: an output gains the covenant the engine pushes for a missing id, or goes without
  // an authorising input.
  lemma OtherEngineAdmits(s: Spec, p: ContinuationPolicy, e: Context) returns (c: Context)
    requires ValidPolicy(p) && !PlainEngine(e, p.authorizingInput)
    ensures SameEngine(c, e) && PolicyHolds(s, p, c) && !PolicyAllows(s, p, c)
  {
    var a := p.authorizingInput;
    if e.noAuthorizer == Some(NumBytes(a)) {
      c := UniformHolds(s, p, Some(ZERO32), Some(ZERO32), None, e);
    } else {
      var x: Bytes32 := e.noId.value;
      c := UniformHolds(s, p, None, Some(x), Some(a), e);
    }
  }

  // The policy means what it says of the transaction's fields exactly on the plain engines.
  lemma PolicyMeansAllowsIff(s: Spec, p: ContinuationPolicy, e: Context)
    requires ValidPolicy(p)
    ensures (forall c: Context :: SameEngine(c, e) ==> (PolicyHolds(s, p, c) <==> PolicyAllows(s, p, c)))
            <==> PlainEngine(e, p.authorizingInput)
  {
    if PlainEngine(e, p.authorizingInput) {
      forall c: Context | SameEngine(c, e) ensures PolicyHolds(s, p, c) <==> PolicyAllows(s, p, c) {
        PolicyHoldsIffAllows(s, p, c);
      }
    } else {
      var c := OtherEngineAdmits(s, p, e);
    }
  }

  // ---- meaning of the checks ----

  lemma InputIndexMeans(c: Context, a: nat)
    ensures Guards(On(c), InputIndexCheck(a), c.current == a)
  {
    CurrentPushes(c);
    NumPushes(c, a);
    EqualGuards(c, [Op(OP_TX_INPUT_INDEX)], Some(NumBytes(c.current)), [PushNum(a)], Some(NumBytes(a)));
    NumInjective(c.current, a);
  }

  lemma OutputCountMeans(c: Context, n: nat)
    ensures Guards(On(c), OutputCountCheck(n), |c.outputs| == n)
  {
    CurrentPushes(c);
    NumPushes(c, n);
    EqualGuards(c, [Op(OP_TX_OUTPUT_COUNT)], Some(NumBytes(|c.outputs|)), [PushNum(n)], Some(NumBytes(n)));
    NumInjective(|c.outputs|, n);
  }

  lemma LengthMeans(c: Context, n: nat)
    ensures Guards(On(c), LengthCheck(n), |c.payload| == n)
  {
    CurrentPushes(c);
    NumPushes(c, n);
    EqualGuards(c, [Op(OP_TX_PAYLOAD_LEN)], Some(NumBytes(|c.payload|)), [PushNum(n)], Some(NumBytes(n)));
    NumInjective(|c.payload|, n);
  }

  lemma OutputMeans(c: Context, a: nat, k: nat)
    ensures Guards(On(c), OutputChecks(a, k), OutputHolds(c, a, k))
  {
    NumPushes(c, a);
    NumPushes(c, k);
    InputLookupPushes(c, [PushNum(a)], a);
    OutputLookupPushes(c, [PushNum(k)], k);
    var p1, q1 := [PushNum(a)] + [Op(OP_TX_INPUT_SPK)], [PushNum(k)] + [Op(OP_TX_OUTPUT_SPK)];
    var p2, q2 := [PushNum(a)] + [Op(OP_INPUT_COVENANT_ID)], [PushNum(k)] + [Op(OP_OUTPUT_COVENANT_ID)];
    var p3 := [PushNum(k)] + [Op(OP_OUTPUT_AUTHORIZING_INPUT)];
    EqualGuards(c, p1, InputSpk(c, a), q1, OutputSpk(c, k));
    EqualGuards(c, p2, InputId(c, a), q2, OutputId(c, k));
    EqualGuards(c, p3, OutputAuthorizer(c, k), [PushNum(a)], Some(NumBytes(a)));
    var h1 := InputSpk(c, a).Some? && OutputSpk(c, k).Some? && InputSpk(c, a) == OutputSpk(c, k);
    var h2 := InputId(c, a).Some? && OutputId(c, k).Some? && InputId(c, a) == OutputId(c, k);
    var h3 := OutputAuthorizer(c, k).Some? && OutputAuthorizer(c, k) == Some(NumBytes(a));
    GuardsAppend(On(c), p2 + q2 + [EQV], h2, p3 + [PushNum(a)] + [EQV], h3);
    GuardsAppend(On(c), p1 + q1 + [EQV], h1, (p2 + q2 + [EQV]) + (p3 + [PushNum(a)] + [EQV]), h2 && h3);
  }

  lemma {:induction false} AllOutputsMean(c: Context, a: nat, ks: seq<nat>)
    ensures Guards(On(c), AllOutputChecks(a, ks), forall k :: k in ks ==> OutputHolds(c, a, k))
  {
    if ks == [] {
      EmptyGuards(On(c));
    } else {
      OutputMeans(c, a, ks[0]);
      AllOutputsMean(c, a, ks[1..]);
      GuardsAppend(On(c), OutputChecks(a, ks[0]), OutputHolds(c, a, ks[0]),
                   AllOutputChecks(a, ks[1..]), forall k :: k in ks[1..] ==> OutputHolds(c, a, k));
      assert ks == [ks[0]] + ks[1..];
    }
  }

  lemma SliceMeans(c: Context, lo: nat, hi: nat, d: Bytes)
    ensures Guards(On(c), SliceCheck(lo, hi, d), Slice(c, lo, hi) == Some(d))
  {
    SlicePushes(c, lo, hi);
    DataPushes(c, d);
    EqualGuards(c, [PushNum(lo), PushNum(hi)] + [Op(OP_TX_PAYLOAD_SUBSTR)], Slice(c, lo, hi), [PushData(d)], Some(d));
  }

  ghost predicate SlicesHold(c: Context, t: Bytes)
    requires |t| == 148
  {
    && |c.payload| == 148
    && Slice(c, 0, 16) == Some(t[0..16]) && Slice(c, 16, 48) == Some(t[16..48])
    && Slice(c, 48, 80) == Some(t[48..80]) && Slice(c, 112, 116) == Some(t[112..116])
  }

  lemma PayloadMeans(c: Context, t: Bytes)
    requires |t| == 148
    ensures Guards(On(c), PayloadChecks(t), SlicesHold(c, t))
  {
    var a, b, d, e := SliceCheck(0, 16, t[0..16]), SliceCheck(16, 48, t[16..48]), SliceCheck(48, 80, t[48..80]),
                      SliceCheck(112, 116, t[112..116]);
    var ha, hb, hd, he := Slice(c, 0, 16) == Some(t[0..16]), Slice(c, 16, 48) == Some(t[16..48]),
                          Slice(c, 48, 80) == Some(t[48..80]), Slice(c, 112, 116) == Some(t[112..116]);
    LengthMeans(c, 148);
    SliceMeans(c, 0, 16, t[0..16]);
    SliceMeans(c, 16, 48, t[16..48]);
    SliceMeans(c, 48, 80, t[48..80]);
    SliceMeans(c, 112, 116, t[112..116]);
    GuardsAppend(On(c), d, hd, e, he);
    GuardsAppend(On(c), b, hb, d + e, hd && he);
    GuardsAppend(On(c), a, ha, b + (d + e), hb && (hd && he));
    GuardsAppend(On(c), LengthCheck(148), |c.payload| == 148, a + (b + (d + e)), ha && (hb && (hd && he)));
  }

  lemma PayloadChecksMean(s: Spec, c: Context)
    ensures |Template(s)| == 148 && Guards(On(c), PayloadChecks(Template(s)), PayloadHolds(s, c.payload))
  {
    TemplateSlices(s);
    PayloadMeans(c, Template(s));
  }

  // Guards, then OP_TRUE.
  lemma GuardedTrue(c: Context, p: seq<Instr>, holds: bool, st: Stack)
    requires Guards(On(c), p, holds)
    ensures ExecuteAll(On(c), p + [PushNum(1)], st) == if holds then Some(st + [[1]]) else None
  {
    ExecuteAppend(On(c), p, [PushNum(1)], st);
    ExecuteOne(On(c), PushNum(1), st);
    SmallNumBytes(1);
  }

  lemma PolicyProgramMeans(s: Spec, p: ContinuationPolicy, c: Context, st: Stack)
    ensures ExecuteAll(On(c), PolicyProgram(s, p), st) == if PolicyHolds(s, p, c) then Some(st + [[1]]) else None
  {
    var a := p.authorizingInput;
    var outs := forall k :: k in p.indices ==> OutputHolds(c, a, k);
    var pay := PayloadHolds(s, c.payload);
    InputIndexMeans(c, a);
    OutputCountMeans(c, p.outputCount);
    AllOutputsMean(c, a, p.indices);
    PayloadChecksMean(s, c);
    var q1 := AllOutputChecks(a, p.indices) + PayloadChecks(Template(s));
    GuardsAppend(On(c), AllOutputChecks(a, p.indices), outs, PayloadChecks(Template(s)), pay);
    GuardsAppend(On(c), OutputCountCheck(p.outputCount), |c.outputs| == p.outputCount, q1, outs && pay);
    var q2 := OutputCountCheck(p.outputCount) + q1;
    GuardsAppend(On(c), InputIndexCheck(a), c.current == a, q2, |c.outputs| == p.outputCount && (outs && pay));
    GuardedTrue(c, InputIndexCheck(a) + q2, c.current == a && (|c.outputs| == p.outputCount && (outs && pay)), st);
  }

  // ---- the shared policy ----

  datatype SharedPolicy = SharedPolicy(covenantInputs: u32, covenantOutputs: u32, outputCount: u32)

  predicate ValidShared(p: SharedPolicy) {
    p.covenantInputs != 0 && p.covenantOutputs != 0 && p.covenantOutputs <= p.outputCount
  }

  const CurrentId := [Op(OP_TX_INPUT_INDEX)] + [Op(OP_INPUT_COVENANT_ID)]
  const CurrentSpk := [Op(OP_TX_INPUT_INDEX)] + [Op(OP_TX_INPUT_SPK)]

  function SharedIndex(j: nat): seq<Instr> { CurrentId + [PushNum(j)] + [Op(OP_COV_OUTPUT_IDX)] }

  function SharedOutputChecks(j: nat): seq<Instr> {
    (CurrentSpk + (SharedIndex(j) + [Op(OP_TX_OUTPUT_SPK)]) + [EQV])
    + (CurrentId + (SharedIndex(j) + [Op(OP_OUTPUT_COVENANT_ID)]) + [EQV])
  }

  // The fragments f(0), ..., f(n - 1) in order.
  function Each(f: nat -> seq<Instr>, n: nat): seq<Instr> {
    if n == 0 then [] else Each(f, n - 1) + f(n - 1)
  }

  function AllSharedChecks(n: nat): seq<Instr> { Each(SharedOutputChecks, n) }

  function CountCheck(op: byte, n: nat): seq<Instr> { (CurrentId + [Op(op)]) + [PushNum(n)] + [EQV] }

  function SharedBody(p: SharedPolicy, t: Bytes): seq<Instr>
    requires |t| == 148
  {
    (OutputCountCheck(p.outputCount)
     + (CountCheck(OP_COV_INPUT_COUNT, p.covenantInputs)
        + (CountCheck(OP_COV_OUTPUT_COUNT, p.covenantOutputs)
           + (AllSharedChecks(p.covenantOutputs) + PayloadChecks(t)))))
    + [PushNum(1)]
  }

  function SharedProgram(s: Spec, p: SharedPolicy): seq<Instr> {
    TemplateSlices(s);
    SharedBody(p, Template(s))
  }

  // What the shared policy demands, without the machine: counts as sizes of sets, and every
  // output carrying the id keeps the script.
  function InputSet(s: seq<SpentOutput>, id: Bytes): set<nat> {
    set i: nat | i < |s| && s[i].covenant.Some? && s[i].covenant.value == id
  }

  function OutputSet(s: seq<CreatedOutput>, id: Bytes): set<nat> {
    set k: nat | k < |s| && Carries(s[k], id)
  }

  ghost predicate CarriersHold(p: SharedPolicy, inputs: seq<SpentOutput>, outputs: seq<CreatedOutput>, spk: Bytes,
                               id: Bytes)
  {
    && |outputs| == p.outputCount
    && |InputSet(inputs, id)| == p.covenantInputs
    && |OutputSet(outputs, id)| == p.covenantOutputs
    && (forall k :: k in OutputSet(outputs, id) ==> outputs[k].spk == spk)
  }

  ghost predicate SharedHolds(s: Spec, p: SharedPolicy, c: Context) {
    && InputId(c, c.current).Some?
    && CarriersHold(p, c.inputs, c.outputs, c.inputs[c.current].spk, InputId(c, c.current).value)
    && PayloadHolds(s, c.payload)
  }

  // The same in the transaction's own fields.
  ghost predicate SharedAllows(s: Spec, p: SharedPolicy, c: Context) {
    && c.current < |c.inputs| && c.inputs[c.current].covenant.Some?
    && CarriersHold(p, c.inputs, c.outputs, c.inputs[c.current].spk, c.inputs[c.current].covenant.value)
    && EncodesSome(s, c.payload)
  }

  // A stand-in for a missing id is carried by no input, and a valid policy wants one.
  lemma StandInCarriesNothing(p: SharedPolicy, c: Context, spk: Bytes, id: Bytes)
    requires |id| != 32 && ValidShared(p)
    ensures !CarriersHold(p, c.inputs, c.outputs, spk, id)
  {
    assert InputSet(c.inputs, id) == {};
  }

  lemma CarriersAreReal(p: SharedPolicy, c: Context)
    requires PlainId(c) && ValidShared(p)
    ensures (InputId(c, c.current).Some?
             && CarriersHold(p, c.inputs, c.outputs, c.inputs[c.current].spk, InputId(c, c.current).value))
            <==> (&& c.current < |c.inputs| && c.inputs[c.current].covenant.Some?
                  && CarriersHold(p, c.inputs, c.outputs, c.inputs[c.current].spk, c.inputs[c.current].covenant.value))
  {
    if c.current < |c.inputs| && c.inputs[c.current].covenant.None? && c.noId.Some? {
      StandInCarriesNothing(p, c, c.inputs[c.current].spk, c.noId.value);
    }
  }

  lemma SharedHoldsIffAllows(s: Spec, p: SharedPolicy, c: Context)
    requires PlainId(c) && ValidShared(p)
    ensures SharedHolds(s, p, c) <==> SharedAllows(s, p, c)
  {
    CarriersAreReal(p, c);
    PayloadHoldsIff(s, c.payload);
  }

  // ---- counting by lists is counting by sets ----

  lemma {:induction false} CarryingInputsCount(s: seq<SpentOutput>, id: Bytes)
    ensures CarryingInputs(s, id) == |InputSet(s, id)|
  {
    if s != [] {
      var t := s[..|s| - 1];
      CarryingInputsCount(t, id);
      var last := Last(s).covenant.Some? && Last(s).covenant.value == id;
      assert InputSet(s, id) == InputSet(t, id) + if last then {|t|} else {};
    }
  }

  lemma {:induction false} CarryingOutputsCount(s: seq<CreatedOutput>, id: Bytes)
    ensures |CarryingOutputs(s, id)| == |OutputSet(s, id)|
  {
    if s != [] {
      var t := s[..|s| - 1];
      CarryingOutputsCount(t, id);
      assert OutputSet(s, id) == OutputSet(t, id) + if Carries(Last(s), id) then {|t|} else {};
    }
  }

  // ---- the shared policy needs a plain engine too ----

  lemma {:induction false} AllCarryInputs(spk: Bytes, id: Bytes32, n: nat)
    ensures CarryingInputs([SpentOutput(spk, None)] + seq(n, i => SpentOutput(spk, Some(id))), id) == n
  {
    var s := [SpentOutput(spk, None)] + seq(n, i => SpentOutput(spk, Some(id)));
    if n == 0 {
      assert s[..0] == [];
    } else {
      AllCarryInputs(spk, id, n - 1);
      assert s[..|s| - 1] == [SpentOutput(spk, None)] + seq(n - 1, i => SpentOutput(spk, Some(id)));
    }
  }

  // n outputs of which the first m carry the id.
  function Carriers(id: Bytes32, m: nat, n: nat): seq<CreatedOutput> {
    seq(n, i => CreatedOutput([], if i < m then Some(id) else None, None))
  }

  lemma CarriersShorter(id: Bytes32, m: nat, n: nat)
    requires m <= n && n != 0
    ensures Carriers(id, m, n)[..n - 1] == Carriers(id, if m < n then m else n - 1, n - 1)
    ensures Carries(Last(Carriers(id, m, n)), id) <==> m == n
  {
    var s, t := Carriers(id, m, n), Carriers(id, if m < n then m else n - 1, n - 1);
    forall i | 0 <= i < n - 1 ensures s[..n - 1][i] == t[i] { }
  }

  lemma {:induction false} FirstOutputsCarry(id: Bytes32, m: nat, n: nat)
    requires m <= n
    ensures |CarryingOutputs(Carriers(id, m, n), id)| == m
    decreases n
  {
    if n != 0 {
      CarriersShorter(id, m, n);
      FirstOutputsCarry(id, if m < n then m else n - 1, n - 1);
    }
  }

  lemma CarriedWithoutFirst(p: SharedPolicy, id: Bytes32) returns (inputs: seq<SpentOutput>, outputs: seq<CreatedOutput>)
    requires ValidShared(p)
    ensures inputs != [] && inputs[0] == SpentOutput([], None)
    ensures CarriersHold(p, inputs, outputs, [], id)
  {
    inputs := [SpentOutput([], None)] + seq(p.covenantInputs, i => SpentOutput([], Some(id)));
    outputs := Carriers(id, p.covenantOutputs, p.outputCount);
    assert |InputSet(inputs, id)| == p.covenantInputs by {
      AllCarryInputs([], id, p.covenantInputs);
      CarryingInputsCount(inputs, id);
    }
    assert |OutputSet(outputs, id)| == p.covenantOutputs by {
      FirstOutputsCarry(id, p.covenantOutputs, p.outputCount);
      CarryingOutputsCount(outputs, id);
    }
  }

  // On an engine that pushes an id for a missing one, input 0 without a covenant passes every
  // check by naming the covenant of the inputs behind it.
  lemma StandInAdmits(s: Spec, p: SharedPolicy, e: Context) returns (c: Context)
    requires ValidShared(p) && !PlainId(e)
    ensures SameEngine(c, e) && SharedHolds(s, p, c) && !SharedAllows(s, p, c)
  {
    var inputs, outputs := CarriedWithoutFirst(p, e.noId.value);
    c := Context(inputs, outputs, Template(s), 0, e.noId, e.noAuthorizer);
    assert PayloadHolds(s, c.payload) by { TemplateHolds(s); }
  }

  lemma SharedMeansAllowsIff(s: Spec, p: SharedPolicy, e: Context)
    requires ValidShared(p)
    ensures (forall c: Context :: SameEngine(c, e) ==> (SharedHolds(s, p, c) <==> SharedAllows(s, p, c)))
            <==> PlainId(e)
  {
    if PlainId(e) {
      forall c: Context | SameEngine(c, e) ensures SharedHolds(s, p, c) <==> SharedAllows(s, p, c) {
        SharedHoldsIffAllows(s, p, c);
      }
    } else {
      var c := StandInAdmits(s, p, e);
    }
  }

  // ---- meaning of the shared checks ----

  lemma CurrentOperands(c: Context)
    ensures Pushes(On(c), CurrentId, InputId(c, c.current))
    ensures Pushes(On(c), CurrentSpk, InputSpk(c, c.current))
  {
    CurrentPushes(c);
    InputLookupPushes(c, [Op(OP_TX_INPUT_INDEX)], c.current);
  }

  lemma CountMeans(c: Context, op: byte, n: nat, count: nat)
    requires op == OP_COV_INPUT_COUNT || op == OP_COV_OUTPUT_COUNT
    requires InputId(c, c.current).Some? ==>
               count == if op == OP_COV_INPUT_COUNT then CarryingInputs(c.inputs, InputId(c, c.current).value)
                        else |CarryingOutputs(c.outputs, InputId(c, c.current).value)|
    ensures Guards(On(c), CountCheck(op, n), InputId(c, c.current).Some? && count == n)
  {
    CurrentOperands(c);
    NumPushes(c, n);
    var id := InputId(c, c.current);
    var w := if id.Some? then Some(NumBytes(count)) else None;
    if id.Some? {
      forall st: Stack ensures Step(c, op, st + [id.value]) == PushOption(st, w) {
        assert (st + [id.value])[..|st|] == st;
      }
    }
    UnaryPushes(On(c), CurrentId, id, Op(op), w);
    EqualGuards(c, CurrentId + [Op(op)], w, [PushNum(n)], Some(NumBytes(n)));
    NumInjective(count, n);
  }

  // The j-th output carrying an id.
  function Ordinal(c: Context, id: Bytes, j: nat): Option<nat> {
    var idx := CarryingOutputs(c.outputs, id);
    if j < |idx| then Some(idx[j]) else None
  }

  lemma SharedIndexPushes(c: Context, id: Bytes, j: nat)
    requires InputId(c, c.current) == Some(id)
    ensures Ordinal(c, id, j).Some? ==> Pushes(On(c), SharedIndex(j), Some(NumBytes(Ordinal(c, id, j).value)))
    ensures Ordinal(c, id, j).None? ==> Pushes(On(c), SharedIndex(j), None)
  {
    CurrentOperands(c);
    NumPushes(c, j);
    NumRoundTrip(j);
    var w := if Ordinal(c, id, j).Some? then Some(NumBytes(Ordinal(c, id, j).value)) else None;
    forall st: Stack ensures ExecuteAll(On(c), SharedIndex(j), st) == PushOption(st, w) {
      var mid := st + [id];
      ExecuteAppend(On(c), CurrentId + [PushNum(j)], [Op(OP_COV_OUTPUT_IDX)], st);
      ExecuteAppend(On(c), CurrentId, [PushNum(j)], st);
      ExecuteOne(On(c), Op(OP_COV_OUTPUT_IDX), mid + [NumBytes(j)]);
      assert (mid + [NumBytes(j)])[..|mid|] == mid && mid[..|st|] == st;
    }
  }

  ghost predicate OrdinalHolds(c: Context, id: Bytes, j: nat) {
    var k := Ordinal(c, id, j);
    k.Some? && k.value < |c.outputs| && Some(c.outputs[k.value].spk) == InputSpk(c, c.current)
  }

  lemma SharedOutputMeans(c: Context, id: Bytes, j: nat)
    requires InputId(c, c.current) == Some(id)
    requires j < |CarryingOutputs(c.outputs, id)|
    ensures Guards(On(c), SharedOutputChecks(j), OrdinalHolds(c, id, j))
  {
    var k := CarryingOutputs(c.outputs, id)[j];
    assert k in CarryingOutputs(c.outputs, id);
    CurrentOperands(c);
    SharedIndexPushes(c, id, j);
    OutputLookupPushes(c, SharedIndex(j), k);
    var p1, p2 := SharedIndex(j) + [Op(OP_TX_OUTPUT_SPK)], SharedIndex(j) + [Op(OP_OUTPUT_COVENANT_ID)];
    EqualGuards(c, CurrentSpk, InputSpk(c, c.current), p1, OutputSpk(c, k));
    EqualGuards(c, CurrentId, Some(id), p2, OutputId(c, k));
    GuardsAppend(On(c), CurrentSpk + p1 + [EQV], InputSpk(c, c.current) == OutputSpk(c, k), CurrentId + p2 + [EQV], true);
  }

  ghost predicate GuardedAt(x: Machine, f: nat -> seq<Instr>, holds: nat -> bool, j: nat) { Guards(x, f(j), holds(j)) }

  predicate AllHold(holds: nat -> bool, n: nat) { n == 0 || (AllHold(holds, n - 1) && holds(n - 1)) }

  lemma {:induction false} AllHoldMeans(holds: nat -> bool, n: nat)
    ensures AllHold(holds, n) <==> forall j: nat :: j < n ==> holds(j)
  {
    if n != 0 { AllHoldMeans(holds, n - 1); }
  }

  lemma {:induction false} EachMeans(x: Machine, f: nat -> seq<Instr>, n: nat, holds: nat -> bool)
    requires forall j: nat :: j < n ==> GuardedAt(x, f, holds, j)
    ensures Guards(x, Each(f, n), AllHold(holds, n))
  {
    if n == 0 {
      EmptyGuards(x);
    } else {
      EachMeans(x, f, n - 1, holds);
      assert GuardedAt(x, f, holds, n - 1);
      GuardsAppend(x, Each(f, n - 1), AllHold(holds, n - 1), f(n - 1), holds(n - 1));
    }
  }

  lemma OrdinalsCover(c: Context, id: Bytes)
    requires c.current < |c.inputs|
    ensures (forall j: nat :: j < |CarryingOutputs(c.outputs, id)| ==> OrdinalHolds(c, id, j))
            <==> forall k :: k in OutputSet(c.outputs, id) ==> c.outputs[k].spk == c.inputs[c.current].spk
  {
    var idx := CarryingOutputs(c.outputs, id);
    if forall j: nat :: j < |idx| ==> OrdinalHolds(c, id, j) {
      forall k | k in OutputSet(c.outputs, id) ensures c.outputs[k].spk == c.inputs[c.current].spk {
        assert k in idx;
        var j: nat :| j < |idx| && idx[j] == k;
        assert OrdinalHolds(c, id, j);
      }
    }
    if forall k :: k in OutputSet(c.outputs, id) ==> c.outputs[k].spk == c.inputs[c.current].spk {
      forall j: nat | j < |idx| ensures OrdinalHolds(c, id, j) {
        assert idx[j] in idx;
        assert idx[j] in OutputSet(c.outputs, id);
      }
    }
  }

  // A check that fails stops the program whatever follows.
  lemma GuardStops(x: Machine, p: seq<Instr>, q: seq<Instr>)
    requires Guards(x, p, false)
    ensures Guards(x, p + q, false)
  {
    forall st: Stack ensures ExecuteAll(x, p + q, st) == None { ExecuteAppend(x, p, q, st); }
  }

  ghost predicate SharedTail(s: Spec, p: SharedPolicy, c: Context, id: Bytes) {
    && |CarryingOutputs(c.outputs, id)| == p.covenantOutputs
    && (forall j: nat :: j < p.covenantOutputs ==> OrdinalHolds(c, id, j))
    && PayloadHolds(s, c.payload)
  }

  lemma SharedOutputsMean(c: Context, id: Bytes, n: nat)
    requires InputId(c, c.current) == Some(id)
    requires n == |CarryingOutputs(c.outputs, id)|
    ensures Guards(On(c), AllSharedChecks(n), forall j: nat :: j < n ==> OrdinalHolds(c, id, j))
  {
    var holds := (j: nat) => OrdinalHolds(c, id, j);
    forall j: nat | j < n ensures GuardedAt(On(c), SharedOutputChecks, holds, j) { SharedOutputMeans(c, id, j); }
    EachMeans(On(c), SharedOutputChecks, n, holds);
    assert AllHold(holds, n) <==> forall j: nat :: j < n ==> OrdinalHolds(c, id, j) by {
      AllHoldMeans(holds, n);
      assert forall j: nat {:trigger OrdinalHolds(c, id, j)} {:trigger holds(j)} :: holds(j) == OrdinalHolds(c, id, j);
    }
  }

  lemma SharedTailMeans(s: Spec, p: SharedPolicy, c: Context, id: Bytes)
    requires InputId(c, c.current) == Some(id)
    ensures |Template(s)| == 148
    ensures Guards(On(c), CountCheck(OP_COV_OUTPUT_COUNT, p.covenantOutputs)
                      + (AllSharedChecks(p.covenantOutputs) + PayloadChecks(Template(s))),
                   SharedTail(s, p, c, id))
  {
    var n := p.covenantOutputs;
    var count := CountCheck(OP_COV_OUTPUT_COUNT, n);
    PayloadChecksMean(s, c);
    CountMeans(c, OP_COV_OUTPUT_COUNT, n, |CarryingOutputs(c.outputs, id)|);
    var rest := AllSharedChecks(n) + PayloadChecks(Template(s));
    if |CarryingOutputs(c.outputs, id)| == n {
      var each := forall j: nat :: j < n ==> OrdinalHolds(c, id, j);
      SharedOutputsMean(c, id, n);
      GuardsAppend(On(c), AllSharedChecks(n), each, PayloadChecks(Template(s)), PayloadHolds(s, c.payload));
      GuardsAppend(On(c), count, true, rest, each && PayloadHolds(s, c.payload));
    } else {
      GuardStops(On(c), count, rest);
    }
  }

  lemma SharedHoldsIff(s: Spec, p: SharedPolicy, c: Context, id: Bytes)
    requires InputId(c, c.current) == Some(id)
    ensures SharedHolds(s, p, c) <==>
              |c.outputs| == p.outputCount && CarryingInputs(c.inputs, id) == p.covenantInputs
              && SharedTail(s, p, c, id)
  {
    CarryingInputsCount(c.inputs, id);
    CarryingOutputsCount(c.outputs, id);
    OrdinalsCover(c, id);
  }

  // Three guards in a row, then OP_TRUE.
  lemma ThreeGuards(c: Context, a: seq<Instr>, x: bool, b: seq<Instr>, y: bool, d: seq<Instr>, z: bool, st: Stack)
    requires Guards(On(c), a, x) && Guards(On(c), b, y) && (y ==> Guards(On(c), d, z))
    ensures ExecuteAll(On(c), (a + (b + d)) + [PushNum(1)], st) == if x && y && z then Some(st + [[1]]) else None
  {
    if y { GuardsAppend(On(c), b, y, d, z); } else { GuardStops(On(c), b, d); }
    GuardsAppend(On(c), a, x, b + d, y && z);
    GuardedTrue(c, a + (b + d), x && (y && z), st);
  }

  lemma SharedProgramMeans(s: Spec, p: SharedPolicy, c: Context, st: Stack)
    ensures ExecuteAll(On(c), SharedProgram(s, p), st) == if SharedHolds(s, p, c) then Some(st + [[1]]) else None
  {
    TemplateSlices(s);
    var outs := OutputCountCheck(p.outputCount);
    var ins := CountCheck(OP_COV_INPUT_COUNT, p.covenantInputs);
    var tail := CountCheck(OP_COV_OUTPUT_COUNT, p.covenantOutputs)
                + (AllSharedChecks(p.covenantOutputs) + PayloadChecks(Template(s)));
    OutputCountMeans(c, p.outputCount);
    var id := InputId(c, c.current);
    if id.None? {
      CountMeans(c, OP_COV_INPUT_COUNT, p.covenantInputs, 0);
      ThreeGuards(c, outs, |c.outputs| == p.outputCount, ins, false, tail, false, st);
    } else {
      var n := CarryingInputs(c.inputs, id.value);
      CountMeans(c, OP_COV_INPUT_COUNT, p.covenantInputs, n);
      SharedTailMeans(s, p, c, id.value);
      ThreeGuards(c, outs, |c.outputs| == p.outputCount, ins, n == p.covenantInputs, tail,
                  SharedTail(s, p, c, id.value), st);
      SharedHoldsIff(s, p, c, id.value);
    }
  }

  lemma SharedHoldsAlike(s: Spec, p: SharedPolicy, c: Context, i: nat, j: nat)
    requires i < |c.inputs| && j < |c.inputs| && c.inputs[i] == c.inputs[j]
    ensures SharedHolds(s, p, c.(current := i)) <==> SharedHolds(s, p, c.(current := j))
  {
    var a, b := c.(current := i), c.(current := j);
    assert InputId(a, i) == InputId(b, j) && a.payload == b.payload;
  }
}
