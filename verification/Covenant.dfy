/**
 The covenant state, its payload and its advances, and which payloads the redeem scripts
 accept (rgk-covenant).
 */
module Covenant {
  import opened Bytes
  import opened Codec
  import opened Core

  // ---- covenant state ----

  datatype CovenantState = CovenantState(
    version: u16, chain: ChainId, lineage: Bytes32, asset: Bytes32, digest: Bytes32,
    policy: ReceiptPolicy, mode: ProofMode, replay: Bytes32)

  // ASCII "rgk:kov:0" and three zero bytes.
  const STATE_TAG: Bytes := [0x72, 0x67, 0x6b, 0x3a, 0x6b, 0x6f, 0x76, 0x3a, 0x30, 0, 0, 0]

  type StateFields = (u16, (ChainId, (Bytes32, (Bytes32, (Bytes32, (ReceiptPolicy, (ProofMode, Bytes32)))))))

  function StateLayout(): Codec<StateFields> {
    Pair(U16(), Pair(Chain(), Pair(B32(), Pair(B32(), Pair(B32(), Pair(Policy(), Pair(Mode(), B32())))))))
  }

  function StateOf(f: StateFields): CovenantState {
    CovenantState(f.0, f.1.0, f.1.1.0, f.1.1.1.0, f.1.1.1.1.0, f.1.1.1.1.1.0, f.1.1.1.1.1.1.0, f.1.1.1.1.1.1.1)
  }

  function OfState(s: CovenantState): StateFields {
    (s.version, (s.chain, (s.lineage, (s.asset, (s.digest, (s.policy, (s.mode, s.replay)))))))
  }

  function RawState(): Codec<CovenantState> { Iso(StateLayout(), StateOf, OfState) }

  // `encode_payload`
  function EncodePayload(s: CovenantState): Bytes { STATE_TAG + RawState().enc(s) }

  predicate ValidState(s: CovenantState) {
    s.version == ENCODING_VERSION && s.lineage != ZERO32 && s.asset != ZERO32
  }

  function PayloadCodec(): Codec<CovenantState> { Prefixed(STATE_TAG, Refine(RawState(), ValidState)) }

  // `decode_payload`
  function DecodePayload(b: Bytes): Option<CovenantState> {
    if |b| > MAX_BLOB_BYTES then None else DecodeAll(PayloadCodec(), b)
  }

  // `advance`
  function Advance(s: CovenantState, digest: Bytes32, replay: Bytes32): Option<CovenantState> {
    if digest == s.digest then None else Some(s.(digest := digest, replay := replay))
  }

  lemma RawStateField()
    ensures Field(RawState(), 136)
  {
    var c1 := Pair(Mode(), B32());
    var c2 := Pair(Policy(), c1);
    var c3 := Pair(B32(), c2);
    var c4 := Pair(B32(), c3);
    var c5 := Pair(B32(), c4);
    var c6 := Pair(Chain(), c5);
    assert Field(B32(), 32) by { PrimitiveFields(); }
    assert Field(c1, 34) by { ModeField(); FieldPair(Mode(), 2, B32(), 32); }
    assert Field(c2, 36) by { PolicyField(); FieldPair(Policy(), 2, c1, 34); }
    assert Field(c3, 68) by { FieldPair(B32(), 32, c2, 36); }
    assert Field(c4, 100) by { FieldPair(B32(), 32, c3, 68); }
    assert Field(c5, 132) by { FieldPair(B32(), 32, c4, 100); }
    assert Field(c6, 134) by { ChainField(); FieldPair(Chain(), 2, c5, 132); }
    assert Field(StateLayout(), 136) by { PrimitiveFields(); FieldPair(U16(), 2, c6, 134); }
    FieldIso(StateLayout(), 136, StateOf, OfState);
  }

  lemma PayloadLaws()
    ensures Lawful(PayloadCodec())
    ensures forall s: CovenantState :: PayloadCodec().ok(s) <==> ValidState(s)
    ensures forall s: CovenantState :: PayloadCodec().enc(s) == EncodePayload(s)
  {
    var c := Refine(RawState(), ValidState);
    assert Lawful(c) by { RawStateField(); RefineLawful(RawState(), ValidState); }
    assert forall s: CovenantState :: c.ok(s) <==> ValidState(s) by {
      assert Total(RawState()) by { RawStateField(); }
      forall s: CovenantState ensures c.ok(s) <==> ValidState(s) { assert RawState().ok(s); }
    }
    PrefixedLawful(STATE_TAG, c);
  }

  // The payload is decoded to exactly the valid state it encodes.
  lemma PayloadBijection(s: CovenantState, b: Bytes)
    ensures DecodePayload(b) == Some(s) <==> ValidState(s) && EncodePayload(s) == b
  {
    PayloadLaws();
    if DecodePayload(b) == Some(s) { DecodeAllCanonical(PayloadCodec(), b); }
    if ValidState(s) && EncodePayload(s) == b {
      DecodeAllInverts(PayloadCodec(), s);
      assert |b| == 148 by { RawStateField(); assert RawState().ok(s); }
    }
  }

  // ---- payload layout ----

  function Head(s: CovenantState): Bytes { STATE_TAG + (U16().enc(s.version) + Chain().enc(s.chain)) }

  function Modes(s: CovenantState): Bytes { Policy().enc(s.policy) + Mode().enc(s.mode) }

  lemma PayloadLayout(s: CovenantState)
    ensures |Head(s)| == 16 && |Modes(s)| == 4
    ensures EncodePayload(s) == Head(s) + (s.lineage + (s.asset + (s.digest + (Modes(s) + s.replay))))
  {
    var a, b, c, d := U16().enc(s.version), Chain().enc(s.chain), Policy().enc(s.policy), Mode().enc(s.mode);
    assert |a| == 2 by { U16Lawful(); assert U16().ok(s.version); }
    assert |b| == 2 by { ChainField(); assert Chain().ok(s.chain); }
    assert |c| == 2 by { PolicyField(); assert Policy().ok(s.policy); }
    assert |d| == 2 by { ModeField(); assert Mode().ok(s.mode); }
    AssembleEight(U16(), Chain(), B32(), B32(), B32(), Policy(), Mode(), B32(), OfState(s));
    Regroup(STATE_TAG, a, b, s.lineage, s.asset, s.digest, c, d, s.replay);
  }

  lemma AssembleEight<A, B, C, D, E, F, G, H>(
    a: Codec<A>, b: Codec<B>, c: Codec<C>, d: Codec<D>, e: Codec<E>, f: Codec<F>, g: Codec<G>, h: Codec<H>,
    x: (A, (B, (C, (D, (E, (F, (G, H))))))))
    ensures Pair(a, Pair(b, Pair(c, Pair(d, Pair(e, Pair(f, Pair(g, h))))))).enc(x)
            == a.enc(x.0) + (b.enc(x.1.0) + (c.enc(x.1.1.0) + (d.enc(x.1.1.1.0) + (e.enc(x.1.1.1.1.0)
               + (f.enc(x.1.1.1.1.1.0) + (g.enc(x.1.1.1.1.1.1.0) + h.enc(x.1.1.1.1.1.1.1)))))))
  {
  }

  lemma Regroup(t: Bytes, a: Bytes, b: Bytes, l: Bytes, s: Bytes, d: Bytes, p: Bytes, m: Bytes, r: Bytes)
    ensures t + (a + (b + (l + (s + (d + (p + (m + r)))))))
            == (t + (a + b)) + (l + (s + (d + ((p + m) + r))))
  {
    assert p + (m + r) == (p + m) + r;
    var x := l + (s + (d + (p + (m + r))));
    assert t + (a + (b + x)) == (t + (a + b)) + x;
  }

  // Where the pieces of a 148-byte payload lie.
  lemma Pieces(p: Bytes, h: Bytes, l: Bytes, s: Bytes, d: Bytes, m: Bytes, r: Bytes)
    requires |h| == 16 && |l| == 32 && |s| == 32 && |d| == 32 && |m| == 4 && |r| == 32
    ensures p == h + (l + (s + (d + (m + r)))) <==>
              && |p| == 148
              && p[0..16] == h && p[16..48] == l && p[48..80] == s && p[80..112] == d && p[112..116] == m
              && p[116..148] == r
  {
    var q := h + (l + (s + (d + (m + r))));
    assert q[0..16] == h && q[16..48] == l && q[48..80] == s && q[80..112] == d && q[112..116] == m
           && q[116..148] == r;
    if |p| == 148 {
      assert p == p[0..16] + (p[16..48] + (p[48..80] + (p[80..112] + (p[112..116] + p[116..148]))));
    }
  }

  // ---- specifications ----

  datatype Spec = Spec(
    chain: ChainId, lineage: Bytes32, asset: Bytes32, policy: ReceiptPolicy, mode: ProofMode)

  function StateFor(s: Spec, digest: Bytes32, replay: Bytes32): CovenantState {
    CovenantState(ENCODING_VERSION, s.chain, s.lineage, s.asset, digest, s.policy, s.mode, replay)
  }

  // The static fields the redeem script pins.
  predicate Matches(s: Spec, x: CovenantState) {
    x == StateFor(s, x.digest, x.replay)
  }

  function Template(s: Spec): Bytes { EncodePayload(StateFor(s, ZERO32, ZERO32)) }

  lemma TemplateSlices(s: Spec)
    ensures var t := Template(s);
            && |t| == 148
            && t[0..16] == Head(StateFor(s, ZERO32, ZERO32)) && t[16..48] == s.lineage && t[48..80] == s.asset
            && t[112..116] == Modes(StateFor(s, ZERO32, ZERO32))
  {
    var x := StateFor(s, ZERO32, ZERO32);
    PayloadLayout(x);
    Pieces(Template(s), Head(x), x.lineage, x.asset, x.digest, Modes(x), x.replay);
  }

  // What the payload checks of the script compare.
  ghost predicate PayloadHolds(s: Spec, p: Bytes)
  {
    TemplateSlices(s);
    var t := Template(s);
    && |p| == 148
    && p[0..16] == t[0..16] && p[16..48] == t[16..48] && p[48..80] == t[48..80] && p[112..116] == t[112..116]
  }

  ghost predicate Encodes(s: Spec, d: Bytes32, r: Bytes32, p: Bytes) { EncodePayload(StateFor(s, d, r)) == p }

  ghost predicate EncodesSome(s: Spec, p: Bytes) { exists d: Bytes32, r: Bytes32 :: Encodes(s, d, r, p) }

  lemma EncodesIff(s: Spec, d: Bytes32, r: Bytes32, p: Bytes)
    ensures Encodes(s, d, r, p) <==> PayloadHolds(s, p) && p[80..112] == d && p[116..148] == r
  {
    var x := StateFor(s, d, r);
    TemplateSlices(s);
    PayloadLayout(x);
    Pieces(p, Head(x), x.lineage, x.asset, x.digest, Modes(x), x.replay);
    assert Head(x) == Head(StateFor(s, ZERO32, ZERO32)) && Modes(x) == Modes(StateFor(s, ZERO32, ZERO32));
  }

  // The checks accept exactly the encodings of states with the spec's static fields.
  lemma PayloadHoldsIff(s: Spec, p: Bytes)
    ensures PayloadHolds(s, p) <==> EncodesSome(s, p)
  {
    if |p| == 148 {
      var d: Bytes32, r: Bytes32 := p[80..112], p[116..148];
      EncodesIff(s, d, r, p);
    }
    if d: Bytes32, r: Bytes32 :| Encodes(s, d, r, p) {
      EncodesIff(s, d, r, p);
    }
  }

  // For a spec with non-zero lineage and asset, the checks accept a payload exactly when it
  // decodes to a state with the spec's static fields.
  lemma PayloadHoldsIffDecodes(s: Spec, p: Bytes)
    requires s.lineage != ZERO32 && s.asset != ZERO32
    ensures PayloadHolds(s, p) <==> DecodePayload(p).Some? && Matches(s, DecodePayload(p).value)
  {
    PayloadHoldsIff(s, p);
    if d: Bytes32, r: Bytes32 :| Encodes(s, d, r, p) {
      PayloadBijection(StateFor(s, d, r), p);
    }
    if DecodePayload(p).Some? && Matches(s, DecodePayload(p).value) {
      var x := DecodePayload(p).value;
      PayloadBijection(x, p);
      assert Encodes(s, x.digest, x.replay, p);
    }
  }

  // ---- runs of `advance` ----

  function AdvanceAll(s: CovenantState, moves: seq<(Bytes32, Bytes32)>): Option<CovenantState>
    decreases |moves|
  {
    if moves == [] then Some(s)
    else
      var t :- Advance(s, moves[0].0, moves[0].1);
      AdvanceAll(t, moves[1..])
  }

  function Genesis(s: Spec): CovenantState { StateFor(s, ZERO32, ZERO32) }

  // Whatever sequence of advances succeeds from genesis, the original script still accepts
  // the payload of the state it reaches.
  lemma {:induction false} AdvancesStayAccepted(s: Spec, x: CovenantState, moves: seq<(Bytes32, Bytes32)>)
    requires Matches(s, x)
    ensures AdvanceAll(x, moves).Some? ==>
              Matches(s, AdvanceAll(x, moves).value) && PayloadHolds(s, EncodePayload(AdvanceAll(x, moves).value))
    decreases |moves|
  {
    if moves == [] {
      PayloadHoldsIff(s, EncodePayload(x));
      assert Encodes(s, x.digest, x.replay, EncodePayload(x));
    } else if Advance(x, moves[0].0, moves[0].1).Some? {
      AdvancesStayAccepted(s, Advance(x, moves[0].0, moves[0].1).value, moves[1..]);
    }
  }
}
