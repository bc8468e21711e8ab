/**
 Toccata v1 transactions (rgk-tx): the hashed preimages and the transaction id.
 */
module Tx {
  import opened Bytes
  import opened Codec
  import opened Core
  import opened Hashing

  datatype ScriptKey = ScriptKey(version: u16, script: Bytes)

  datatype Binding = Binding(authorizingInput: u16, covenant: Bytes32)

  datatype Input = Input(previous: Outpoint, signature: Bytes, sequence: u64, budget: u16)

  datatype Output = Output(value: u64, key: ScriptKey, binding: Option<Binding>)

  type Subnetwork = b: Bytes | |b| == 20 witness [0, 0, 0, 0, 0, 0, 0, 0, 0, 0, 0, 0, 0, 0, 0, 0, 0, 0, 0, 0]

  datatype Transaction = Transaction(
    inputs: seq<Input>, outputs: seq<Output>, lockTime: u64, subnetwork: Subnetwork, gas: u64,
    payload: Bytes, mass: u64)

  const LENGTH_LIMIT: nat := 0x1_0000_0000_0000_0000

  // Every length fits the 64-bit word it is written as; a vector in memory always does.
  predicate Representable(t: Transaction) {
    && |t.inputs| < LENGTH_LIMIT && |t.outputs| < LENGTH_LIMIT && |t.payload| < LENGTH_LIMIT
    && (forall i :: 0 <= i < |t.inputs| ==> |t.inputs[i].signature| < LENGTH_LIMIT)
    && (forall i :: 0 <= i < |t.outputs| ==> |t.outputs[i].key.script| < LENGTH_LIMIT)
  }

  // ---- what is written ----

  // `ToccataEncodingFlags`
  datatype Flags = Flags(noSignatures: bool, noMass: bool, noPayload: bool)

  const FULL := Flags(false, false, false)
  const REST := Flags(true, true, true)

  // Integers and outpoints are written as their codecs write them; a byte string follows
  // its 64-bit length.
  function LengthCodec(): Codec<nat> { Int(8) }

  function VarCodec(): Codec<Bytes> { Blob(LengthCodec()) }

  function VarBytes(b: Bytes): Bytes { VarCodec().enc(b) }

  function WriteInput(f: Flags, i: Input): Bytes {
    OutpointCodec().enc(i.previous)
    + ((if f.noSignatures then VarBytes([]) else VarBytes(i.signature))
       + (U64().enc(i.sequence) + (if f.noMass then [] else U16().enc(i.budget))))
  }

  function WriteBinding(o: Option<Binding>): Bytes {
    match o
    case None => [0] + []
    case Some(b) => [1] + (U16().enc(b.authorizingInput) + B32().enc(b.covenant))
  }

  function WriteOutput(o: Output): Bytes {
    U64().enc(o.value) + (U16().enc(o.key.version) + (VarBytes(o.key.script) + WriteBinding(o.binding)))
  }

  function WriteEach<T>(w: T -> Bytes, s: seq<T>): Bytes {
    if s == [] then [] else WriteEach(w, s[..|s| - 1]) + w(Last(s))
  }

  function WriteInputs(f: Flags, s: seq<Input>): Bytes { WriteEach((i: Input) => WriteInput(f, i), s) }

  function WriteOutputs(s: seq<Output>): Bytes { WriteEach(WriteOutput, s) }

  function WriteTail(f: Flags, t: Transaction): Bytes {
    U64().enc(t.lockTime) + (t.subnetwork + (U64().enc(t.gas)
    + ((if f.noPayload then VarBytes([]) else VarBytes(t.payload)) + (if f.noMass then [] else U64().enc(t.mass)))))
  }

  // `write_transaction`: the version, then each list behind its length, then the tail.
  function WriteTransaction(f: Flags, t: Transaction): Bytes {
    [1, 0] + ((Int(8).enc(|t.inputs|) + WriteInputs(f, t.inputs))
              + ((Int(8).enc(|t.outputs|) + WriteOutputs(t.outputs)) + WriteTail(f, t)))
  }

  method WriteTransactionBytes(f: Flags, t: Transaction) returns (out: Bytes)
    ensures out == WriteTransaction(f, t)
  {
    var ins := WriteEachBytes((i: Input) => WriteInput(f, i), t.inputs);
    var outs := WriteEachBytes(WriteOutput, t.outputs);
    out := [1, 0] + ((Int(8).enc(|t.inputs|) + ins) + ((Int(8).enc(|t.outputs|) + outs) + WriteTail(f, t)));
  }

  method WriteEachBytes<T>(w: T -> Bytes, s: seq<T>) returns (out: Bytes)
    ensures out == WriteEach(w, s)
  {
    out := [];
    for i := 0 to |s|
      invariant out == WriteEach(w, s[..i])
    {
      assert s[..i + 1][..i] == s[..i];
      out := out + w(s[i]);
    }
    assert s[..|s|] == s;
  }

  // ---- what is committed ----

  // The part of a transaction that survives the flags.
  function ViewInput(f: Flags, i: Input): Input {
    Input(i.previous, if f.noSignatures then [] else i.signature, i.sequence, if f.noMass then 0 else i.budget)
  }

  function View(f: Flags, t: Transaction): Transaction {
    Transaction(ViewEach((i: Input) => ViewInput(f, i), t.inputs), t.outputs,
                t.lockTime, t.subnetwork, t.gas, if f.noPayload then [] else t.payload, if f.noMass then 0 else t.mass)
  }

  // A decoder for the preimage; the repository has none, and its existence is what makes
  // the preimage unambiguous.
  type InputFields = (Outpoint, (Bytes, (u64, u16)))

  function ZeroBudget(x: ()): u16 { 0 }
  function NoBudget(b: u16): () { () }
  function ZeroMass(x: ()): u64 { 0 }
  function NoMass(b: u64): () { () }

  function BudgetCodec(noMass: bool): Codec<u16> {
    if noMass then Iso<(), u16>(Magic([]), ZeroBudget, NoBudget) else U16()
  }

  function InputCodec(noMass: bool): Codec<Input> {
    Iso(Pair(OutpointCodec(), Pair(VarCodec(), Pair(U64(), BudgetCodec(noMass)))), ToInput, FromInput)
  }

  function ToInput(p: InputFields): Input { Input(p.0, p.1.0, p.1.1.0, p.1.1.1) }
  function FromInput(i: Input): InputFields { (i.previous, (i.signature, (i.sequence, i.budget))) }

  function BindingCodec(): Codec<Binding> {
    Iso(Pair(U16(), B32()), (p: (u16, Bytes32)) => Binding(p.0, p.1), (b: Binding) => (b.authorizingInput, b.covenant))
  }

  type OutputFields = (u64, (u16, (Bytes, Option<Binding>)))

  function OutputCodec(): Codec<Output> {
    Iso(Pair(U64(), Pair(U16(), Pair(VarCodec(), Presence(StrictBool(), BindingCodec())))), ToOutput, FromOutput)
  }

  function ToOutput(p: OutputFields): Output { Output(p.0, ScriptKey(p.1.0, p.1.1.0), p.1.1.1) }
  function FromOutput(o: Output): OutputFields { (o.value, (o.key.version, (o.key.script, o.binding))) }

  type TxTail = (u64, (Bytes, (u64, (Bytes, u64))))
  type TxFields = (seq<Input>, (seq<Output>, TxTail))

  function MassCodec(noMass: bool): Codec<u64> {
    if noMass then Iso<(), u64>(Magic([]), ZeroMass, NoMass) else U64()
  }

  function TailCodec(noMass: bool): Codec<TxTail> {
    Pair(U64(), Pair(Take(20), Pair(U64(), Pair(VarCodec(), MassCodec(noMass)))))
  }

  function TxLayout(noMass: bool): Codec<TxFields> {
    Pair(Counted(LengthCodec(), InputCodec(noMass)), Pair(Counted(LengthCodec(), OutputCodec()), TailCodec(noMass)))
  }

  function TxCodec(noMass: bool): Codec<TxFields> { Prefixed([1, 0], TxLayout(noMass)) }

  function Fields(t: Transaction): TxFields {
    (t.inputs, (t.outputs, (t.lockTime, (t.subnetwork, (t.gas, (t.payload, t.mass))))))
  }

  // ---- laws of the decoder ----

  lemma LengthLawful()
    ensures Lawful(LengthCodec())
    ensures forall n: nat :: n < LENGTH_LIMIT ==> LengthCodec().ok(n)
  {
    IntLawful(8);
    Pow256Values();
  }

  lemma VarLawful()
    ensures Lawful(VarCodec())
  {
    LengthLawful();
    BlobLawful(LengthCodec());
  }

  lemma VarOk(b: Bytes)
    requires |b| < LENGTH_LIMIT
    ensures VarCodec().ok(b)
  {
    LengthLawful();
    assert LengthCodec().ok(|b|);
  }

  lemma BudgetLaws(noMass: bool)
    ensures Lawful(BudgetCodec(noMass))
    ensures forall b: u16 :: (noMass ==> b == 0) ==> BudgetCodec(noMass).ok(b)
    ensures forall b: u16 :: BudgetCodec(noMass).enc(b) == if noMass then [] else U16().enc(b)
  {
    if noMass {
      MagicLawful([]);
      forall x: () ensures NoBudget(ZeroBudget(x)) == x {}
      IsoLawful<(), u16>(Magic([]), ZeroBudget, NoBudget);
      forall b: u16 | b == 0 ensures BudgetCodec(true).ok(b) { assert ZeroBudget(NoBudget(b)) == b; }
    } else {
      U16Lawful();
    }
  }

  lemma MassLaws(noMass: bool)
    ensures Lawful(MassCodec(noMass))
    ensures forall b: u64 :: (noMass ==> b == 0) ==> MassCodec(noMass).ok(b)
    ensures forall b: u64 :: MassCodec(noMass).enc(b) == if noMass then [] else U64().enc(b)
  {
    if noMass {
      MagicLawful([]);
      forall x: () ensures NoMass(ZeroMass(x)) == x {}
      IsoLawful<(), u64>(Magic([]), ZeroMass, NoMass);
      forall b: u64 | b == 0 ensures MassCodec(true).ok(b) { assert ZeroMass(NoMass(b)) == b; }
    } else {
      U64Lawful();
    }
  }

  lemma InputLawful(noMass: bool)
    ensures Lawful(InputCodec(noMass))
  {
    var c1 := Pair(U64(), BudgetCodec(noMass));
    var c2 := Pair(VarCodec(), c1);
    assert Lawful(c1) by { U64Lawful(); BudgetLaws(noMass); PairLawful(U64(), BudgetCodec(noMass)); }
    assert Lawful(c2) by { VarLawful(); PairLawful(VarCodec(), c1); }
    assert Lawful(Pair(OutpointCodec(), c2)) by { OutpointField(); PairLawful(OutpointCodec(), c2); }
    IsoLawful(Pair(OutpointCodec(), c2), ToInput, FromInput);
  }

  lemma AssembleFour<A, B, C, D, V>(a: Codec<A>, b: Codec<B>, c: Codec<C>, d: Codec<D>, to: ((A, (B, (C, D)))) -> V,
                                    from: V -> (A, (B, (C, D))), v: V)
    ensures var p := Iso(Pair(a, Pair(b, Pair(c, d))), to, from);
            var x := from(v);
            && p.enc(v) == a.enc(x.0) + (b.enc(x.1.0) + (c.enc(x.1.1.0) + d.enc(x.1.1.1)))
            && (p.ok(v) <==> a.ok(x.0) && b.ok(x.1.0) && c.ok(x.1.1.0) && d.ok(x.1.1.1) && to(x) == v)
  {
  }

  // The codec encodes the visible part of an input to exactly what is written.
  lemma InputWritten(f: Flags, i: Input)
    requires |i.signature| < LENGTH_LIMIT
    ensures InputCodec(f.noMass).ok(ViewInput(f, i))
    ensures InputCodec(f.noMass).enc(ViewInput(f, i)) == WriteInput(f, i)
  {
    var v := ViewInput(f, i);
    AssembleFour(OutpointCodec(), VarCodec(), U64(), BudgetCodec(f.noMass), ToInput, FromInput, v);
    assert VarCodec().ok(v.signature) by { VarOk(v.signature); }
    assert BudgetCodec(f.noMass).ok(v.budget)
           && BudgetCodec(f.noMass).enc(v.budget) == if f.noMass then [] else U16().enc(v.budget) by { BudgetLaws(f.noMass); }
    assert U64().ok(v.sequence) by { U64Lawful(); }
    assert OutpointCodec().ok(v.previous) by { OutpointField(); }
    assert VarCodec().enc(v.signature) == VarBytes(v.signature);
  }

  lemma BindingLaws()
    ensures Lawful(Presence(StrictBool(), BindingCodec())) && Total(Presence(StrictBool(), BindingCodec()))
  {
    assert Lawful(BindingCodec()) && Total(BindingCodec()) by {
      PrimitiveFields();
      FieldPair(U16(), 2, B32(), 32);
      FieldIso(Pair(U16(), B32()), 34, (p: (u16, Bytes32)) => Binding(p.0, p.1),
               (b: Binding) => (b.authorizingInput, b.covenant));
    }
    StrictBoolLawful();
    PresenceLawful(StrictBool(), BindingCodec());
  }

  lemma OutputLawful()
    ensures Lawful(OutputCodec())
  {
    var c1 := Pair(VarCodec(), Presence(StrictBool(), BindingCodec()));
    var c2 := Pair(U16(), c1);
    assert Lawful(c1) by { VarLawful(); BindingLaws(); PairLawful(VarCodec(), Presence(StrictBool(), BindingCodec())); }
    assert Lawful(c2) by { U16Lawful(); PairLawful(U16(), c1); }
    assert Lawful(Pair(U64(), c2)) by { U64Lawful(); PairLawful(U64(), c2); }
    IsoLawful(Pair(U64(), c2), ToOutput, FromOutput);
  }

  lemma BindingWritten(b: Option<Binding>)
    ensures Presence(StrictBool(), BindingCodec()).enc(b) == WriteBinding(b)
  {
  }

  lemma OutputWritten(o: Output)
    requires |o.key.script| < LENGTH_LIMIT
    ensures OutputCodec().ok(o) && OutputCodec().enc(o) == WriteOutput(o)
  {
    var c := Presence(StrictBool(), BindingCodec());
    AssembleFour(U64(), U16(), VarCodec(), c, ToOutput, FromOutput, o);
    assert VarCodec().ok(o.key.script) by { VarOk(o.key.script); }
    assert c.ok(o.binding) by { BindingLaws(); }
    assert U64().ok(o.value) && U16().ok(o.key.version) by { U64Lawful(); U16Lawful(); }
    BindingWritten(o.binding);
    assert VarCodec().enc(o.key.script) == VarBytes(o.key.script);
  }

  function ViewEach<T, V>(view: T -> V, s: seq<T>): (v: seq<V>)
    ensures |v| == |s|
    ensures forall i :: 0 <= i < |s| ==> v[i] == view(s[i])
  {
    seq(|s|, i requires 0 <= i < |s| => view(s[i]))
  }

  // Writing each item is encoding the list of their visible parts.
  lemma {:induction false} EachWritten<T, V>(c: Codec<V>, view: T -> V, w: T -> Bytes, s: seq<T>)
    requires forall i :: 0 <= i < |s| ==> c.ok(view(s[i])) && c.enc(view(s[i])) == w(s[i])
    ensures OkEach(c, ViewEach(view, s)) && EncEach(c, ViewEach(view, s)) == WriteEach(w, s)
  {
    if s != [] {
      var t := s[..|s| - 1];
      EachWritten(c, view, w, t);
      assert ViewEach(view, s) == ViewEach(view, t) + [view(Last(s))];
      EncEachSnoc(c, ViewEach(view, t), view(Last(s)));
    }
  }

  lemma TailLawful(noMass: bool)
    ensures Lawful(TailCodec(noMass))
  {
    var c1 := Pair(VarCodec(), MassCodec(noMass));
    var c2 := Pair(U64(), c1);
    var c3 := Pair(Take(20), c2);
    assert Lawful(c1) by { VarLawful(); MassLaws(noMass); PairLawful(VarCodec(), MassCodec(noMass)); }
    assert Lawful(c2) by { U64Lawful(); PairLawful(U64(), c1); }
    assert Lawful(c3) by { TakeLawful(20); PairLawful(Take(20), c2); }
    U64Lawful();
    PairLawful(U64(), c3);
  }

  lemma TxLawful(noMass: bool)
    ensures Lawful(TxCodec(noMass))
    ensures forall x: TxFields :: TxCodec(noMass).ok(x) <==> TxLayout(noMass).ok(x)
    ensures forall x: TxFields :: TxCodec(noMass).enc(x) == [1, 0] + TxLayout(noMass).enc(x)
  {
    var ins := Counted(LengthCodec(), InputCodec(noMass));
    var outs := Counted(LengthCodec(), OutputCodec());
    assert Lawful(ins) by { IntLawful(8); InputLawful(noMass); CountedLawful(LengthCodec(), InputCodec(noMass)); }
    assert Lawful(outs) by { IntLawful(8); OutputLawful(); CountedLawful(LengthCodec(), OutputCodec()); }
    assert Lawful(TailCodec(noMass)) by { TailLawful(noMass); }
    assert Lawful(Pair(outs, TailCodec(noMass))) by { PairLawful(outs, TailCodec(noMass)); }
    assert Lawful(TxLayout(noMass)) by { PairLawful(ins, Pair(outs, TailCodec(noMass))); }
    PrefixedLawful([1, 0], TxLayout(noMass));
  }

  lemma CountedWritten<T>(c: Codec<T>, s: seq<T>, e: Bytes)
    requires |s| < LENGTH_LIMIT && OkEach(c, s) && EncEach(c, s) == e
    ensures Counted(LengthCodec(), c).ok(s) && Counted(LengthCodec(), c).enc(s) == Int(8).enc(|s|) + e
  {
    LengthLawful();
    assert LengthCodec().ok(|s|);
  }

  lemma TailWritten(f: Flags, t: Transaction)
    requires |t.payload| < LENGTH_LIMIT
    ensures TailCodec(f.noMass).ok(Fields(View(f, t)).1.1)
    ensures TailCodec(f.noMass).enc(Fields(View(f, t)).1.1) == WriteTail(f, t)
  {
    var v := View(f, t);
    VarOk(v.payload);
    assert MassCodec(f.noMass).ok(v.mass)
           && MassCodec(f.noMass).enc(v.mass) == if f.noMass then [] else U64().enc(v.mass) by { MassLaws(f.noMass); }
    assert U64().ok(v.lockTime) && U64().ok(v.gas) by { U64Lawful(); }
    AssembleFive(U64(), Take(20), U64(), VarCodec(), MassCodec(f.noMass), Fields(v).1.1);
  }

  lemma AssembleFive<A, B, C, D, E>(a: Codec<A>, b: Codec<B>, c: Codec<C>, d: Codec<D>, e: Codec<E>,
                                    x: (A, (B, (C, (D, E)))))
    ensures var p := Pair(a, Pair(b, Pair(c, Pair(d, e))));
            && p.enc(x) == a.enc(x.0) + (b.enc(x.1.0) + (c.enc(x.1.1.0) + (d.enc(x.1.1.1.0) + e.enc(x.1.1.1.1))))
            && (p.ok(x) <==> a.ok(x.0) && b.ok(x.1.0) && c.ok(x.1.1.0) && d.ok(x.1.1.1.0) && e.ok(x.1.1.1.1))
  {
  }

  predicate WrittenAt<T, V>(c: Codec<V>, view: T -> V, w: T -> Bytes, s: seq<T>, i: nat) {
    i < |s| ==> c.ok(view(s[i])) && c.enc(view(s[i])) == w(s[i])
  }

  lemma ListWritten<T, V>(c: Codec<V>, view: T -> V, w: T -> Bytes, s: seq<T>)
    requires |s| < LENGTH_LIMIT
    requires forall i: nat :: WrittenAt(c, view, w, s, i)
    ensures var list := Counted(LengthCodec(), c);
            list.ok(ViewEach(view, s)) && list.enc(ViewEach(view, s)) == Int(8).enc(|s|) + WriteEach(w, s)
  {
    forall i | 0 <= i < |s| ensures c.ok(view(s[i])) && c.enc(view(s[i])) == w(s[i]) {
      assert WrittenAt(c, view, w, s, i);
    }
    EachWritten(c, view, w, s);
    CountedWritten(c, ViewEach(view, s), WriteEach(w, s));
  }

  lemma InputsWritten(f: Flags, t: Transaction)
    requires Representable(t)
    ensures var ins := Counted(LengthCodec(), InputCodec(f.noMass));
            var v := View(f, t);
            ins.ok(v.inputs) && ins.enc(v.inputs) == Int(8).enc(|t.inputs|) + WriteInputs(f, t.inputs)
  {
    var view, w := (i: Input) => ViewInput(f, i), (i: Input) => WriteInput(f, i);
    forall i: nat ensures WrittenAt(InputCodec(f.noMass), view, w, t.inputs, i) {
      if i < |t.inputs| { InputWritten(f, t.inputs[i]); }
    }
    ListWritten(InputCodec(f.noMass), view, w, t.inputs);
  }

  predicate PlainAt<T>(c: Codec<T>, w: T -> Bytes, s: seq<T>, i: nat) {
    i < |s| ==> c.ok(s[i]) && c.enc(s[i]) == w(s[i])
  }

  lemma PlainListWritten<T>(c: Codec<T>, w: T -> Bytes, s: seq<T>)
    requires |s| < LENGTH_LIMIT
    requires forall i: nat :: PlainAt(c, w, s, i)
    ensures var list := Counted(LengthCodec(), c);
            list.ok(s) && list.enc(s) == Int(8).enc(|s|) + WriteEach(w, s)
  {
    var same := (x: T) => x;
    forall i: nat ensures WrittenAt(c, same, w, s, i) { assert PlainAt(c, w, s, i); }
    ListWritten(c, same, w, s);
    assert ViewEach(same, s) == s;
  }

  lemma OutputsWritten(t: Transaction)
    requires Representable(t)
    ensures var outs := Counted(LengthCodec(), OutputCodec());
            outs.ok(t.outputs) && outs.enc(t.outputs) == Int(8).enc(|t.outputs|) + WriteOutputs(t.outputs)
  {
    forall i: nat ensures PlainAt(OutputCodec(), WriteOutput, t.outputs, i) {
      if i < |t.outputs| { OutputWritten(t.outputs[i]); }
    }
    PlainListWritten(OutputCodec(), WriteOutput, t.outputs);
  }

  // What is written is the codec's encoding of the visible part.
  lemma TransactionWritten(f: Flags, t: Transaction)
    requires Representable(t)
    ensures TxCodec(f.noMass).ok(Fields(View(f, t)))
    ensures TxCodec(f.noMass).enc(Fields(View(f, t))) == WriteTransaction(f, t)
  {
    InputsWritten(f, t);
    OutputsWritten(t);
    TailWritten(f, t);
    AssemblePrefixed(Counted(LengthCodec(), InputCodec(f.noMass)), Counted(LengthCodec(), OutputCodec()),
                     TailCodec(f.noMass), Fields(View(f, t)));
  }

  lemma AssemblePrefixed<A(!new), B(!new), C(!new)>(a: Codec<A>, b: Codec<B>, c: Codec<C>, x: (A, (B, C)))
    ensures var d := Prefixed([1, 0], Pair(a, Pair(b, c)));
            && d.enc(x) == [1, 0] + (a.enc(x.0) + (b.enc(x.1.0) + c.enc(x.1.1)))
            && (d.ok(x) <==> a.ok(x.0) && b.ok(x.1.0) && c.ok(x.1.1))
  {
  }

  lemma ViewEqual(f: Flags, s: Transaction, t: Transaction)
    ensures Fields(View(f, s)) == Fields(View(f, t)) <==> View(f, s) == View(f, t)
  {
  }

  lemma SameEncodingIff<T(!new)>(c: Codec<T>, x: T, ex: Bytes, y: T, ey: Bytes)
    requires RoundTrips(c) && c.ok(x) && c.ok(y) && c.enc(x) == ex && c.enc(y) == ey
    ensures ex == ey <==> x == y
  {
    if ex == ey { Injective(c, x, y); }
  }

  ghost predicate Encodes(c: Codec<TxFields>, f: Flags, t: Transaction) {
    c.ok(Fields(View(f, t))) && c.enc(Fields(View(f, t))) == WriteTransaction(f, t)
  }

  // A decoder that tells the two transactions apart.
  lemma SomeDecoder(f: Flags, s: Transaction, t: Transaction) returns (c: Codec<TxFields>)
    requires Representable(s) && Representable(t)
    ensures RoundTrips(c) && Encodes(c, f, s) && Encodes(c, f, t)
  {
    c := TxCodec(f.noMass);
    assert RoundTrips(c) by { TxLawful(f.noMass); }
    assert Encodes(c, f, s) by { TransactionWritten(f, s); }
    assert Encodes(c, f, t) by { TransactionWritten(f, t); }
  }

  lemma PreimageIffFor(c: Codec<TxFields>, f: Flags, s: Transaction, t: Transaction)
    requires RoundTrips(c) && Encodes(c, f, s) && Encodes(c, f, t)
    ensures WriteTransaction(f, s) == WriteTransaction(f, t) <==> View(f, s) == View(f, t)
  {
    SameEncodingIff(c, Fields(View(f, s)), WriteTransaction(f, s), Fields(View(f, t)), WriteTransaction(f, t));
    ViewEqual(f, s, t);
  }

  // Two transactions have the same preimage exactly when they agree on everything the
  // flags leave in.
  lemma PreimageIffView(f: Flags, s: Transaction, t: Transaction)
    requires Representable(s) && Representable(t)
    ensures WriteTransaction(f, s) == WriteTransaction(f, t) <==> View(f, s) == View(f, t)
  {
    var c := SomeDecoder(f, s, t);
    PreimageIffFor(c, f, s, t);
  }

  // With nothing left out, the preimage determines the transaction.
  lemma FullPreimageIff(s: Transaction, t: Transaction)
    requires Representable(s) && Representable(t)
    ensures WriteTransaction(FULL, s) == WriteTransaction(FULL, t) <==> s == t
  {
    PreimageIffView(FULL, s, t);
    FullView(s);
    FullView(t);
  }

  lemma FullView(t: Transaction)
    ensures View(FULL, t) == t
  {
    assert View(FULL, t).inputs == t.inputs;
  }

  // ---- transaction ids ----

  // Agreement on everything but payload, signature scripts, compute budgets and mass.
  predicate SameRest(s: Transaction, t: Transaction) {
    && |s.inputs| == |t.inputs|
    && (forall i :: 0 <= i < |s.inputs| ==>
          s.inputs[i].previous == t.inputs[i].previous && s.inputs[i].sequence == t.inputs[i].sequence)
    && s.outputs == t.outputs && s.lockTime == t.lockTime && s.subnetwork == t.subnetwork && s.gas == t.gas
  }

  lemma RestView(s: Transaction, t: Transaction)
    ensures View(REST, s) == View(REST, t) <==> SameRest(s, t)
  {
    var v, w := View(REST, s).inputs, View(REST, t).inputs;
    if v == w {
      assert |s.inputs| == |v| == |w| == |t.inputs|;
      forall i | 0 <= i < |s.inputs|
        ensures s.inputs[i].previous == t.inputs[i].previous && s.inputs[i].sequence == t.inputs[i].sequence
      {
        assert v[i] == ViewInput(REST, s.inputs[i]) && w[i] == ViewInput(REST, t.inputs[i]);
      }
    }
    if SameRest(s, t) {
      forall i | 0 <= i < |v| ensures v[i] == w[i] {
        assert v[i] == ViewInput(REST, s.inputs[i]) && w[i] == ViewInput(REST, t.inputs[i]);
      }
    }
  }

  function RestPreimage(t: Transaction): Bytes { WriteTransaction(REST, t) }

  // The rest preimage commits to exactly the rest of the transaction.
  lemma RestPreimageIff(s: Transaction, t: Transaction)
    requires Representable(s) && Representable(t)
    ensures RestPreimage(s) == RestPreimage(t) <==> SameRest(s, t)
  {
    PreimageIffView(REST, s, t);
    RestView(s, t);
  }

  // The three keyed hashers behind a transaction id.
  datatype TxHashes = TxHashes(payload: Hash, rest: Hash, id: Hash)

  function IdPreimage(h: TxHashes, t: Transaction): Bytes {
    h.payload(t.payload) + h.rest(RestPreimage(t))
  }

  function TxId(h: TxHashes, t: Transaction): Bytes32 { h.id(IdPreimage(h, t)) }

  // Transaction ids agree exactly when the rest and the payload do, barring collisions
  // between the preimages of these two transactions.
  lemma TxIdIff(h: TxHashes, s: Transaction, t: Transaction)
    requires Representable(s) && Representable(t)
    requires CollisionFree(h.payload, {s.payload, t.payload})
    requires CollisionFree(h.rest, {RestPreimage(s), RestPreimage(t)})
    requires CollisionFree(h.id, {IdPreimage(h, s), IdPreimage(h, t)})
    ensures TxId(h, s) == TxId(h, t) <==> SameRest(s, t) && s.payload == t.payload
  {
    RestPreimageIff(s, t);
    IdSplits(h, RestPreimage(s), s.payload, RestPreimage(t), t.payload);
  }

  lemma IdSplits(h: TxHashes, r: Bytes, p: Bytes, r': Bytes, p': Bytes)
    requires CollisionFree(h.payload, {p, p'}) && CollisionFree(h.rest, {r, r'})
    ensures h.payload(p) + h.rest(r) == h.payload(p') + h.rest(r') <==> p == p' && r == r'
  {
    if h.payload(p) + h.rest(r) == h.payload(p') + h.rest(r') {
      assert (h.payload(p) + h.rest(r))[..32] == h.payload(p) && (h.payload(p') + h.rest(r'))[..32] == h.payload(p');
      assert (h.payload(p) + h.rest(r))[32..] == h.rest(r) && (h.payload(p') + h.rest(r'))[32..] == h.rest(r');
    }
  }
}
