/**
 The persistent record of an indexed covenant: `encode_indexed_covenant` and
 `decode_indexed_covenant`, with both record versions the decoder reads.
 */
module LedgerRecord {
  import opened Bytes
  import opened Codec
  import opened Core
  import opened Ledger
  import opened LedgerRuns

  // ---- layout ----

  function ToContinuation(p: (Bytes32, (Bytes32, Bytes32))): ContinuationProof {
    ContinuationProof(p.0, p.1.0, p.1.1)
  }

  function FromContinuation(c: ContinuationProof): (Bytes32, (Bytes32, Bytes32)) {
    (c.commitment, (c.shapeRoot, c.transitionDigest))
  }

  function ContinuationCodec(): Codec<ContinuationProof> {
    Iso(Pair(B32(), Pair(B32(), B32())), ToContinuation, FromContinuation)
  }

  type MigrationFields = (ReceiptPolicy, (ReceiptPolicy, (Bytes32, (Bytes32, (Bytes32, (Bytes32, Bytes32))))))

  function ToMigration(p: MigrationFields): MigrationProof {
    MigrationProof(p.0, p.1.0, p.1.1.0, p.1.1.1.0, p.1.1.1.1.0, p.1.1.1.1.1.0, p.1.1.1.1.1.1)
  }

  function FromMigration(m: MigrationProof): MigrationFields {
    (m.previousPolicy, (m.newPolicy, (m.previousDigest, (m.newDigest, (m.transitionDigest,
      (m.authorization, m.commitment))))))
  }

  function FiveDigests(): Codec<(Bytes32, (Bytes32, (Bytes32, (Bytes32, Bytes32))))> {
    Pair(B32(), Pair(B32(), Pair(B32(), Pair(B32(), B32()))))
  }

  function MigrationCodec(): Codec<MigrationProof> {
    Iso(Pair(Policy(), Pair(Policy(), FiveDigests())), ToMigration, FromMigration)
  }

  function ToCertificate(p: (Bytes32, Bytes)): Certificate { Certificate(p.0, p.1) }

  function FromCertificate(c: Certificate): (Bytes32, Bytes) { (c.id, c.bytes) }

  function CertificateCodec(): Codec<Certificate> {
    Iso(Pair(B32(), Blob(BlobLength())), ToCertificate, FromCertificate)
  }

  // The layout takes its presence bytes from `flag`. Version 3 records have a certificate field,
  // version 2 records have none.
  function CertificateField(flag: Codec<bool>, v3: bool): Codec<Option<Certificate>> {
    if v3 then Presence(flag, CertificateCodec()) else OptionBody(CertificateCodec(), false)
  }

  type HeadFields = (u64, (Outpoint, (Outpoint, (Bytes32, (Bytes32, (ReceiptPolicy, (ReceiptPolicy, Bytes32)))))))
  type SpendFields =
    (HeadFields, (Option<ContinuationProof>, (Option<MigrationProof>, Option<Certificate>)))

  function HeadCodec(): Codec<HeadFields> {
    Pair(U64(), Pair(OutpointCodec(), Pair(OutpointCodec(),
      Pair(B32(), Pair(B32(), Pair(Policy(), Pair(Policy(), B32())))))))
  }

  function ToSpend(p: SpendFields): Spend {
    var h := p.0;
    Spend(h.0, h.1.0, h.1.1.0, h.1.1.1.0, h.1.1.1.1.0, h.1.1.1.1.1.0, h.1.1.1.1.1.1.0, h.1.1.1.1.1.1.1,
          p.1.0, p.1.1.0, p.1.1.1)
  }

  function FromSpend(s: Spend): SpendFields {
    ((s.daa, (s.spent, (s.created, (s.previousDigest, (s.resultingDigest, (s.previousPolicy, (s.newPolicy, s.receipt))))))),
     (s.continuation, (s.migration, s.certificate)))
  }

  function ProofsCodec(flag: Codec<bool>, v3: bool)
    : Codec<(Option<ContinuationProof>, (Option<MigrationProof>, Option<Certificate>))>
  {
    Pair(Presence(flag, ContinuationCodec()), Pair(Presence(flag, MigrationCodec()), CertificateField(flag, v3)))
  }

  function SpendCodec(flag: Codec<bool>, v3: bool): Codec<Spend> {
    Iso(Pair(HeadCodec(), ProofsCodec(flag, v3)), ToSpend, FromSpend)
  }

  type EntryFields =
    (Bytes32, (Bytes32, (ChainId, (Option<Outpoint>, (StateCommitment, (seq<Bytes32>, (seq<Spend>, u64)))))))

  function ToEntry(p: EntryFields): Entry {
    Entry(p.0, p.1.0, p.1.1.0, p.1.1.1.0, p.1.1.1.1.0, p.1.1.1.1.1.0, p.1.1.1.1.1.1.0, p.1.1.1.1.1.1.1)
  }

  function FromEntry(e: Entry): EntryFields {
    (e.covenant, (e.lineage, (e.chain, (e.open, (e.latest, (e.receipts, (e.history, e.lastDaa)))))))
  }

  function ListsCodec(flag: Codec<bool>, v3: bool): Codec<(seq<Bytes32>, (seq<Spend>, u64))> {
    Pair(Counted(Int(4), B32()), Pair(Counted(Int(4), SpendCodec(flag, v3)), U64()))
  }

  function EntryLayout(flag: Codec<bool>, v3: bool): Codec<EntryFields> {
    Pair(B32(), Pair(B32(), Pair(Chain(), Pair(Presence(flag, OutpointCodec()),
      Pair(RawCommitment(), ListsCodec(flag, v3))))))
  }

  function EntryCodec(flag: Codec<bool>, v3: bool): Codec<Entry> {
    Iso(EntryLayout(flag, v3), ToEntry, FromEntry)
  }

  // The layout as the source reads it: any non-zero presence byte means present.
  function RawEntry(v3: bool): Codec<Entry> { EntryCodec(LaxBool(), v3) }

  // The same layout with presence bytes that must be 0 or 1.
  function StrictEntry(v3: bool): Codec<Entry> { EntryCodec(StrictBool(), v3) }

  // ---- what the decoder insists on ----

  predicate Storable(seal: Seal, e: Entry) {
    && ValidCommitment(e.latest)
    && Keyed(e)
    && forall i :: 0 <= i < |e.history| ==> ProvenSpend(seal, e.history[i])
  }

  const MAGIC_V3: Bytes := [0x72, 0x67, 0x6b, 0x69, 0x64, 0x78, 0x33, 0]
  const MAGIC_V2: Bytes := [0x72, 0x67, 0x6b, 0x69, 0x64, 0x78, 0x32, 0]

  // Encoding fails only on an invalid certificate.
  function EncodeEntry(e: Entry): Option<Bytes> {
    if exists i :: 0 <= i < |e.history| && e.history[i].certificate.Some?
                   && !ValidCertificate(e.history[i].certificate.value)
    then None
    else Some(MAGIC_V3 + RawEntry(true).enc(e))
  }

  function DecodeBody(seal: Seal, v3: bool, s: Bytes): Option<Entry> {
    match DecodeAll(RawEntry(v3), s)
    case None => None
    case Some(e) => if Storable(seal, e) then Some(e) else None
  }

  function DecodeEntry(seal: Seal, s: Bytes): Option<Entry> {
    if |s| < 8 then None
    else if s[..8] == MAGIC_V3 then DecodeBody(seal, true, s[8..])
    else if s[..8] == MAGIC_V2 then DecodeBody(seal, false, s[8..])
    else None
  }

  // ---- round trips of the layout ----

  lemma {:induction false} ProofFields()
    ensures Field(ContinuationCodec(), 96) && Field(MigrationCodec(), 164)
  {
    PrimitiveFields();
    PolicyField();
    FieldPair(B32(), 32, B32(), 32);
    FieldPair(B32(), 32, Pair(B32(), B32()), 64);
    FieldIso(Pair(B32(), Pair(B32(), B32())), 96, ToContinuation, FromContinuation);
    FieldPair(B32(), 32, Pair(B32(), Pair(B32(), B32())), 96);
    FieldPair(B32(), 32, Pair(B32(), Pair(B32(), Pair(B32(), B32()))), 128);
    FieldPair(Policy(), 2, FiveDigests(), 160);
    FieldPair(Policy(), 2, Pair(Policy(), FiveDigests()), 162);
    FieldIso(Pair(Policy(), Pair(Policy(), FiveDigests())), 164, ToMigration, FromMigration);
  }

  lemma {:induction false} HeadField()
    ensures Field(HeadCodec(), 180)
  {
    PrimitiveFields();
    PolicyField();
    OutpointField();
    FieldPair(Policy(), 2, B32(), 32);
    FieldPair(Policy(), 2, Pair(Policy(), B32()), 34);
    var c4 := Pair(Policy(), Pair(Policy(), B32()));
    FieldPair(B32(), 32, c4, 36);
    FieldPair(B32(), 32, Pair(B32(), c4), 68);
    var c2 := Pair(B32(), Pair(B32(), c4));
    FieldPair(OutpointCodec(), 36, c2, 100);
    FieldPair(OutpointCodec(), 36, Pair(OutpointCodec(), c2), 136);
    FieldPair(U64(), 8, Pair(OutpointCodec(), Pair(OutpointCodec(), c2)), 172);
  }

  lemma {:induction false} BlobLengthLaws()
    ensures Lawful(BlobLength())
    ensures forall n: nat :: BlobLength().ok(n) <==> n <= MAX_BLOB_BYTES
  {
    IntLawful(4);
    RefineLawful(Int(4), FitsBlob);
    Pow256Values();
    forall n: nat ensures BlobLength().ok(n) <==> n <= MAX_BLOB_BYTES {
      assert n <= MAX_BLOB_BYTES ==> Int(4).ok(n);
      assert BlobLength().ok(n) <==> Int(4).ok(n) && FitsBlob(n);
    }
  }

  lemma {:induction false} CertificateLawful()
    ensures Lawful(CertificateCodec())
  {
    assert Lawful(Blob(BlobLength())) by { BlobLengthLaws(); BlobLawful(BlobLength()); }
    assert Lawful(Pair(B32(), Blob(BlobLength()))) by { B32Lawful(); PairLawful(B32(), Blob(BlobLength())); }
    IsoLawful(Pair(B32(), Blob(BlobLength())), ToCertificate, FromCertificate);
  }

  lemma {:induction false} CertificateOk(c: Certificate)
    ensures CertificateCodec().ok(c) <==> |c.bytes| <= MAX_BLOB_BYTES
  {
    assert B32().ok(c.id) by { B32Lawful(); }
    assert Blob(BlobLength()).ok(c.bytes) <==> |c.bytes| <= MAX_BLOB_BYTES by {
      BlobLengthLaws();
      BlobOk(BlobLength(), c.bytes);
    }
    PairOk(B32(), Blob(BlobLength()), (c.id, c.bytes));
    IsoOk(Pair(B32(), Blob(BlobLength())), ToCertificate, FromCertificate, c);
  }

  // Each layer of the lax layout relaxes the same layer of the strict one.
  lemma {:induction false} LaxPresence<T(!new)>(c: Codec<T>)
    requires Lawful(c)
    ensures Relaxes(Presence(LaxBool(), c), Presence(StrictBool(), c))
  {
    LaxBoolRelaxes();
    RelaxesItself(c);
    PresenceRelaxes(LaxBool(), StrictBool(), c, c);
  }

  lemma {:induction false} CertificateFieldRelaxes(v3: bool)
    ensures Relaxes(CertificateField(LaxBool(), v3), CertificateField(StrictBool(), v3))
  {
    CertificateLawful();
    if v3 {
      LaxPresence(CertificateCodec());
    } else {
      OptionBodyLawful(CertificateCodec(), false);
      RelaxesItself(OptionBody(CertificateCodec(), false));
    }
  }

  lemma {:induction false} CertificateFieldOk(v3: bool, o: Option<Certificate>)
    ensures CertificateField(LaxBool(), v3).ok(o) <==> o.None? || (v3 && |o.value.bytes| <= MAX_BLOB_BYTES)
  {
    if o.Some? { CertificateOk(o.value); }
    PresenceOk(LaxBool(), CertificateCodec(), o);
  }

  lemma {:induction false} PresentOk<T(!new)>(c: Codec<T>, o: Option<T>)
    requires Total(c)
    ensures Presence(LaxBool(), c).ok(o)
  {
    PresenceOk(LaxBool(), c, o);
  }

  lemma {:induction false} ProofsRelaxes(v3: bool)
    ensures Relaxes(ProofsCodec(LaxBool(), v3), ProofsCodec(StrictBool(), v3))
  {
    var c, c' := Presence(LaxBool(), ContinuationCodec()), Presence(StrictBool(), ContinuationCodec());
    var m, m' := Presence(LaxBool(), MigrationCodec()), Presence(StrictBool(), MigrationCodec());
    var o, o' := CertificateField(LaxBool(), v3), CertificateField(StrictBool(), v3);
    assert Relaxes(c, c') by { ProofFields(); LaxPresence(ContinuationCodec()); }
    assert Relaxes(m, m') by { ProofFields(); LaxPresence(MigrationCodec()); }
    assert Relaxes(o, o') by { CertificateFieldRelaxes(v3); }
    assert Relaxes(Pair(m, o), Pair(m', o')) by { PairRelaxes(m, m', o, o'); }
    PairRelaxes(c, c', Pair(m, o), Pair(m', o'));
  }

  lemma {:induction false} ProofsOk(
    v3: bool, c: Option<ContinuationProof>, m: Option<MigrationProof>, o: Option<Certificate>)
    ensures ProofsCodec(LaxBool(), v3).ok((c, (m, o))) <==> CertificateField(LaxBool(), v3).ok(o)
  {
    var cc, mc := Presence(LaxBool(), ContinuationCodec()), Presence(LaxBool(), MigrationCodec());
    var oc := CertificateField(LaxBool(), v3);
    assert cc.ok(c) by { ProofFields(); PresentOk(ContinuationCodec(), c); }
    assert mc.ok(m) by { ProofFields(); PresentOk(MigrationCodec(), m); }
    PairOk(mc, oc, (m, o));
    PairOk(cc, Pair(mc, oc), (c, (m, o)));
  }

  lemma {:induction false} SpendRelaxes(v3: bool)
    ensures Relaxes(SpendCodec(LaxBool(), v3), SpendCodec(StrictBool(), v3))
  {
    var p, p' := ProofsCodec(LaxBool(), v3), ProofsCodec(StrictBool(), v3);
    assert Relaxes(HeadCodec(), HeadCodec()) by { HeadField(); RelaxesItself(HeadCodec()); }
    assert Relaxes(p, p') by { ProofsRelaxes(v3); }
    assert Relaxes(Pair(HeadCodec(), p), Pair(HeadCodec(), p')) by { PairRelaxes(HeadCodec(), HeadCodec(), p, p'); }
    IsoRelaxes(Pair(HeadCodec(), p), Pair(HeadCodec(), p'), ToSpend, FromSpend);
  }

  lemma {:induction false} SpendOk(v3: bool, s: Spend)
    ensures SpendCodec(LaxBool(), v3).ok(s) <==> CertificateField(LaxBool(), v3).ok(s.certificate)
  {
    assert HeadCodec().ok(FromSpend(s).0) by { HeadField(); }
    ProofsOk(v3, s.continuation, s.migration, s.certificate);
    PairOk(HeadCodec(), ProofsCodec(LaxBool(), v3), FromSpend(s));
    IsoOk(Pair(HeadCodec(), ProofsCodec(LaxBool(), v3)), ToSpend, FromSpend, s);
  }

  lemma {:induction false} ListsRelaxes(v3: bool)
    ensures Relaxes(ListsCodec(LaxBool(), v3), ListsCodec(StrictBool(), v3))
  {
    var r := Counted(Int(4), B32());
    var h := Counted(Int(4), SpendCodec(LaxBool(), v3));
    var h' := Counted(Int(4), SpendCodec(StrictBool(), v3));
    assert Relaxes(r, r) by { IntLawful(4); B32Lawful(); CountedLawful(Int(4), B32()); RelaxesItself(r); }
    assert Relaxes(h, h') by {
      IntLawful(4);
      SpendRelaxes(v3);
      CountedRelaxes(Int(4), SpendCodec(LaxBool(), v3), SpendCodec(StrictBool(), v3));
    }
    assert Relaxes(U64(), U64()) by { U64Lawful(); RelaxesItself(U64()); }
    assert Relaxes(Pair(h, U64()), Pair(h', U64())) by { PairRelaxes(h, h', U64(), U64()); }
    PairRelaxes(r, r, Pair(h, U64()), Pair(h', U64()));
  }

  lemma {:induction false} FieldRelaxes<A(!new), B(!new)>(a: Codec<A>, b: Codec<B>, b': Codec<B>)
    requires Lawful(a) && Relaxes(b, b')
    ensures Relaxes(Pair(a, b), Pair(a, b'))
  {
    RelaxesItself(a);
    PairRelaxes(a, a, b, b');
  }

  // What the source reads and what it would read with strict presence bytes.
  lemma {:induction false} RawEntryRelaxes(v3: bool)
    ensures Relaxes(RawEntry(v3), StrictEntry(v3))
  {
    var open, open' := Presence(LaxBool(), OutpointCodec()), Presence(StrictBool(), OutpointCodec());
    var lists, lists' := ListsCodec(LaxBool(), v3), ListsCodec(StrictBool(), v3);
    assert Relaxes(lists, lists') by { ListsRelaxes(v3); }
    assert Relaxes(open, open') by { OutpointField(); LaxPresence(OutpointCodec()); }
    var c3, c3' := Pair(RawCommitment(), lists), Pair(RawCommitment(), lists');
    assert Relaxes(c3, c3') by { CommitmentField(); FieldRelaxes(RawCommitment(), lists, lists'); }
    var c2, c2' := Pair(open, c3), Pair(open', c3');
    assert Relaxes(c2, c2') by { PairRelaxes(open, open', c3, c3'); }
    var c1, c1' := Pair(Chain(), c2), Pair(Chain(), c2');
    assert Relaxes(c1, c1') by { ChainField(); FieldRelaxes(Chain(), c2, c2'); }
    assert Relaxes(EntryLayout(LaxBool(), v3), EntryLayout(StrictBool(), v3)) by {
      B32Lawful();
      FieldRelaxes(B32(), c1, c1');
      FieldRelaxes(B32(), Pair(B32(), c1), Pair(B32(), c1'));
    }
    IsoRelaxes(EntryLayout(LaxBool(), v3), EntryLayout(StrictBool(), v3), ToEntry, FromEntry);
  }

  // ---- which entries the layout can hold ----

  ghost predicate Encodable(v3: bool, e: Entry) {
    && |e.receipts| < 0x1_0000_0000 && |e.history| < 0x1_0000_0000
    && forall i :: 0 <= i < |e.history| ==> CertificateField(LaxBool(), v3).ok(e.history[i].certificate)
  }

  lemma {:induction false} ReceiptsOk(rs: seq<Bytes32>)
    requires |rs| < 0x1_0000_0000
    ensures Counted(Int(4), B32()).ok(rs)
  {
    assert OkEach(B32(), rs) by { B32Lawful(); }
    assert Int(4).ok(|rs|) by { IntLawful(4); Pow256Values(); }
    CountedOk<Bytes32>(Int(4), B32(), rs);
  }

  lemma {:induction false} HistoryOk(v3: bool, h: seq<Spend>)
    requires |h| < 0x1_0000_0000
    requires forall i :: 0 <= i < |h| ==> CertificateField(LaxBool(), v3).ok(h[i].certificate)
    ensures Counted(Int(4), SpendCodec(LaxBool(), v3)).ok(h)
  {
    forall i | 0 <= i < |h| ensures SpendCodec(LaxBool(), v3).ok(h[i]) { SpendOk(v3, h[i]); }
    assert Int(4).ok(|h|) by { IntLawful(4); Pow256Values(); }
    CountedOk(Int(4), SpendCodec(LaxBool(), v3), h);
  }

  lemma {:induction false} ListsOk(v3: bool, e: Entry)
    requires Encodable(v3, e)
    ensures ListsCodec(LaxBool(), v3).ok((e.receipts, (e.history, e.lastDaa)))
  {
    var r, h := Counted(Int(4), B32()), Counted(Int(4), SpendCodec(LaxBool(), v3));
    assert r.ok(e.receipts) by { ReceiptsOk(e.receipts); }
    assert h.ok(e.history) by { HistoryOk(v3, e.history); }
    assert U64().ok(e.lastDaa) by { U64Lawful(); }
    PairOk(h, U64(), (e.history, e.lastDaa));
    PairOk(r, Pair(h, U64()), (e.receipts, (e.history, e.lastDaa)));
  }

  lemma {:induction false} RawEntryOk(v3: bool, e: Entry)
    requires Encodable(v3, e)
    ensures RawEntry(v3).ok(e)
  {
    ListsOk(v3, e);
    assert B32().ok(e.covenant) && B32().ok(e.lineage) by { PrimitiveFields(); }
    assert Chain().ok(e.chain) by { ChainField(); }
    assert RawCommitment().ok(e.latest) by { CommitmentField(); }
    assert Presence(LaxBool(), OutpointCodec()).ok(e.open) by {
      OutpointField();
      PresentOk(OutpointCodec(), e.open);
    }
    var open, c := Presence(LaxBool(), OutpointCodec()), FromEntry(e);
    PairOk(RawCommitment(), ListsCodec(LaxBool(), v3), c.1.1.1.1);
    var c3 := Pair(RawCommitment(), ListsCodec(LaxBool(), v3));
    PairOk(open, c3, c.1.1.1);
    PairOk(Chain(), Pair(open, c3), c.1.1);
    PairOk(B32(), Pair(Chain(), Pair(open, c3)), c.1);
    PairOk(B32(), Pair(B32(), Pair(Chain(), Pair(open, c3))), c);
    IsoOk(EntryLayout(LaxBool(), v3), ToEntry, FromEntry, e);
  }

  lemma {:induction false} BodyRoundTrip(seal: Seal, v3: bool, e: Entry)
    requires Encodable(v3, e)
    ensures DecodeBody(seal, v3, RawEntry(v3).enc(e)) == if Storable(seal, e) then Some(e) else None
  {
    RawEntryRelaxes(v3);
    RelaxedRoundTrips(RawEntry(v3), StrictEntry(v3));
    RawEntryOk(v3, e);
    DecodeAllInverts(RawEntry(v3), e);
  }

  // The record as bytes: a magic string and a body.
  lemma MagicSplits(m: Bytes, body: Bytes)
    requires |m| == 8
    ensures (m + body)[..8] == m && (m + body)[8..] == body
  {
  }

  lemma {:induction false} DecodesAs(seal: Seal, v3: bool, body: Bytes)
    ensures DecodeEntry(seal, (if v3 then MAGIC_V3 else MAGIC_V2) + body) == DecodeBody(seal, v3, body)
  {
    MagicSplits(MAGIC_V3, body);
    MagicSplits(MAGIC_V2, body);
    assert MAGIC_V2[6] != MAGIC_V3[6];
  }

  lemma {:induction false} SoundSpends(seal: Seal, base: Entry, e: Entry)
    requires Sound(seal, base, e)
    ensures forall i :: 0 <= i < |e.history| ==> ProvenSpend(seal, e.history[i])
  {
    forall i | 0 <= i < |e.history| ensures ProvenSpend(seal, e.history[i]) {
      assert SpendAt(seal, StartOf(base), e.history, i);
    }
  }

  lemma {:induction false} StorableWrites(seal: Seal, e: Entry)
    requires forall i :: 0 <= i < |e.history| ==> ProvenSpend(seal, e.history[i])
    ensures EncodeEntry(e) == Some(MAGIC_V3 + RawEntry(true).enc(e))
  {
    forall i | 0 <= i < |e.history|
      ensures e.history[i].certificate.Some? ==> ValidCertificate(e.history[i].certificate.value)
    {
      assert ProvenSpend(seal, e.history[i]);
    }
  }

  lemma {:induction false} StorableEncodable(seal: Seal, e: Entry)
    requires |e.receipts| < 0x1_0000_0000 && |e.history| < 0x1_0000_0000
    requires forall i :: 0 <= i < |e.history| ==> ProvenSpend(seal, e.history[i])
    ensures Encodable(true, e)
  {
    forall i | 0 <= i < |e.history| ensures CertificateField(LaxBool(), true).ok(e.history[i].certificate) {
      assert ProvenSpend(seal, e.history[i]);
      CertificateFieldOk(true, e.history[i].certificate);
    }
  }

  // A storable entry is written, and what is written reads back.
  lemma {:induction false} StorableReopens(seal: Seal, e: Entry)
    requires |e.receipts| < 0x1_0000_0000 && |e.history| < 0x1_0000_0000
    requires forall i :: 0 <= i < |e.history| ==> ProvenSpend(seal, e.history[i])
    ensures EncodeEntry(e).Some?
    ensures DecodeEntry(seal, EncodeEntry(e).value) == if Storable(seal, e) then Some(e) else None
  {
    StorableWrites(seal, e);
    StorableEncodable(seal, e);
    BodyRoundTrip(seal, true, e);
    DecodesAs(seal, true, RawEntry(true).enc(e));
  }

  // An entry the operations can reach survives writing and reading back exactly when its
  // latest state is structurally valid; otherwise the record no longer reads at all.
  lemma {:induction false} ReopenIff(seal: Seal, base: Entry, e: Entry)
    requires Sound(seal, base, e) && |e.history| < 0x1_0000_0000
    ensures EncodeEntry(e).Some?
    ensures DecodeEntry(seal, EncodeEntry(e).value) == if ValidCommitment(e.latest) then Some(e) else None
  {
    SoundSpends(seal, base, e);
    StorableReopens(seal, e);
  }

  // It does fail: a structurally valid opening, one accepted spend to a state that is not, and
  // the record of the entry no longer reads.
  lemma {:induction false} InvalidStateDoesNotReopen(seal: Seal) returns (base: Entry, op: Op)
    ensures Fresh(base) && ValidCommitment(base.latest) && Step(seal, base, op).Ok?
    ensures var e := Run(seal, base, [op]);
            EncodeEntry(e).Some? && DecodeEntry(seal, EncodeEntry(e).value) == None
  {
    base, op := FirstEntry(1, 0), DoSpend(FirstSpend(2, 0));
    FirstSpendPasses(seal, 1, 2, 0, 0);
    FillDiffers(1, 3);
    FillDiffers(3, 4);
    FillDiffers(4, 1);
    RunSound(seal, base, [op]);
    var e := Run(seal, base, [op]);
    assert e == Spent(base, op.request) by {
      assert Run(seal, Spent(base, op.request), [op][1..]) == Spent(base, op.request);
    }
    ReopenIff(seal, base, e);
  }

  // A certificate-free entry written in the older layout is still read back unchanged.
  lemma {:induction false} OldRecordsStillRead(seal: Seal, base: Entry, e: Entry)
    requires Sound(seal, base, e) && |e.history| < 0x1_0000_0000 && ValidCommitment(e.latest)
    requires forall i :: 0 <= i < |e.history| ==> e.history[i].certificate.None?
    ensures DecodeEntry(seal, MAGIC_V2 + RawEntry(false).enc(e)) == Some(e)
  {
    SoundSpends(seal, base, e);
    assert Encodable(false, e) by {
      forall i | 0 <= i < |e.history| ensures CertificateField(LaxBool(), false).ok(e.history[i].certificate) {
        CertificateFieldOk(false, e.history[i].certificate);
      }
    }
    BodyRoundTrip(seal, false, e);
    DecodesAs(seal, false, RawEntry(false).enc(e));
  }

  // ---- bytes that decode, written back ----

  lemma {:induction false} CountsFit<T(!new)>(c: Codec<T>, xs: seq<T>)
    requires Counted(Int(4), c).ok(xs)
    ensures |xs| < 0x1_0000_0000
  {
    CountedOk(Int(4), c, xs);
    IntRange(4, |xs|);
    Pow256Values();
  }

  lemma {:induction false} ListsFit(v3: bool, e: Entry)
    requires ListsCodec(LaxBool(), v3).ok((e.receipts, (e.history, e.lastDaa)))
    ensures |e.receipts| < 0x1_0000_0000 && |e.history| < 0x1_0000_0000
  {
    var r, h := Counted(Int(4), B32()), Counted(Int(4), SpendCodec(LaxBool(), v3));
    PairOk(r, Pair(h, U64()), (e.receipts, (e.history, e.lastDaa)));
    PairOk(h, U64(), (e.history, e.lastDaa));
    CountsFit(B32(), e.receipts);
    CountsFit(SpendCodec(LaxBool(), v3), e.history);
  }

  lemma {:induction false} EntryFits(v3: bool, e: Entry)
    requires RawEntry(v3).ok(e)
    ensures |e.receipts| < 0x1_0000_0000 && |e.history| < 0x1_0000_0000
  {
    var open, lists, c := Presence(LaxBool(), OutpointCodec()), ListsCodec(LaxBool(), v3), FromEntry(e);
    var c3 := Pair(RawCommitment(), lists);
    IsoOk(EntryLayout(LaxBool(), v3), ToEntry, FromEntry, e);
    PairOk(B32(), Pair(B32(), Pair(Chain(), Pair(open, c3))), c);
    PairOk(B32(), Pair(Chain(), Pair(open, c3)), c.1);
    PairOk(Chain(), Pair(open, c3), c.1.1);
    PairOk(open, c3, c.1.1.1);
    PairOk(RawCommitment(), lists, c.1.1.1.1);
    ListsFit(v3, e);
  }

  // Whatever bytes decode, of either version, the entry they give can be written, and what is
  // written decodes to the same entry: reading and writing back never changes the meaning.
  lemma {:induction false} RewriteKeepsMeaning(seal: Seal, s: Bytes)
    requires DecodeEntry(seal, s).Some?
    ensures var e := DecodeEntry(seal, s).value;
            EncodeEntry(e).Some? && DecodeEntry(seal, EncodeEntry(e).value) == Some(e)
  {
    var e, v3 := DecodeEntry(seal, s).value, s[..8] == MAGIC_V3;
    assert DecodeAll(RawEntry(v3), s[8..]) == Some(e) && Storable(seal, e);
    RawEntryRelaxes(v3);
    RelaxedCanonical(RawEntry(v3), StrictEntry(v3), s[8..]);
    EntryFits(v3, e);
    StorableReopens(seal, e);
  }

  lemma {:induction false} WritesVersion3(e: Entry)
    requires EncodeEntry(e).Some?
    ensures |EncodeEntry(e).value| >= 8 && EncodeEntry(e).value[..8] == MAGIC_V3
  {
    MagicSplits(MAGIC_V3, RawEntry(true).enc(e));
  }

  lemma {:induction false} WrittenIsVersion3(e: Entry, s: Bytes)
    requires |s| >= 8 && s[..8] != MAGIC_V3
    ensures EncodeEntry(e) != Some(s)
  {
    if EncodeEntry(e).Some? { WritesVersion3(e); }
  }

  lemma {:induction false} PrefixedCanonical<T(!new)>(c: Codec<T>, d: Codec<T>, s: Bytes)
    requires |s| >= 8 && Relaxes(c, d) && DecodeAll(c, s[8..]).Some?
    ensures var x := DecodeAll(c, s[8..]).value;
            s[..8] + c.enc(x) == s <==> DecodeAll(d, s[8..]) == Some(x)
  {
    var x := DecodeAll(c, s[8..]).value;
    RelaxedCanonical(c, d, s[8..]);
    MagicSplits(s[..8], c.enc(x));
    assert s == s[..8] + s[8..];
  }

  lemma {:induction false} Version3Canonical(seal: Seal, s: Bytes)
    requires DecodeEntry(seal, s).Some? && s[..8] == MAGIC_V3
    ensures var e := DecodeEntry(seal, s).value;
            EncodeEntry(e) == Some(s) <==> DecodeAll(StrictEntry(true), s[8..]) == Some(e)
  {
    var e := DecodeEntry(seal, s).value;
    assert DecodeAll(RawEntry(true), s[8..]) == Some(e) && Storable(seal, e);
    StorableWrites(seal, e);
    RawEntryRelaxes(true);
    PrefixedCanonical(RawEntry(true), StrictEntry(true), s);
  }

  // Writing back gives the very same bytes exactly when they are a version 3 record whose
  // presence bytes are all 0 or 1.
  lemma {:induction false} RewriteIsIdentityIff(seal: Seal, s: Bytes)
    requires DecodeEntry(seal, s).Some?
    ensures var e := DecodeEntry(seal, s).value;
            |s| >= 8 &&
            (EncodeEntry(e) == Some(s) <==>
             s[..8] == MAGIC_V3 && DecodeAll(StrictEntry(true), s[8..]) == Some(e))
  {
    var e := DecodeEntry(seal, s).value;
    if s[..8] == MAGIC_V3 {
      Version3Canonical(seal, s);
    } else {
      WrittenIsVersion3(e, s);
    }
  }

  lemma VersionsDiffer(s: Bytes, s': Bytes)
    requires |s| >= 8 && |s'| >= 8 && s[..8] == MAGIC_V3 && s'[..8] == MAGIC_V2
    ensures s != s'
  {
    assert MAGIC_V2[6] != MAGIC_V3[6];
  }

  // So a version 2 record is always replaced by a version 3 record of the same entry.
  lemma {:induction false} OldRecordsAreRewritten(seal: Seal, s: Bytes)
    requires DecodeEntry(seal, s).Some? && s[..8] == MAGIC_V2
    ensures var e := DecodeEntry(seal, s).value;
            && EncodeEntry(e).Some? && EncodeEntry(e).value != s
            && |EncodeEntry(e).value| >= 8 && EncodeEntry(e).value[..8] == MAGIC_V3
            && DecodeEntry(seal, EncodeEntry(e).value) == Some(e)
  {
    var e := DecodeEntry(seal, s).value;
    RewriteKeepsMeaning(seal, s);
    WritesVersion3(e);
    VersionsDiffer(EncodeEntry(e).value, s);
  }

  lemma {:induction false} SameTail<A(!new), B(!new)>(a: Codec<A>, b: Codec<B>, x: A, t: Bytes, t': Bytes)
    requires RoundTrips(a) && a.ok(x) && b.dec(t) == b.dec(t')
    ensures Pair(a, b).dec(a.enc(x) + t) == Pair(a, b).dec(a.enc(x) + t')
  {
    assert a.dec(a.enc(x) + t) == Some((x, t)) && a.dec(a.enc(x) + t') == Some((x, t'));
  }

  lemma {:induction false} AnyFlagIsPresent<A(!new), B(!new)>(a: Codec<A>, b: Codec<B>, flag: byte, t: Bytes)
    requires flag != 0
    ensures Pair(Presence(LaxBool(), a), b).dec([flag] + t) == Pair(Presence(LaxBool(), a), b).dec([1] + t)
  {
    var f: Bytes, one: Bytes := [flag] + t, [1] + t;
    assert f[1..] == t && one[1..] == t;
    assert LaxBool().dec(f) == Some((true, t)) && LaxBool().dec(one) == Some((true, t));
  }

  // Three fields in front of a codec that reads two strings alike.
  lemma {:induction false} FrontReadsAlike<A(!new), B(!new), C(!new), R(!new)>(
    a: Codec<A>, b: Codec<B>, c: Codec<C>, d: Codec<R>, x: A, y: B, z: C, t: Bytes, t': Bytes)
    requires RoundTrips(a) && RoundTrips(b) && RoundTrips(c)
    requires a.ok(x) && b.ok(y) && c.ok(z) && d.dec(t) == d.dec(t')
    ensures var front := a.enc(x) + b.enc(y) + c.enc(z);
            var whole := Pair(a, Pair(b, Pair(c, d)));
            whole.dec(front + t) == whole.dec(front + t')
  {
    var k, l, n := a.enc(x), b.enc(y), c.enc(z);
    assert (k + l + n) + t == k + (l + (n + t)) && (k + l + n) + t' == k + (l + (n + t'));
    SameTail(c, d, z, t, t');
    SameTail(b, Pair(c, d), y, n + t, n + t');
    SameTail(a, Pair(b, Pair(c, d)), x, l + (n + t), l + (n + t'));
  }

  lemma FrontBytes<A, B, C, R>(
    a: Codec<A>, b: Codec<B>, c: Codec<C>, d: Codec<R>, x: A, y: B, z: C, r: R)
    ensures Pair(a, Pair(b, Pair(c, d))).enc((x, (y, (z, r)))) == (a.enc(x) + b.enc(y) + c.enc(z)) + d.enc(r)
  {
    var k, l, n := a.enc(x), b.enc(y), c.enc(z);
    assert k + (l + (n + d.enc(r))) == (k + l + n) + d.enc(r);
  }

  lemma PresentBytes<A, R>(a: Codec<A>, b: Codec<R>, x: A, r: R)
    ensures Pair(Presence(LaxBool(), a), b).enc((Some(x), r)) == [1] + (a.enc(x) + b.enc(r))
  {
    var w, v := a.enc(x), b.enc(r);
    assert Presence(LaxBool(), a).enc(Some(x)) == LaxBool().enc(true) + OptionBody(a, true).enc(Some(x));
    assert LaxBool().enc(true) + w + v == LaxBool().enc(true) + (w + v);
  }

  // The record's fields in front of the presence byte of the open outpoint, and those behind it.
  ghost function BeforeFlag(e: Entry): Bytes {
    B32().enc(e.covenant) + B32().enc(e.lineage) + Chain().enc(e.chain)
  }

  ghost function BehindFlag(e: Entry): Bytes
    requires e.open.Some?
  {
    OutpointCodec().enc(e.open.value)
    + Pair(RawCommitment(), ListsCodec(LaxBool(), true)).enc(FromEntry(e).1.1.1.1)
  }

  lemma {:induction false} FrontWidth(e: Entry)
    ensures |BeforeFlag(e)| == 66
  {
    B32Lawful();
    ChainField();
    assert B32().ok(e.covenant) && B32().ok(e.lineage) && Chain().ok(e.chain);
  }

  lemma {:induction false} FlagWritten(e: Entry)
    requires e.open.Some?
    ensures RawEntry(true).enc(e) == BeforeFlag(e) + ([1] + BehindFlag(e))
  {
    var open, rest := Presence(LaxBool(), OutpointCodec()), Pair(RawCommitment(), ListsCodec(LaxBool(), true));
    var r := FromEntry(e).1.1.1.1;
    IsoBytes(EntryLayout(LaxBool(), true), ToEntry, FromEntry, e);
    FrontBytes(B32(), B32(), Chain(), Pair(open, rest), e.covenant, e.lineage, e.chain, (e.open, r));
    PresentBytes(OutpointCodec(), rest, e.open.value, r);
  }

  lemma {:induction false} BodyReadsAlike(seal: Seal, v3: bool, s: Bytes, s': Bytes)
    requires EntryLayout(LaxBool(), v3).dec(s) == EntryLayout(LaxBool(), v3).dec(s')
    ensures DecodeBody(seal, v3, s) == DecodeBody(seal, v3, s')
  {
    IsoReadsAlike(EntryLayout(LaxBool(), v3), ToEntry, FromEntry, s, s');
  }

  // Behind the first three fields, a presence byte for the open outpoint reads alike whatever
  // non-zero value it has.
  lemma {:induction false} FlagReads<R(!new)>(rest: Codec<R>, e: Entry, flag: byte, t: Bytes)
    requires flag != 0
    ensures var c := Pair(B32(), Pair(B32(), Pair(Chain(), Pair(Presence(LaxBool(), OutpointCodec()), rest))));
            c.dec(BeforeFlag(e) + ([flag] + t)) == c.dec(BeforeFlag(e) + ([1] + t))
  {
    var d := Pair(Presence(LaxBool(), OutpointCodec()), rest);
    assert d.dec([flag] + t) == d.dec([1] + t) by { AnyFlagIsPresent(OutpointCodec(), rest, flag, t); }
    B32Lawful();
    ChainField();
    assert B32().ok(e.covenant) && B32().ok(e.lineage) && Chain().ok(e.chain);
    FrontReadsAlike(B32(), B32(), Chain(), d, e.covenant, e.lineage, e.chain, [flag] + t, [1] + t);
  }

  lemma {:induction false} FlagIgnored(seal: Seal, e: Entry, flag: byte, t: Bytes)
    requires flag != 0
    ensures DecodeBody(seal, true, BeforeFlag(e) + ([flag] + t)) == DecodeBody(seal, true, BeforeFlag(e) + ([1] + t))
  {
    FlagReads(Pair(RawCommitment(), ListsCodec(LaxBool(), true)), e, flag, t);
    BodyReadsAlike(seal, true, BeforeFlag(e) + ([flag] + t), BeforeFlag(e) + ([1] + t));
  }

  lemma IsoReadsAlike<A, B>(c: Codec<A>, to: A -> B, from: B -> A, s: Bytes, s': Bytes)
    requires c.dec(s) == c.dec(s')
    ensures DecodeAll(Iso(c, to, from), s) == DecodeAll(Iso(c, to, from), s')
  {
  }

  lemma IsoBytes<A, B>(c: Codec<A>, to: A -> B, from: B -> A, y: B)
    ensures Iso(c, to, from).enc(y) == c.enc(from(y))
  {
  }

  // The record with one byte changed.
  lemma FlagBytes(m: Bytes, front: Bytes, t: Bytes, flag: byte)
    requires |m| == 8 && |front| == 66 && flag != 1
    ensures var s := m + (front + ([1] + t));
            |s| > 74 && s[74 := flag] == m + (front + ([flag] + t)) && s[74 := flag] != s
  {
    var s := m + (front + ([1] + t));
    assert s[74] == 1;
  }

  lemma {:induction false} RecordWithFlag(seal: Seal, e: Entry)
    requires Storable(seal, e) && e.open.Some?
    ensures EncodeEntry(e) == Some(MAGIC_V3 + (BeforeFlag(e) + ([1] + BehindFlag(e))))
  {
    StorableWrites(seal, e);
    FlagWritten(e);
  }

  lemma {:induction false} RecordReadsAlike(seal: Seal, e: Entry, flag: byte, t: Bytes)
    requires flag != 0
    ensures DecodeEntry(seal, MAGIC_V3 + (BeforeFlag(e) + ([flag] + t)))
         == DecodeEntry(seal, MAGIC_V3 + (BeforeFlag(e) + ([1] + t)))
  {
    FlagIgnored(seal, e, flag, t);
    DecodesAs(seal, true, BeforeFlag(e) + ([flag] + t));
    DecodesAs(seal, true, BeforeFlag(e) + ([1] + t));
  }

  lemma {:induction false} RecordSpellings(seal: Seal, e: Entry, flag: byte) returns (front: Bytes, t: Bytes)
    requires Storable(seal, e) && e.open.Some? && flag != 0
    requires |e.receipts| < 0x1_0000_0000 && |e.history| < 0x1_0000_0000
    ensures |front| == 66 && EncodeEntry(e) == Some(MAGIC_V3 + (front + ([1] + t)))
    ensures DecodeEntry(seal, MAGIC_V3 + (front + ([flag] + t))) == Some(e)
  {
    StorableReopens(seal, e);
    RecordWithFlag(seal, e);
    RecordReadsAlike(seal, e, flag, BehindFlag(e));
    FrontWidth(e);
    front, t := BeforeFlag(e), BehindFlag(e);
  }

  // It does differ: every record with an open outpoint has other spellings. Byte 74, which says
  // the outpoint is present, may be any non-zero byte; the decoder reads the same entry and the
  // encoder writes 1.
  lemma {:induction false} OpenFlagIsFree(seal: Seal, e: Entry, flag: byte)
    requires Storable(seal, e) && e.open.Some? && flag > 1
    requires |e.receipts| < 0x1_0000_0000 && |e.history| < 0x1_0000_0000
    ensures EncodeEntry(e).Some? && |EncodeEntry(e).value| > 74
    ensures var s := EncodeEntry(e).value[74 := flag];
            s != EncodeEntry(e).value && DecodeEntry(seal, s) == Some(e)
  {
    var front, t := RecordSpellings(seal, e, flag);
    FlagBytes(MAGIC_V3, front, t, flag);
  }

  // A covenant just opened, for one.
  lemma {:induction false} TwoRecordsOneEntry(seal: Seal) returns (e: Entry, s: Bytes, s': Bytes)
    ensures Fresh(e) && s != s' && EncodeEntry(e) == Some(s)
    ensures DecodeEntry(seal, s) == Some(e) && DecodeEntry(seal, s') == Some(e)
  {
    e := FirstEntry(1, 0);
    FillDiffers(1, 3);
    FillDiffers(3, 4);
    FillDiffers(4, 1);
    assert Storable(seal, e);
    StorableReopens(seal, e);
    OpenFlagIsFree(seal, e, 2);
    s, s' := EncodeEntry(e).value, EncodeEntry(e).value[74 := 2];
  }
}
