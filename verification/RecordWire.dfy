/**
 The audit certificate of a spend as the record holds it: an identifier and a capped blob,
 validated before writing and after reading.
 */
module RecordWire {
  import opened Bytes
  import opened Codec
  import opened Core
  import opened Ledger
  import opened LedgerRecord
  import opened Wire

  // What reading a certificate accepts.
  function CheckedCertificate(): Codec<Certificate> { Refine(CertificateCodec(), ValidCertificate) }

  // An identifier, then a blob whose length is refined, seen through a conversion and a check.
  lemma CheckedBytes<T>(
    a: Codec<Bytes32>, n: Codec<nat>, fits: nat -> bool, to: ((Bytes32, Bytes)) -> T, from: T -> (Bytes32, Bytes),
    valid: T -> bool, x: T)
    ensures Refine(Iso(Pair(a, Blob(Refine(n, fits))), to, from), valid).enc(x)
         == a.enc(from(x).0) + (n.enc(|from(x).1|) + from(x).1)
  {
    var (id, b) := from(x);
    assert Blob(Refine(n, fits)).enc(b) == n.enc(|b|) + b;
  }

  lemma {:induction false} CertificateEncoding(c: Certificate)
    ensures CheckedCertificate().enc(c) == B32().enc(c.id) + (Int(4).enc(|c.bytes|) + c.bytes)
  {
    CheckedBytes(B32(), Int(4), FitsBlob, ToCertificate, FromCertificate, ValidCertificate, c);
  }

  lemma Reassociate(s: Bytes, a: Bytes, b: Bytes, whole: Bytes)
    requires whole == a + b
    ensures (s + a) + b == s + whole
  {
  }

  // An invalid certificate is refused before a byte of it is written.
  method WriteCertificate(w: Writer, c: Certificate) returns (r: Outcome<IndexerError>)
    modifies w
    ensures r.Pass? <==> ValidCertificate(c)
    ensures w.buf == old(w.buf) + if r.Pass? then CheckedCertificate().enc(c) else []
  {
    if !ValidCertificate(c) { return Fail(CertificateInvalid); }
    ghost var done := w.buf;
    w.WriteBytes32(c.id);
    w.WriteBlob(c.bytes);
    assert w.buf == done + CheckedCertificate().enc(c) by {
      CertificateEncoding(c);
      Reassociate(done, B32().enc(c.id), Int(4).enc(|c.bytes|) + c.bytes, CheckedCertificate().enc(c));
    }
    return Pass;
  }

  // `decode_allocation_audit_certificate_record`
  method ReadCertificate(r: Reader) returns (c: Option<Certificate>)
    requires r.Valid()
    modifies r
    ensures r.Valid() && Reads(CheckedCertificate(), old(r.Rest()), c, r.Rest())
  {
    ghost var t0 := r.Rest();
    var id := r.ReadBytes32();
    ghost var t1 := r.Rest();
    var blob: Option<Bytes> := None;
    if id.Some? { blob := r.ReadBlob(); }
    ghost var u := r.Rest();
    PairReads(true, B32(), t0, id, t1, Blob(BlobLength()), blob, u);
    IsoReads(Pair(B32(), Blob(BlobLength())), ToCertificate, FromCertificate, t0, Both(id, blob), u);
    RefineReads(CertificateCodec(), ValidCertificate, t0, Apply(ToCertificate, Both(id, blob)), u);
    if id.None? || blob.None? { return None; }
    var found := Certificate(id.value, blob.value);
    if !ValidCertificate(found) { return None; }
    return Some(found);
  }

  // Whatever stands behind a written certificate, reading gives it back and stops there; and
  // nothing but the written form of a valid certificate is read.
  lemma {:induction false} CertificateBytes(s: Bytes, c: Certificate, rest: Bytes)
    ensures CheckedCertificate().dec(s) == Some((c, rest)) <==>
            ValidCertificate(c) && s == CheckedCertificate().enc(c) + rest
  {
    CertificateLawful();
    RefineLawful(CertificateCodec(), ValidCertificate);
    CertificateOk(c);
    var d := CheckedCertificate();
    if d.dec(s) == Some((c, rest)) {
      assert d.ok(c) && s == d.enc(c) + rest;
    }
    if ValidCertificate(c) && s == d.enc(c) + rest {
      assert d.ok(c);
    }
  }
}
