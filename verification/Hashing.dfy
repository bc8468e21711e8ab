/**
 Domain-separated hashing (rgk-core commit.rs). The hash itself is a parameter:
 every statement about it holds for every function from byte strings to 32 bytes.
 Injectivity is never assumed of the hash as such; a statement that needs it names
 the finite set of preimages on which the hash must not collide.
 */
module Hashing {
  import opened Bytes
  import opened Codec

  type Hash = Bytes -> Bytes32

  // The bytes of a text; the protocol's tags are ASCII.
  function Ascii(s: string): (b: Bytes)
    ensures |b| == |s|
  {
    seq(|s|, i requires 0 <= i < |s| => if s[i] < 128 as char then s[i] as int else 63)
  }

  // What `domain_hash_str` feeds the hasher: tag length, tag, payload.
  function Frame(tag: Bytes, payload: Bytes): Bytes {
    LE(4, |tag|) + tag + payload
  }

  function DomainHash(h: Hash, tag: string, payload: Bytes): Bytes32 {
    h(Frame(Ascii(tag), payload))
  }

  ghost predicate CollisionFree(h: Hash, preimages: set<Bytes>) {
    forall p, q :: p in preimages && q in preimages && h(p) == h(q) ==> p == q
  }

  // The framing separates tag from payload, whatever the two contain.
  lemma FrameInjective(t: Bytes, p: Bytes, t': Bytes, p': Bytes)
    requires |t| < 0x1_0000_0000 && |t'| < 0x1_0000_0000
    ensures Frame(t, p) == Frame(t', p') <==> t == t' && p == p'
  {
    if Frame(t, p) == Frame(t', p') {
      Pow256Values();
      FromLEInvertsLE(4, |t|);
      FromLEInvertsLE(4, |t'|);
      assert Frame(t, p)[..4] == LE(4, |t|) && Frame(t', p')[..4] == LE(4, |t'|);
      assert Frame(t, p)[4..4 + |t|] == t && Frame(t', p')[4..4 + |t'|] == t';
      assert Frame(t, p)[4 + |t|..] == p && Frame(t', p')[4 + |t'|..] == p';
    }
  }

  // Under one tag, equal hashes of non-colliding preimages mean equal payloads.
  lemma SameHash(h: Hash, tag: string, p: Bytes, q: Bytes, preimages: set<Bytes>)
    requires CollisionFree(h, preimages)
    requires Frame(Ascii(tag), p) in preimages && Frame(Ascii(tag), q) in preimages
    requires DomainHash(h, tag, p) == DomainHash(h, tag, q)
    ensures p == q
  {
    var t := Ascii(tag);
    assert Frame(t, p)[4 + |t|..] == p && Frame(t, q)[4 + |t|..] == q;
  }
}
