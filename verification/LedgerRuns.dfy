/**
 What every interleaving of spends, rollbacks and certificate recordings keeps true of an
 indexed covenant.
 */
module LedgerRuns {
  import opened Bytes
  import opened Core
  import opened Ledger

  // ---- the invariant ----

  // Where the lineage stands before the i-th spend.
  datatype Tip = Tip(at: Outpoint, digest: Bytes32, policy: ReceiptPolicy)

  function TipAt(start: Tip, h: seq<Spend>, i: nat): Tip
    requires i <= |h|
  {
    if i == 0 then start else Tip(h[i - 1].created, h[i - 1].resultingDigest, h[i - 1].newPolicy)
  }

  predicate IntactSpend(seal: Seal, s: Spend) { s.previousDigest != s.resultingDigest && ProvenSpend(seal, s) }

  ghost predicate SpendAt(seal: Seal, start: Tip, h: seq<Spend>, i: nat) {
    i < |h| ==> TipAt(start, h, i) == Tip(h[i].spent, h[i].previousDigest, h[i].previousPolicy) && IntactSpend(seal, h[i])
  }

  predicate ReceiptAt(e: Entry, i: nat) { i < |e.receipts| && i < |e.history| ==> e.receipts[i] == e.history[i].receipt }

  // `base` is the entry as it was opened.
  ghost predicate Sound(seal: Seal, base: Entry, e: Entry) {
    && e.covenant == base.covenant && e.lineage == base.lineage && e.chain == base.chain
    && e.latest.chain == e.chain && e.latest.covenant == e.covenant && e.latest.asset == base.latest.asset
    && |e.receipts| == |e.history|
    && (forall i: nat :: ReceiptAt(e, i))
    && NoDuplicates(e.receipts)
    && base.open.Some?
    && (forall i: nat :: SpendAt(seal, StartOf(base), e.history, i))
    && e.open.Some?
    && Tip(e.open.value, e.latest.digest, e.latest.policy) == TipAt(StartOf(base), e.history, |e.history|)
  }

  function StartOf(base: Entry): Tip
    requires base.open.Some?
  {
    Tip(base.open.value, base.latest.digest, base.latest.policy)
  }

  predicate Fresh(base: Entry) {
    && base.history == [] && base.receipts == [] && base.open.Some?
    && base.latest.chain == base.chain && base.latest.covenant == base.covenant
  }

  lemma {:induction false} SpendSound(seal: Seal, base: Entry, e: Entry, q: Request)
    requires Sound(seal, base, e) && CheckSpend(seal, e, q).Pass?
    ensures Sound(seal, base, Spent(e, q))
  {
    var f := Spent(e, q);
    var start := StartOf(base);
    forall i: nat ensures SpendAt(seal, start, f.history, i) {
      assert SpendAt(seal, start, e.history, i);
    }
    forall i: nat ensures ReceiptAt(f, i) { assert ReceiptAt(e, i); }
  }

  lemma {:induction false} UndoOneSound(seal: Seal, base: Entry, e: Entry)
    requires Sound(seal, base, e) && e.history != []
    ensures Sound(seal, base, UndoOne(e))
  {
    var f := UndoOne(e);
    var start := StartOf(base);
    forall i: nat ensures SpendAt(seal, start, f.history, i) { assert SpendAt(seal, start, e.history, i); }
    forall i: nat ensures ReceiptAt(f, i) { assert ReceiptAt(e, i); }
    assert SpendAt(seal, start, e.history, |f.history|);
  }

  lemma {:induction false} UndoSound(seal: Seal, base: Entry, e: Entry, k: nat)
    requires Sound(seal, base, e) && k <= |e.history|
    ensures Sound(seal, base, Undo(e, k))
    decreases k
  {
    if k != 0 {
      UndoOneSound(seal, base, e);
      UndoSound(seal, base, UndoOne(e), k - 1);
    }
  }

  lemma {:induction false} CertifySound(seal: Seal, base: Entry, e: Entry, r: Bytes32, c: Certificate)
    requires Sound(seal, base, e) && RecordCertificate(e, r, c).Ok?
    ensures Sound(seal, base, RecordCertificate(e, r, c).value)
  {
    var f := RecordCertificate(e, r, c).value;
    var start := StartOf(base);
    forall i: nat ensures SpendAt(seal, start, f.history, i) { assert SpendAt(seal, start, e.history, i); }
    forall i: nat ensures ReceiptAt(f, i) { assert ReceiptAt(e, i); }
  }

  lemma {:induction false} StepSound(seal: Seal, base: Entry, e: Entry, op: Op)
    requires Sound(seal, base, e)
    ensures Sound(seal, base, After(seal, e, op))
  {
    match op {
      case DoSpend(q) => if CheckSpend(seal, e, q).Pass? { SpendSound(seal, base, e, q); }
      case DoRollback(k) => if k <= |e.history| { UndoSound(seal, base, e, k); }
      case DoCertify(r, c) => if RecordCertificate(e, r, c).Ok? { CertifySound(seal, base, e, r, c); }
    }
  }

  lemma {:induction false} SoundAlong(seal: Seal, base: Entry, e: Entry, ops: seq<Op>)
    requires Sound(seal, base, e)
    ensures Sound(seal, base, Run(seal, e, ops))
    decreases |ops|
  {
    if ops != [] {
      StepSound(seal, base, e, ops[0]);
      SoundAlong(seal, base, After(seal, e, ops[0]), ops[1..]);
    }
  }

  // Every interleaving of operations, from any opening.
  lemma {:induction false} RunSound(seal: Seal, base: Entry, ops: seq<Op>)
    requires Fresh(base)
    ensures Sound(seal, base, Run(seal, base, ops))
  {
    SoundAlong(seal, base, base, ops);
  }

  // ---- undoing ----

  function SpendAll(seal: Seal, e: Entry, qs: seq<Request>): Result<Entry, IndexerError>
    decreases |qs|
  {
    if qs == [] then Ok(e)
    else
      var f :- ApplySpend(seal, e, qs[0]);
      SpendAll(seal, f, qs[1..])
  }

  // As many accepted receipts as spends.
  predicate Paired(e: Entry) { |e.receipts| == |e.history| }

  predicate Keyed(e: Entry) { e.latest.chain == e.chain && e.latest.covenant == e.covenant }

  function Before(daa: u64): u64 { if daa == 0 then 0 else daa - 1 }

  lemma {:induction false} UndoSplit(e: Entry, a: nat, b: nat)
    requires a + b <= |e.history|
    ensures |Undo(e, a).history| == |e.history| - a
    ensures Undo(e, a + b) == Undo(Undo(e, a), b)
    decreases a
  {
    if a != 0 { UndoSplit(UndoOne(e), a - 1, b); }
  }

  lemma {:induction false} SpendAllGrows(seal: Seal, e: Entry, qs: seq<Request>)
    requires SpendAll(seal, e, qs).Ok?
    ensures |SpendAll(seal, e, qs).value.history| == |e.history| + |qs|
    ensures Keyed(e) ==> Keyed(SpendAll(seal, e, qs).value)
    decreases |qs|
  {
    if qs != [] { SpendAllGrows(seal, Spent(e, qs[0]), qs[1..]); }
  }

  // Exactly what undoing a series of spends brings back: everything but the DAA score and
  // the encoding version, which stay at a later value.
  function Restored(e: Entry, qs: seq<Request>): Entry {
    if qs == [] then e
    else e.(lastDaa := Before(qs[0].daa), latest := e.latest.(version := Last(qs).state.version))
  }

  lemma {:induction false} UndoRestores(seal: Seal, e: Entry, qs: seq<Request>)
    requires Keyed(e) && SpendAll(seal, e, qs).Ok?
    ensures var f := SpendAll(seal, e, qs).value;
            |qs| <= |f.history| && Undo(f, |qs|) == Restored(e, qs)
    decreases |qs|
  {
    SpendAllGrows(seal, e, qs);
    if qs != [] {
      var e1, f, n := Spent(e, qs[0]), SpendAll(seal, e, qs).value, |qs| - 1;
      UndoRestores(seal, e1, qs[1..]);
      UndoSplit(f, n, 1);
      var g := Restored(e1, qs[1..]);
      assert Undo(g, 1) == UndoOne(g);
      assert g.history == e.history + [SpendOf(e, qs[0])] && g.receipts == e.receipts + [qs[0].receipt];
      assert Last(qs) == if n == 0 then qs[0] else Last(qs[1..]);
    }
  }

  // The property as documented (everything but the DAA score comes back) holds exactly when
  // the last state keeps the encoding version.
  lemma {:induction false} UndoRestoresAllButDaaIff(seal: Seal, e: Entry, qs: seq<Request>)
    requires Keyed(e) && SpendAll(seal, e, qs).Ok? && qs != []
    ensures |qs| <= |SpendAll(seal, e, qs).value.history|
    ensures Undo(SpendAll(seal, e, qs).value, |qs|).(lastDaa := e.lastDaa) == e
            <==> Last(qs).state.version == e.latest.version
  {
    UndoRestores(seal, e, qs);
  }

  // A freshly opened entry, and a spend of it to the next state.
  function FirstEntry(version: u16, daa: u64): Entry {
    Opened(Fill(1), KaspaMainnet, Fill(2), FirstState(version, 4), Outpoint(Fill(5), 0), daa)
  }

  function FirstState(version: u16, digest: byte): StateCommitment {
    StateCommitment(version, KaspaMainnet, Fill(1), Fill(3), Fill(digest), Any)
  }

  function FirstSpend(version: u16, daa: u64): Request {
    Request(Fill(7), Outpoint(Fill(5), 0), Outpoint(Fill(8), 0), FirstState(version, 6), daa, None, None)
  }

  lemma {:induction false} FirstSpendPasses(seal: Seal, version: u16, later: u16, start: u64, daa: u64)
    ensures Fresh(FirstEntry(version, start))
    ensures CheckSpend(seal, FirstEntry(version, start), FirstSpend(later, daa)).Pass?
  {
    FillDiffers(4, 6);
  }

  // It does fail: a spend to a state of another encoding version is accepted, and undoing it
  // brings back the old digest under the new version.
  lemma {:induction false} VersionIsNotRestored(seal: Seal) returns (e: Entry, q: Request)
    ensures Fresh(e) && CheckSpend(seal, e, q).Pass?
    ensures Undo(Spent(e, q), 1).(lastDaa := e.lastDaa) != e
  {
    e, q := FirstEntry(1, 0), FirstSpend(2, 0);
    FirstSpendPasses(seal, 1, 2, 0, 0);
    assert SpendAll(seal, e, [q]) == Ok(Spent(e, q)) by {
      assert SpendAll(seal, Spent(e, q), [q][1..]) == Ok(Spent(e, q));
    }
    UndoRestoresAllButDaaIff(seal, e, [q]);
  }

  // ---- only the surviving spends matter ----

  predicate AlikeAt(a: Entry, b: Entry, i: nat) {
    i < |a.history| && i < |b.history| ==> a.history[i].(certificate := None) == b.history[i].(certificate := None)
  }

  // Equal but for DAA score, encoding version and certificates.
  ghost predicate Alike(a: Entry, b: Entry) {
    && a == b.(lastDaa := a.lastDaa, latest := b.latest.(version := a.latest.version), history := a.history)
    && |a.history| == |b.history|
    && forall i: nat :: AlikeAt(a, b, i)
  }

  lemma {:induction false} SpendAlike(seal: Seal, a: Entry, b: Entry, q: Request)
    requires Alike(a, b)
    ensures CheckSpend(seal, a, q) == CheckSpend(seal, b, q)
    ensures Alike(Spent(a, q), Spent(b, q))
  {
    var c, d := Spent(a, q), Spent(b, q);
    forall i: nat ensures AlikeAt(c, d, i) { assert AlikeAt(a, b, i); }
  }

  lemma {:induction false} UndoAlike(a: Entry, b: Entry, k: nat)
    requires Alike(a, b) && k <= |a.history|
    ensures Alike(Undo(a, k), Undo(b, k))
    decreases k
  {
    if k != 0 {
      var c, d := UndoOne(a), UndoOne(b);
      assert AlikeAt(a, b, |a.history| - 1);
      forall i: nat ensures AlikeAt(c, d, i) { assert AlikeAt(a, b, i); }
      UndoAlike(c, d, k - 1);
    }
  }

  lemma {:induction false} AlikeTransitive(a: Entry, b: Entry, c: Entry)
    requires Alike(a, b) && Alike(b, c)
    ensures Alike(a, c)
  {
    forall i: nat ensures AlikeAt(a, c, i) { assert AlikeAt(a, b, i) && AlikeAt(b, c, i); }
  }

  // The spends that a run leaves standing, oldest first.
  function Survivors(seal: Seal, e: Entry, ops: seq<Op>, stack: seq<Request>): seq<Request>
    decreases |ops|
  {
    if ops == [] then stack
    else
      var kept :=
        match ops[0]
        case DoSpend(q) => if CheckSpend(seal, e, q).Pass? then stack + [q] else stack
        case DoRollback(k) => if k <= |stack| then stack[..|stack| - k] else stack
        case DoCertify(_, _) => stack;
      Survivors(seal, After(seal, e, ops[0]), ops[1..], kept)
  }

  lemma {:induction false} SpendAllAppend(seal: Seal, e: Entry, p: seq<Request>, q: seq<Request>)
    ensures SpendAll(seal, e, p + q)
            == match SpendAll(seal, e, p) case Ok(f) => SpendAll(seal, f, q) case Err(x) => Err(x)
    decreases |p|
  {
    if p == [] {
      assert p + q == q;
    } else {
      assert (p + q)[0] == p[0] && (p + q)[1..] == p[1..] + q;
      if ApplySpend(seal, e, p[0]).Ok? { SpendAllAppend(seal, Spent(e, p[0]), p[1..], q); }
    }
  }

  ghost predicate Explained(seal: Seal, base: Entry, e: Entry, stack: seq<Request>) {
    && SpendAll(seal, base, stack).Ok?
    && Alike(e, SpendAll(seal, base, stack).value)
  }

  lemma {:induction false} SpendExplained(seal: Seal, base: Entry, e: Entry, stack: seq<Request>, q: Request)
    requires Explained(seal, base, e, stack) && CheckSpend(seal, e, q).Pass?
    ensures Explained(seal, base, Spent(e, q), stack + [q])
  {
    var f := SpendAll(seal, base, stack).value;
    SpendAlike(seal, e, f, q);
    SpendAllAppend(seal, base, stack, [q]);
    assert SpendAll(seal, Spent(f, q), [q][1..]) == Ok(Spent(f, q));
  }

  // Undoing the last k of a series of spends restores the entry after the others.
  lemma {:induction false} UndoPartway(seal: Seal, e: Entry, qs: seq<Request>, k: nat)
    requires Keyed(e) && SpendAll(seal, e, qs).Ok? && k <= |qs|
    ensures var f, mid := SpendAll(seal, e, qs).value, SpendAll(seal, e, qs[..|qs| - k]);
            && k <= |f.history| && mid.Ok? && Undo(f, k) == Restored(mid.value, qs[|qs| - k..])
  {
    var p, q := qs[..|qs| - k], qs[|qs| - k..];
    assert p + q == qs;
    SpendAllAppend(seal, e, p, q);
    SpendAllGrows(seal, e, p);
    UndoRestores(seal, SpendAll(seal, e, p).value, q);
  }

  lemma {:induction false} UndoExplained(seal: Seal, base: Entry, e: Entry, stack: seq<Request>, k: nat)
    requires Keyed(base) && Explained(seal, base, e, stack) && k <= |stack| && k <= |e.history|
    ensures Explained(seal, base, Undo(e, k), stack[..|stack| - k])
  {
    var f := SpendAll(seal, base, stack).value;
    UndoPartway(seal, base, stack, k);
    var g := SpendAll(seal, base, stack[..|stack| - k]).value;
    UndoAlike(e, f, k);
    assert Alike(Restored(g, stack[|stack| - k..]), g);
    AlikeTransitive(Undo(e, k), Undo(f, k), g);
  }

  lemma {:induction false} CertifyExplained(
    seal: Seal, base: Entry, e: Entry, stack: seq<Request>, r: Bytes32, c: Certificate)
    requires Explained(seal, base, e, stack) && RecordCertificate(e, r, c).Ok?
    ensures Explained(seal, base, RecordCertificate(e, r, c).value, stack)
  {
    var f := RecordCertificate(e, r, c).value;
    assert Alike(f, e);
    AlikeTransitive(f, e, SpendAll(seal, base, stack).value);
  }

  // The history never gets shorter than n.
  ghost predicate StaysAtLeast(seal: Seal, e: Entry, ops: seq<Op>, n: nat)
    decreases |ops|
  {
    |e.history| >= n && (ops == [] || StaysAtLeast(seal, After(seal, e, ops[0]), ops[1..], n))
  }

  lemma {:induction false} NeverBelowZero(seal: Seal, e: Entry, ops: seq<Op>)
    ensures StaysAtLeast(seal, e, ops, 0)
    decreases |ops|
  {
    if ops != [] { NeverBelowZero(seal, After(seal, e, ops[0]), ops[1..]); }
  }

  // A rollback that stays above the base undoes only spends on the stack.
  lemma {:induction false} RollbackExplained(seal: Seal, base: Entry, e: Entry, stack: seq<Request>, k: nat)
    requires Keyed(base) && Explained(seal, base, e, stack)
    requires |After(seal, e, DoRollback(k)).history| >= |base.history|
    ensures Explained(seal, base, After(seal, e, DoRollback(k)), if k <= |stack| then stack[..|stack| - k] else stack)
  {
    SpendAllGrows(seal, base, stack);
    if k <= |e.history| {
      UndoSplit(e, k, 0);
      UndoExplained(seal, base, e, stack, k);
    }
  }

  lemma {:induction false} ExplainedAlong(seal: Seal, base: Entry, e: Entry, ops: seq<Op>, stack: seq<Request>)
    requires Keyed(base) && Explained(seal, base, e, stack) && StaysAtLeast(seal, e, ops, |base.history|)
    ensures Explained(seal, base, Run(seal, e, ops), Survivors(seal, e, ops, stack))
    decreases |ops|
  {
    if ops != [] {
      var f := After(seal, e, ops[0]);
      match ops[0] {
        case DoSpend(q) =>
          if CheckSpend(seal, e, q).Pass? {
            SpendExplained(seal, base, e, stack, q);
            ExplainedAlong(seal, base, f, ops[1..], stack + [q]);
          } else {
            ExplainedAlong(seal, base, f, ops[1..], stack);
          }
        case DoRollback(k) =>
          RollbackExplained(seal, base, e, stack, k);
          ExplainedAlong(seal, base, f, ops[1..], if k <= |stack| then stack[..|stack| - k] else stack);
        case DoCertify(r, c) =>
          if RecordCertificate(e, r, c).Ok? { CertifyExplained(seal, base, e, stack, r, c); }
          ExplainedAlong(seal, base, f, ops[1..], stack);
      }
    }
  }

  // Any interleaving ends where applying just its surviving spends ends, up to DAA score,
  // encoding version and certificates.
  lemma {:induction false} OnlySurvivorsMatter(seal: Seal, base: Entry, ops: seq<Op>)
    requires Fresh(base)
    ensures var standing := SpendAll(seal, base, Survivors(seal, base, ops, []));
            standing.Ok? && Alike(Run(seal, base, ops), standing.value)
  {
    NeverBelowZero(seal, base, ops);
    ExplainedAlong(seal, base, base, ops, []);
  }

  // After any interleaving that leaves the spends of an entry standing, rolling back to as
  // many spends gives the entry back, up to DAA score, encoding version and certificates.
  lemma {:induction false} ReturnsAlike(seal: Seal, e: Entry, ops: seq<Op>)
    requires Keyed(e) && StaysAtLeast(seal, e, ops, |e.history|)
    ensures var f := Run(seal, e, ops);
            |f.history| >= |e.history| && Alike(Undo(f, |f.history| - |e.history|), e)
  {
    var f, stack := Run(seal, e, ops), Survivors(seal, e, ops, []);
    ExplainedAlong(seal, e, e, ops, []);
    SpendAllGrows(seal, e, stack);
    UndoExplained(seal, e, f, stack, |stack|);
    assert stack[..0] == [];
  }
}
