/**
 `InMemoryIndexer`: the maps it keeps and the methods that change them in place, each
 proved equal to the function of the entry it performs.
 */
module Indexer {
  import opened Bytes
  import opened Core
  import opened Ledger
  import opened LedgerStore
  import opened Lanes
  import opened Rebuild

  // `apply_spend_to_entry`
  method ApplySpendToEntry(seal: Seal, entry: Entry, q: Request) returns (r: Result<Entry, IndexerError>)
    ensures r == ApplySpend(seal, entry, q)
  {
    if q.continuation.Some? && !CompleteContinuation(q.continuation.value) { return Err(ContinuationIncomplete); }
    if q.receipt in entry.receipts { return Err(IndexerError.Replay); }
    if entry.chain != q.state.chain { return Err(ChainMismatch); }
    if entry.covenant != q.state.covenant { return Err(Invariant); }
    if entry.latest.asset != q.state.asset { return Err(Invariant); }
    if entry.open != Some(q.spent) { return Err(Invariant); }
    var previousDigest, previousPolicy := entry.latest.digest, entry.latest.policy;
    if previousDigest == q.state.digest { return Err(Invariant); }
    if q.migration.Some? {
      if q.continuation.None? { return Err(MigrationInvalid); }
      if !ValidMigration(seal, q.migration.value, previousPolicy, q.state.policy, previousDigest, q.state.digest,
                         q.continuation.value.transitionDigest)
      {
        return Err(MigrationInvalid);
      }
    }
    var e := entry;
    e := e.(open := Some(q.created));
    e := e.(latest := q.state);
    e := e.(lastDaa := q.daa);
    e := e.(receipts := e.receipts + [q.receipt]);
    e := e.(history := e.history + [Spend(q.daa, q.spent, q.created, previousDigest, q.state.digest, previousPolicy,
                                          q.state.policy, q.receipt, q.continuation, q.migration, None)]);
    return Ok(e);
  }

  class InMemoryIndexer {
    const seal: Seal
    var entries: Memory
    var lanes: map<Bytes32, Lane>
    var tags: map<Bytes32, Bytes32>

    constructor (seal: Seal)
      ensures this.seal == seal && entries == map[] && lanes == map[] && tags == map[]
    {
      this.seal := seal;
      entries, lanes, tags := map[], map[], map[];
    }

    method OpenCovenant(chain: ChainId, covenant: Bytes32, lineage: Bytes32, initial: StateCommitment, at: Outpoint,
                        daa: u64)
      returns (r: Outcome<IndexerError>)
      modifies this`entries
      ensures (entries, r) == MemoryStep(seal, old(entries), Open(chain, covenant, lineage, initial, at, daa))
    {
      if covenant in entries { return Fail(AlreadyIndexed); }
      if initial.chain != chain { return Fail(ChainMismatch); }
      if initial.covenant != covenant { return Fail(LineageMismatch); }
      entries := entries[covenant := Opened(covenant, chain, lineage, initial, at, daa)];
      return Pass;
    }

    // The three ways to spend differ only in the proofs they pass.
    method SpendWith(covenant: Bytes32, q: Request) returns (r: Outcome<IndexerError>)
      modifies this`entries
      ensures (entries, r) == MemoryStep(seal, old(entries), On(covenant, DoSpend(q)))
    {
      if covenant !in entries { return Fail(NotIndexed); }
      var applied := ApplySpendToEntry(seal, entries[covenant], q);
      if applied.Err? { return Fail(applied.error); }
      entries := entries[covenant := applied.value];
      return Pass;
    }

    method RollbackSpends(covenant: Bytes32, depth: nat) returns (r: Outcome<IndexerError>)
      modifies this`entries
      ensures (entries, r) == MemoryStep(seal, old(entries), On(covenant, DoRollback(depth)))
    {
      if covenant !in entries { return Fail(NotIndexed); }
      var e := entries[covenant];
      if depth > |e.history| { return Fail(RollbackTooDeep); }
      for done := 0 to depth
        invariant depth - done <= |e.history|
        invariant Undo(e, depth - done) == Undo(old(entries)[covenant], depth)
      {
        ghost var undone := UndoOne(e);
        assert Undo(e, depth - done) == Undo(undone, depth - done - 1);
        var last := Last(e.history);
        e := e.(history := e.history[..|e.history| - 1],
                open := Some(last.spent),
                latest := e.latest.(digest := last.previousDigest, policy := last.previousPolicy),
                receipts := if e.receipts == [] then [] else e.receipts[..|e.receipts| - 1],
                lastDaa := if last.daa == 0 then 0 else last.daa - 1);
        assert e == undone;
      }
      entries := entries[covenant := e];
      return Pass;
    }

    method RecordAuditCertificate(covenant: Bytes32, receipt: Bytes32, c: Certificate) returns (r: Outcome<IndexerError>)
      modifies this`entries
      ensures r == MemoryStep(seal, old(entries), On(covenant, DoCertify(receipt, c))).1
      ensures entries == MemoryStep(seal, old(entries), On(covenant, DoCertify(receipt, c))).0
    {
      if covenant !in entries { return Fail(NotIndexed); }
      var e := entries[covenant];
      if !ValidCertificate(c) { return Fail(CertificateInvalid); }
      var i := 0;
      while i < |e.history| && e.history[i].receipt != receipt
        invariant 0 <= i <= |e.history|
        invariant forall j :: 0 <= j < i ==> e.history[j].receipt != receipt
      {
        i := i + 1;
      }
      assert i == FindSpend(e.history, receipt);
      if i == |e.history| { return Fail(SpendReceiptNotIndexed); }
      var existing := e.history[i].certificate;
      if existing.Some? {
        if existing.value != c { return Fail(CertificateInvalid); }
        assert entries[covenant := e] == entries;
        return Pass;
      }
      entries := entries[covenant := e.(history := e.history[i := e.history[i].(certificate := Some(c))])];
      return Pass;
    }

    // `rebuild_from`: progress made before an error stays in the index.
    method RebuildCovenant(s: Source, plan: RebuildPlan) returns (r: Result<Summary, IndexerError>)
      modifies this`entries
      ensures var covenant := plan.checkpoint.covenant;
              var x := if covenant in old(entries) then Some(old(entries)[covenant]) else None;
              var (y, answer) := RebuildFrom(seal, s, plan, x);
              && r == answer
              && entries == match y case None => old(entries) case Some(e) => old(entries)[covenant := e]
    {
      var ck := plan.checkpoint;
      if s.chain.Err? { r := Err(s.chain.error); RestoreSame(ck.covenant); return; }
      if s.chain.value != ck.chain { r := Err(ChainMismatch); RestoreSame(ck.covenant); return; }
      if ck.initial.chain != ck.chain { r := Err(ChainMismatch); RestoreSame(ck.covenant); return; }
      if ck.initial.covenant != ck.covenant { r := Err(Invariant); RestoreSame(ck.covenant); return; }
      ghost var x := if ck.covenant in entries then Some(entries[ck.covenant]) else None;
      var newlyOpened := false;
      if ck.covenant in entries {
        var fits := CheckExisting(entries[ck.covenant], ck);
        if fits.Fail? { r := Err(fits.error); RestoreSame(ck.covenant); return; }
      } else {
        var opening := OpenCovenant(ck.chain, ck.covenant, ck.lineage, ck.initial, ck.at, ck.daa);
        assert opening.Pass?;
        newlyOpened := true;
      }
      ghost var start := entries[ck.covenant];
      var applied, skipped := 0, 0;
      for i := 0 to |plan.spends|
        invariant ck.covenant in entries
        invariant entries == old(entries)[ck.covenant := entries[ck.covenant]]
        invariant Walk(seal, s, ck, start, plan.spends)
                  == Ahead(Walk(seal, s, ck, entries[ck.covenant], plan.spends[i..]), applied, skipped)
      {
        var p := plan.spends[i];
        ghost var rest := plan.spends[i..];
        assert rest[0] == p && rest[1..] == plan.spends[i + 1..];
        var daa := CheckPlanned(s, ck, p);
        if daa.Err? { return Err(daa.error); }
        if p.receipt in entries[ck.covenant].receipts {
          skipped := skipped + 1;
        } else {
          var done := SpendWith(ck.covenant, RequestOf(p, daa.value));
          if done.Fail? { return Err(done.error); }
          applied := applied + 1;
        }
      }
      var end := entries[ck.covenant];
      if end.open.None? { return Err(Invariant); }
      return Ok(Summary(newlyOpened, applied, skipped, end.open.value, end.lastDaa));
    }

    lemma RestoreSame(covenant: Bytes32)
      ensures covenant in entries ==> entries[covenant := entries[covenant]] == entries
    {
    }

    method RegisterLane(l: Lane) returns (r: Outcome<IndexerError>)
      modifies this`lanes, this`tags
      ensures r == if l.covenant !in entries then Fail(NotIndexed) else ValidateLane(entries[l.covenant], l)
      ensures LaneIndex(lanes, tags)
              == if r.Pass? then Register(LaneIndex(old(lanes), old(tags)), l) else LaneIndex(old(lanes), old(tags))
    {
      if l.covenant !in entries { return Fail(NotIndexed); }
      r := ValidateLane(entries[l.covenant], l);
      if r.Fail? { return; }
      var previous := if l.id in lanes then Some(lanes[l.id]) else None;
      lanes := lanes[l.id := l];
      if previous.Some? && previous.value.tag.Some? { tags := tags - {previous.value.tag.value}; }
      if l.tag.Some? { tags := tags[l.tag.value := l.id]; }
    }

    method LaneByScanTag(t: Bytes32) returns (r: Option<Lane>)
      ensures r == ByTag(LaneIndex(lanes, tags), t)
      ensures Exact(LaneIndex(lanes, tags)) ==> IsScan(lanes, t, r)
    {
      assert Exact(LaneIndex(lanes, tags)) ==> ExactAt(LaneIndex(lanes, tags), t);
      if t !in tags { return None; }
      var id := tags[t];
      return if id in lanes then Some(lanes[id]) else None;
    }
  }

  // A walk with the counts of the spends already handled.
  ghost function Ahead(w: Walked, applied: nat, skipped: nat): Walked {
    w.(applied := w.applied + applied, skipped := w.skipped + skipped)
  }
}
