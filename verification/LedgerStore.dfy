/**
 The two indexers: one keeps entries in memory, the other reads an entry from its record
 before every operation and writes it back after. Reading every entry back from bytes is a
 restart before every operation, so equality of the two says restarts are invisible.
 */
module LedgerStore {
  import opened Bytes
  import opened Core
  import opened Ledger
  import opened LedgerRuns
  import opened LedgerRecord

  datatype Command =
    | Open(chain: ChainId, covenant: Bytes32, lineage: Bytes32, initial: StateCommitment, at: Outpoint, daa: u64)
    | On(covenant: Bytes32, op: Op)

  type Memory = map<Bytes32, Entry>
  type Store = map<Bytes32, Bytes>

  // ---- the in-memory indexer ----

  function MemoryStep(seal: Seal, m: Memory, c: Command): (Memory, Outcome<IndexerError>) {
    match c
    case Open(chain, covenant, lineage, initial, at, daa) =>
      if covenant in m then (m, Fail(AlreadyIndexed))
      else if initial.chain != chain then (m, Fail(ChainMismatch))
      else if initial.covenant != covenant then (m, Fail(LineageMismatch))
      else (m[covenant := Opened(covenant, chain, lineage, initial, at, daa)], Pass)
    case On(covenant, op) =>
      if covenant !in m then (m, Fail(NotIndexed))
      else
        match Step(seal, m[covenant], op)
        case Err(x) => (m, Fail(x))
        case Ok(f) => (m[covenant := f], Pass)
  }

  // ---- the persistent indexer, over any record format ----

  datatype Format = Format(enc: Entry -> Option<Bytes>, dec: Bytes -> Option<Entry>)

  function Load(f: Format, s: Store, covenant: Bytes32): Result<Option<Entry>, IndexerError> {
    if covenant !in s then Ok(None)
    else
      match f.dec(s[covenant])
      case None => Err(Storage)
      case Some(e) => Ok(Some(e))
  }

  function Save(f: Format, s: Store, e: Entry): (Store, Outcome<IndexerError>) {
    match f.enc(e)
    case None => (s, Fail(CertificateInvalid))
    case Some(bytes) => (s[e.covenant := bytes], Pass)
  }

  function StoreStep(seal: Seal, f: Format, s: Store, c: Command): (Store, Outcome<IndexerError>) {
    match Load(f, s, c.covenant)
    case Err(x) => (s, Fail(x))
    case Ok(found) =>
      match c
      case Open(chain, covenant, lineage, initial, at, daa) =>
        if found.Some? then (s, Fail(AlreadyIndexed))
        else if initial.chain != chain then (s, Fail(ChainMismatch))
        else if initial.covenant != covenant then (s, Fail(LineageMismatch))
        else Save(f, s, Opened(covenant, chain, lineage, initial, at, daa))
      case On(covenant, op) =>
        if found.None? then (s, Fail(NotIndexed))
        else
          match Step(seal, found.value, op)
          case Err(x) => (s, Fail(x))
          case Ok(e) => Save(f, s, e)
  }

  // ---- simulation ----

  predicate Reopens(f: Format, e: Entry) { f.enc(e).Some? && f.dec(f.enc(e).value) == Some(e) }

  predicate MirrorsAt(f: Format, m: Memory, s: Store, k: Bytes32) {
    (k in m <==> k in s) && (k in m && k in s ==> f.dec(s[k]) == Some(m[k]) && m[k].covenant == k)
  }

  ghost predicate Mirrors(f: Format, m: Memory, s: Store) { forall k: Bytes32 :: MirrorsAt(f, m, s, k) }

  lemma {:induction false} StepKeepsKey(seal: Seal, e: Entry, op: Op)
    requires Step(seal, e, op).Ok?
    ensures Step(seal, e, op).value.covenant == e.covenant
  {
    if op.DoRollback? { UndoKeepsKey(e, op.depth); }
  }

  lemma {:induction false} UndoKeepsKey(e: Entry, k: nat)
    requires k <= |e.history|
    ensures Undo(e, k).covenant == e.covenant
    decreases k
  {
    if k != 0 { UndoKeepsKey(UndoOne(e), k - 1); }
  }

  // One command: same result, and the store goes on mirroring the memory.
  lemma {:induction false} StepMirrors(seal: Seal, f: Format, m: Memory, s: Store, c: Command)
    requires Mirrors(f, m, s)
    requires c.covenant in MemoryStep(seal, m, c).0 ==> Reopens(f, MemoryStep(seal, m, c).0[c.covenant])
    ensures StoreStep(seal, f, s, c).1 == MemoryStep(seal, m, c).1
    ensures Mirrors(f, MemoryStep(seal, m, c).0, StoreStep(seal, f, s, c).0)
  {
    var m', s' := MemoryStep(seal, m, c).0, StoreStep(seal, f, s, c).0;
    assert MirrorsAt(f, m, s, c.covenant);
    if c.On? && c.covenant in m && Step(seal, m[c.covenant], c.op).Ok? { StepKeepsKey(seal, m[c.covenant], c.op); }
    forall k: Bytes32 ensures MirrorsAt(f, m', s', k) { assert MirrorsAt(f, m, s, k); }
  }

  // ---- structurally valid runs keep every entry readable ----

  ghost predicate DigestAt(h: seq<Spend>, i: nat) { i < |h| ==> h[i].resultingDigest != ZERO32 }

  ghost predicate Live(seal: Seal, base: Entry, e: Entry) {
    && Sound(seal, base, e)
    && ValidCommitment(base.latest) && ValidCommitment(e.latest)
    && forall i: nat :: DigestAt(e.history, i)
  }

  predicate ValidOp(op: Op) { op.DoSpend? ==> ValidCommitment(op.request.state) }

  lemma {:induction false} UndoOneLive(seal: Seal, base: Entry, e: Entry)
    requires Live(seal, base, e) && e.history != []
    ensures Live(seal, base, UndoOne(e))
  {
    UndoOneSound(seal, base, e);
    var n := |e.history| - 1;
    assert SpendAt(seal, StartOf(base), e.history, n);
    if n > 0 { assert DigestAt(e.history, n - 1); }
    forall i: nat ensures DigestAt(UndoOne(e).history, i) { assert DigestAt(e.history, i); }
  }

  lemma {:induction false} UndoLive(seal: Seal, base: Entry, e: Entry, k: nat)
    requires Live(seal, base, e) && k <= |e.history|
    ensures Live(seal, base, Undo(e, k))
    decreases k
  {
    if k != 0 {
      var f := UndoOne(e);
      assert Live(seal, base, f) by { UndoOneLive(seal, base, e); }
      assert Undo(e, k) == Undo(f, k - 1);
      UndoLive(seal, base, f, k - 1);
    }
  }

  lemma {:induction false} StepLive(seal: Seal, base: Entry, e: Entry, op: Op)
    requires Live(seal, base, e) && ValidOp(op) && Step(seal, e, op).Ok?
    ensures Live(seal, base, Step(seal, e, op).value)
    ensures |Step(seal, e, op).value.history| <= |e.history| + 1
  {
    var f := Step(seal, e, op).value;
    match op {
      case DoSpend(q) =>
        SpendSound(seal, base, e, q);
        forall i: nat ensures DigestAt(f.history, i) { assert DigestAt(e.history, i); }
      case DoRollback(k) =>
        UndoLive(seal, base, e, k);
        UndoSplit(e, k, 0);
      case DoCertify(r, c) =>
        CertifySound(seal, base, e, r, c);
        forall i: nat ensures DigestAt(f.history, i) { assert DigestAt(e.history, i); }
    }
  }

  ghost predicate Healthy(seal: Seal, e: Entry, n: nat) {
    |e.history| <= n && exists base: Entry :: Live(seal, base, e)
  }

  ghost predicate HealthyAt(seal: Seal, m: Memory, n: nat, k: Bytes32) { k in m ==> Healthy(seal, m[k], n) }

  predicate ValidCommand(c: Command) {
    match c
    case Open(_, _, _, initial, _, _) => ValidCommitment(initial)
    case On(_, op) => ValidOp(op)
  }

  lemma {:induction false} OpenHealthy(seal: Seal, c: Command, n: nat)
    requires c.Open? && ValidCommand(c) && c.initial.chain == c.chain && c.initial.covenant == c.covenant
    ensures Healthy(seal, Opened(c.covenant, c.chain, c.lineage, c.initial, c.at, c.daa), n)
  {
    var e := Opened(c.covenant, c.chain, c.lineage, c.initial, c.at, c.daa);
    assert Live(seal, e, e);
  }

  lemma {:induction false} StepHealthy(seal: Seal, m: Memory, n: nat, c: Command, k: Bytes32)
    requires HealthyAt(seal, m, n, k) && ValidCommand(c)
    ensures HealthyAt(seal, MemoryStep(seal, m, c).0, n + 1, k)
  {
    if c.Open? && k == c.covenant && MemoryStep(seal, m, c).1.Pass? {
      OpenHealthy(seal, c, n + 1);
    } else if c.On? && k == c.covenant && k in m && Step(seal, m[k], c.op).Ok? {
      var base: Entry :| Live(seal, base, m[k]);
      StepLive(seal, base, m[k], c.op);
    } else if k in m {
      assert MemoryStep(seal, m, c).0[k] == m[k];
    }
  }

  // ---- whole runs ----

  function MemoryRun(seal: Seal, m: Memory, cs: seq<Command>): (Memory, seq<Outcome<IndexerError>>)
    decreases |cs|
  {
    if cs == [] then (m, [])
    else
      var (m1, r) := MemoryStep(seal, m, cs[0]);
      var (m2, rs) := MemoryRun(seal, m1, cs[1..]);
      (m2, [r] + rs)
  }

  function StoreRun(seal: Seal, f: Format, s: Store, cs: seq<Command>): (Store, seq<Outcome<IndexerError>>)
    decreases |cs|
  {
    if cs == [] then (s, [])
    else
      var (s1, r) := StoreStep(seal, f, s, cs[0]);
      var (s2, rs) := StoreRun(seal, f, s1, cs[1..]);
      (s2, [r] + rs)
  }

  // Every healthy entry with fewer than `limit` spends can be written and read back.
  ghost predicate Reliable(seal: Seal, f: Format, limit: nat) {
    forall e: Entry, n: nat :: n < limit && Healthy(seal, e, n) ==> Reopens(f, e)
  }

  lemma {:induction false} RunMirrors(seal: Seal, f: Format, limit: nat, m: Memory, s: Store, n: nat, cs: seq<Command>)
    requires Reliable(seal, f, limit) && n + |cs| < limit
    requires Mirrors(f, m, s) && forall k: Bytes32 :: HealthyAt(seal, m, n, k)
    requires forall i :: 0 <= i < |cs| ==> ValidCommand(cs[i])
    ensures StoreRun(seal, f, s, cs).1 == MemoryRun(seal, m, cs).1
    ensures Mirrors(f, MemoryRun(seal, m, cs).0, StoreRun(seal, f, s, cs).0)
    decreases |cs|
  {
    if cs != [] {
      var c := cs[0];
      var m1, later := MemoryStep(seal, m, c).0, n + 1;
      forall k: Bytes32 ensures HealthyAt(seal, m1, later, k) {
        assert HealthyAt(seal, m, n, k);
        StepHealthy(seal, m, n, c, k);
      }
      assert HealthyAt(seal, m1, later, c.covenant);
      StepMirrors(seal, f, m, s, c);
      RunMirrors(seal, f, limit, m1, StoreStep(seal, f, s, c).0, later, cs[1..]);
    }
  }

  // ---- the format of the program ----

  function Records(seal: Seal): Format { Format(EncodeEntry, (s: Bytes) => DecodeEntry(seal, s)) }

  lemma {:induction false} RecordsReliable(seal: Seal)
    ensures Reliable(seal, Records(seal), 0x1_0000_0000)
  {
    forall e: Entry, n: nat | n < 0x1_0000_0000 && Healthy(seal, e, n) ensures Reopens(Records(seal), e) {
      var base: Entry :| Live(seal, base, e);
      ReopenIff(seal, base, e);
    }
  }

  lemma {:induction false} RestartOver(seal: Seal, f: Format, cs: seq<Command>)
    requires Reliable(seal, f, 0x1_0000_0000) && |cs| < 0x1_0000_0000
    requires forall i :: 0 <= i < |cs| ==> ValidCommand(cs[i])
    ensures StoreRun(seal, f, map[], cs).1 == MemoryRun(seal, map[], cs).1
    ensures Mirrors(f, MemoryRun(seal, map[], cs).0, StoreRun(seal, f, map[], cs).0)
  {
    RunMirrors(seal, f, 0x1_0000_0000, map[], map[], 0, cs);
  }

  // From empty, over any commands with structurally valid states, the persistent indexer
  // answers exactly as the one in memory and every record reads back as the entry in memory.
  lemma {:induction false} RestartIsInvisible(seal: Seal, cs: seq<Command>)
    requires |cs| < 0x1_0000_0000
    requires forall i :: 0 <= i < |cs| ==> ValidCommand(cs[i])
    ensures StoreRun(seal, Records(seal), map[], cs).1 == MemoryRun(seal, map[], cs).1
    ensures Mirrors(Records(seal), MemoryRun(seal, map[], cs).0, StoreRun(seal, Records(seal), map[], cs).0)
  {
    RecordsReliable(seal);
    RestartOver(seal, Records(seal), cs);
  }
}
