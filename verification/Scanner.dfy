/**
 `ScanService` (rgk-sync): evidence is written before the cursor that says it is there, and
 any write may be the last one that reaches storage.
 */
module Scanner {
  import opened Bytes
  import opened Core

  datatype Record = Record(spent: Outpoint, txid: Bytes32, input: u32, daa: Option<u64>)

  datatype Cursor = Cursor(chain: ChainId, hash: Bytes32, daa: u64)

  datatype Batch = Batch(
    removed: seq<Bytes32>, added: seq<Bytes32>, lastDaa: Option<u64>, count: nat, records: seq<Record>)

  datatype SyncError = CursorChainMismatch | Reorg | MissingAddedDaa | RecordMismatch | StorageFailed | ChainFailed

  datatype Store = Store(cursor: Option<Cursor>, records: map<Outpoint, Record>)

  // What the outside world does during one tick: whether the cursor can be read, what the
  // backend answers, and how many writes reach storage before one fails.
  datatype World = World(
    readable: bool, current: Result<Cursor, SyncError>, scan: Cursor -> Result<Batch, SyncError>, writes: nat)

  datatype ScanTick = ScanTick(initialised: bool, start: Cursor, end: Cursor, added: nat, observed: nat)

  // ---- one tick ----

  function Write(m: map<Outpoint, Record>, rs: seq<Record>): map<Outpoint, Record> {
    if rs == [] then m else Write(m, rs[..|rs| - 1])[Last(rs).spent := Last(rs)]
  }

  function Min(a: nat, b: nat): nat { if a < b then a else b }

  // What the batch must look like before anything is written, and where the cursor goes.
  function EndOf(start: Cursor, b: Batch): Result<Cursor, SyncError> {
    if b.removed != [] then Err(Reorg)
    else if b.count != |b.records| then Err(RecordMismatch)
    else if b.added == [] then Ok(start)
    else if b.lastDaa.None? then Err(MissingAddedDaa)
    else Ok(Cursor(start.chain, Last(b.added), b.lastDaa.value))
  }

  function Commit(s: Store, start: Cursor, end: Cursor, b: Batch, writes: nat): (Store, Result<ScanTick, SyncError>) {
    var s1 := s.(records := Write(s.records, b.records[..Min(writes, |b.records|)]));
    if writes < |b.records| then (s1, Err(StorageFailed))
    else if end == start then (s1, Ok(ScanTick(false, start, end, |b.added|, b.count)))
    else if writes == |b.records| then (s1, Err(StorageFailed))
    else (s1.(cursor := Some(end)), Ok(ScanTick(false, start, end, |b.added|, b.count)))
  }

  function Tick(chain: ChainId, s: Store, w: World): (Store, Result<ScanTick, SyncError>) {
    if !w.readable then (s, Err(StorageFailed))
    else
      match s.cursor
      case None =>
        if w.current.Err? then (s, Err(w.current.error))
        else if w.writes == 0 then (s, Err(StorageFailed))
        else (s.(cursor := Some(w.current.value)), Ok(ScanTick(true, w.current.value, w.current.value, 0, 0)))
      case Some(start) =>
        if start.chain != chain then (s, Err(CursorChainMismatch))
        else
          match w.scan(start)
          case Err(x) => (s, Err(x))
          case Ok(b) =>
            match EndOf(start, b)
            case Err(x) => (s, Err(x))
            case Ok(end) => Commit(s, start, end, b, w.writes)
  }

  // The tick as the service performs it.
  class ScanService {
    const chain: ChainId
    var cursor: Option<Cursor>
    var records: map<Outpoint, Record>

    constructor (chain: ChainId)
      ensures this.chain == chain && cursor == None && records == map[]
    {
      this.chain := chain;
      cursor, records := None, map[];
    }

    function Stored(): Store
      reads this
    {
      Store(cursor, records)
    }

    method DoTick(w: World) returns (r: Result<ScanTick, SyncError>)
      modifies this
      ensures (Stored(), r) == Tick(chain, old(Stored()), w)
    {
      if !w.readable { return Err(StorageFailed); }
      if cursor.None? {
        if w.current.Err? { return Err(w.current.error); }
        if w.writes == 0 { return Err(StorageFailed); }
        cursor := Some(w.current.value);
        return Ok(ScanTick(true, w.current.value, w.current.value, 0, 0));
      }
      var start := cursor.value;
      if start.chain != chain { return Err(CursorChainMismatch); }
      var answer := w.scan(start);
      if answer.Err? { return Err(answer.error); }
      var batch := answer.value;
      if batch.removed != [] { return Err(Reorg); }
      if batch.count != |batch.records| { return Err(RecordMismatch); }
      var end := start;
      if batch.added != [] {
        if batch.lastDaa.None? { return Err(MissingAddedDaa); }
        end := Cursor(start.chain, Last(batch.added), batch.lastDaa.value);
      }
      for i := 0 to |batch.records|
        invariant i <= w.writes
        invariant cursor == old(cursor) && records == Write(old(records), batch.records[..i])
      {
        if i == w.writes { return Err(StorageFailed); }
        records := records[batch.records[i].spent := batch.records[i]];
        assert batch.records[..i + 1][..i] == batch.records[..i];
      }
      if end != start {
        if w.writes == |batch.records| { return Err(StorageFailed); }
        cursor := Some(end);
      }
      return Ok(ScanTick(false, start, end, |batch.added|, batch.count));
    }

    // `run_until_idle`, for as long as the world goes on answering.
    method RunUntilIdle(worlds: seq<World>, maxIdle: nat) returns (r: Option<Result<RunSummary, SyncError>>, n: nat)
      modifies this
      ensures n <= |worlds| && Stored() == Ticks(chain, old(Stored()), worlds[..n])
      ensures r.None? ==> n == |worlds|
      ensures r.Some? && r.value.Err? ==> n > 0 && Answer(chain, old(Stored()), worlds, n - 1) == Err(r.value.error)
      ensures r.Some? && r.value.Ok? ==>
                && r.value.value == Progressed(chain, old(Stored()), worlds[..n]).sum
                && r.value.value.ticks == n > 0
                && r.value.value.end == cursor
                && Progressed(chain, old(Stored()), worlds[..n]).idle >= maxIdle
      ensures BusyUntil(chain, old(Stored()), worlds, n, maxIdle)
    {
      ghost var s := Stored();
      var sum := NO_TICKS;
      var idle := 0;
      n := 0;
      assert worlds[..0] == [];
      while n < |worlds|
        invariant n <= |worlds|
        invariant Progress(Stored(), sum, idle) == Progressed(chain, s, worlds[..n]) && sum.ticks == n
        invariant Stored() == Ticks(chain, s, worlds[..n])
        invariant BusyUntil(chain, s, worlds, n, maxIdle) && (n == 0 || idle < maxIdle)
      {
        ghost var before := Progress(Stored(), sum, idle);
        var tick := DoTick(worlds[n]);
        OneMoreTick(chain, s, worlds, n, before, Stored(), tick);
        StaysBusy(chain, s, worlds, n, maxIdle);
        n := n + 1;
        if tick.Err? { return Some(Err(tick.error)), n; }
        var t := tick.value;
        sum := Added(sum, t);
        idle := if t.added == 0 && !t.initialised then idle + 1 else 0;
        if idle >= maxIdle { return Some(Ok(sum)), n; }
      }
      return None, n;
    }
  }

  // ---- runs ----

  function Ticks(chain: ChainId, s: Store, ws: seq<World>): Store {
    if ws == [] then s else Tick(chain, Ticks(chain, s, ws[..|ws| - 1]), Last(ws)).0
  }

  // The answer of the k-th tick of a run.
  function Answer(chain: ChainId, s: Store, ws: seq<World>, k: nat): Result<ScanTick, SyncError>
    requires k < |ws|
  {
    Tick(chain, Ticks(chain, s, ws[..k]), ws[k]).1
  }

  datatype RunSummary = RunSummary(ticks: nat, initialised: bool, added: nat, observed: nat, end: Option<Cursor>)

  const NO_TICKS := RunSummary(0, false, 0, 0, None)

  // Where a run stands: the store, the sums over its successful ticks, and how many ticks at
  // its end found nothing new.
  datatype Progress = Progress(store: Store, sum: RunSummary, idle: nat)

  function Added(sum: RunSummary, t: ScanTick): RunSummary {
    RunSummary(sum.ticks + 1, sum.initialised || t.initialised, sum.added + t.added, sum.observed + t.observed, Some(t.end))
  }

  // The progress after a tick that left this store and gave this answer.
  function Moved(p: Progress, store: Store, answer: Result<ScanTick, SyncError>): Progress {
    match answer
    case Err(_) => Progress(store, p.sum, p.idle)
    case Ok(t) => Progress(store, Added(p.sum, t), if t.added == 0 && !t.initialised then p.idle + 1 else 0)
  }

  function Next(chain: ChainId, p: Progress, w: World): Progress {
    var (store, answer) := Tick(chain, p.store, w);
    Moved(p, store, answer)
  }

  function Progressed(chain: ChainId, s: Store, ws: seq<World>): Progress {
    if ws == [] then Progress(s, NO_TICKS, 0) else Next(chain, Progressed(chain, s, ws[..|ws| - 1]), Last(ws))
  }

  // No shorter run of these ticks ended with enough idle ones.
  ghost predicate BusyUntil(chain: ChainId, s: Store, ws: seq<World>, n: nat, maxIdle: nat) {
    forall m: nat :: 0 < m < n && m <= |ws| ==> BusyAt(chain, s, ws, m, maxIdle)
  }

  predicate BusyAt(chain: ChainId, s: Store, ws: seq<World>, m: nat, maxIdle: nat)
    requires m <= |ws|
  {
    Progressed(chain, s, ws[..m]).idle < maxIdle
  }

  lemma StaysBusy(chain: ChainId, s: Store, ws: seq<World>, n: nat, maxIdle: nat)
    requires n < |ws| && BusyUntil(chain, s, ws, n, maxIdle)
    requires n == 0 || BusyAt(chain, s, ws, n, maxIdle)
    ensures BusyUntil(chain, s, ws, n + 1, maxIdle)
  {
  }

  // One turn of the loop.
  lemma {:induction false} OneMoreTick(chain: ChainId, s: Store, ws: seq<World>, n: nat, before: Progress, store: Store,
                                       answer: Result<ScanTick, SyncError>)
    requires n < |ws| && before == Progressed(chain, s, ws[..n]) && before.store == Ticks(chain, s, ws[..n])
    requires (store, answer) == Tick(chain, before.store, ws[n])
    ensures Progressed(chain, s, ws[..n + 1]) == Moved(before, store, answer)
    ensures Ticks(chain, s, ws[..n + 1]) == store
    ensures Answer(chain, s, ws, n) == answer
    ensures answer.Ok? ==> store.cursor == Some(answer.value.end)
  {
    assert ws[..n + 1][..n] == ws[..n] && Last(ws[..n + 1]) == ws[n];
    EndIsCursor(chain, before.store, ws[n]);
  }

  // A tick that succeeds leaves the cursor it reports.
  lemma EndIsCursor(chain: ChainId, s: Store, w: World)
    ensures Tick(chain, s, w).1.Ok? ==> Tick(chain, s, w).0.cursor == Some(Tick(chain, s, w).1.value.end)
  {
  }

  // A tick that fails, for whatever reason, leaves the cursor where it was.
  lemma FailureKeepsCursor(chain: ChainId, s: Store, w: World)
    ensures Tick(chain, s, w).1.Err? ==> Tick(chain, s, w).0.cursor == s.cursor
  {
  }

  // ---- a chain without reorgs ----

  datatype Block = Block(hash: Bytes32, daa: u64, spends: seq<Record>)

  function At(chain: ChainId, b: Block): Cursor { Cursor(chain, b.hash, b.daa) }

  predicate OnChain(blocks: seq<Block>, r: Record) { exists k :: 0 <= k < |blocks| && r in blocks[k].spends }

  ghost predicate SpentOnce(blocks: seq<Block>) {
    forall r, q :: OnChain(blocks, r) && OnChain(blocks, q) && r.spent == q.spent ==> r == q
  }

  function SpendsIn(blocks: seq<Block>): seq<Record> {
    if blocks == [] then [] else blocks[0].spends + SpendsIn(blocks[1..])
  }

  function Hashes(blocks: seq<Block>): seq<Bytes32> { seq(|blocks|, i requires 0 <= i < |blocks| => blocks[i].hash) }

  // The batch covers the blocks after i up to j, and carries all their spends and no others, in
  // any order.
  ghost predicate Covers(blocks: seq<Block>, i: nat, j: nat, b: Batch) {
    && i <= j < |blocks|
    && b.removed == [] && b.added == Hashes(blocks[i + 1..j + 1])
    && (j > i ==> b.lastDaa == Some(blocks[j].daa))
    && (forall r :: r in b.records <==> r in SpendsIn(blocks[i + 1..j + 1])) && b.count == |b.records|
  }

  // The backend answers from the chain, or fails.
  ghost predicate Truthful(chain: ChainId, blocks: seq<Block>, w: World) {
    && (w.current.Ok? ==> exists i: nat :: i < |blocks| && w.current.value == At(chain, blocks[i]))
    && forall i: nat :: i < |blocks| ==> TruthfulFrom(chain, blocks, w, i)
  }

  ghost predicate TruthfulFrom(chain: ChainId, blocks: seq<Block>, w: World, i: nat)
    requires i < |blocks|
  {
    w.scan(At(chain, blocks[i])).Ok? ==> exists j: nat :: Covers(blocks, i, j, w.scan(At(chain, blocks[i])).value)
  }

  // ---- safety ----

  predicate Recorded(s: Store, r: Record) { r.spent in s.records && s.records[r.spent] == r }

  // The cursor is at block c, and every spend after block `first` up to c is recorded.
  ghost predicate CoveredTo(chain: ChainId, blocks: seq<Block>, first: nat, c: nat, s: Store) {
    && first <= c < |blocks|
    && s.cursor == Some(At(chain, blocks[c]))
    && forall k, r :: first < k <= c && r in blocks[k].spends ==> Recorded(s, r)
  }

  // Nothing is recorded that is not on the chain.
  ghost predicate Real(blocks: seq<Block>, s: Store) {
    forall o :: o in s.records ==> s.records[o].spent == o && OnChain(blocks, s.records[o])
  }

  lemma {:induction false} InSpends(blocks: seq<Block>, r: Record)
    ensures r in SpendsIn(blocks) <==> OnChain(blocks, r)
  {
    if blocks != [] {
      InSpends(blocks[1..], r);
      if r in SpendsIn(blocks[1..]) {
        var k :| 0 <= k < |blocks| - 1 && r in blocks[1..][k].spends;
        assert r in blocks[k + 1].spends;
      }
      if OnChain(blocks, r) {
        var k :| 0 <= k < |blocks| && r in blocks[k].spends;
        if k > 0 { assert r in blocks[1..][k - 1].spends; }
      }
    }
  }

  lemma {:induction false} WriteRecords(blocks: seq<Block>, m: map<Outpoint, Record>, rs: seq<Record>, r: Record)
    requires SpentOnce(blocks) && OnChain(blocks, r)
    requires forall q :: q in rs ==> OnChain(blocks, q)
    requires r in rs || (r.spent in m && m[r.spent] == r)
    ensures r.spent in Write(m, rs) && Write(m, rs)[r.spent] == r
  {
    if rs != [] {
      var init, last := rs[..|rs| - 1], Last(rs);
      assert rs == init + [last];
      if r != last { WriteRecords(blocks, m, init, r); }
    }
  }

  lemma {:induction false} WriteReal(blocks: seq<Block>, s: Store, rs: seq<Record>)
    requires Real(blocks, s) && forall q :: q in rs ==> OnChain(blocks, q)
    ensures Real(blocks, s.(records := Write(s.records, rs)))
  {
    if rs != [] {
      assert rs == rs[..|rs| - 1] + [Last(rs)];
      WriteReal(blocks, s, rs[..|rs| - 1]);
    }
  }

  lemma {:induction false} SliceOnChain(blocks: seq<Block>, i: nat, j: nat, r: Record)
    requires i <= j <= |blocks|
    ensures r in SpendsIn(blocks[i..j]) <==> exists k :: i <= k < j && r in blocks[k].spends
    ensures r in SpendsIn(blocks[i..j]) ==> OnChain(blocks, r)
  {
    InSpends(blocks[i..j], r);
    if OnChain(blocks[i..j], r) {
      var k :| 0 <= k < j - i && r in blocks[i..j][k].spends;
      assert r in blocks[i + k].spends;
    }
    if k :| i <= k < j && r in blocks[k].spends { assert r in blocks[i..j][k - i].spends; }
  }

  // Writing any prefix of a batch keeps what was covered.
  lemma {:induction false} PrefixKeeps(
    chain: ChainId, blocks: seq<Block>, first: nat, c: nat, s: Store, j: nat, b: Batch, n: nat)
    requires SpentOnce(blocks) && CoveredTo(chain, blocks, first, c, s) && Real(blocks, s)
    requires Covers(blocks, c, j, b) && n <= |b.records|
    ensures var t := s.(records := Write(s.records, b.records[..n]));
            && CoveredTo(chain, blocks, first, c, t) && Real(blocks, t)
            && (n == |b.records| ==> forall k, r :: first < k <= j && r in blocks[k].spends ==> Recorded(t, r))
  {
    var rs := b.records[..n];
    var t := s.(records := Write(s.records, rs));
    forall q | q in rs ensures OnChain(blocks, q) {
      assert q in b.records;
      SliceOnChain(blocks, c + 1, j + 1, q);
    }
    WriteReal(blocks, s, rs);
    forall k, r | first < k <= c && r in blocks[k].spends ensures Recorded(t, r) {
      assert OnChain(blocks, r) && Recorded(s, r);
      WriteRecords(blocks, s.records, rs, r);
    }
    if n == |b.records| {
      assert rs == b.records;
      forall k, r | first < k <= j && r in blocks[k].spends ensures Recorded(t, r) {
        assert OnChain(blocks, r);
        if k > c { SliceOnChain(blocks, c + 1, j + 1, r); }
        if k <= c { assert Recorded(s, r); }
        WriteRecords(blocks, s.records, rs, r);
      }
    }
  }

  // Where the cursor goes when the batch covers the blocks up to j.
  lemma {:induction false} EndIsAt(chain: ChainId, blocks: seq<Block>, c: nat, j: nat, b: Batch)
    requires Covers(blocks, c, j, b)
    ensures EndOf(At(chain, blocks[c]), b) == Ok(At(chain, blocks[j]))
  {
    if j > c {
      assert Last(Hashes(blocks[c + 1..j + 1])) == blocks[j].hash;
    }
  }

  ghost predicate CoveredFrom(chain: ChainId, blocks: seq<Block>, first: nat, c: nat, s: Store) {
    Real(blocks, s) && exists d: nat :: d >= c && CoveredTo(chain, blocks, first, d, s)
  }

  lemma {:induction false} TickCovers(chain: ChainId, blocks: seq<Block>, first: nat, c: nat, s: Store, w: World)
    requires SpentOnce(blocks) && CoveredTo(chain, blocks, first, c, s) && Real(blocks, s)
    requires Truthful(chain, blocks, w)
    ensures CoveredFrom(chain, blocks, first, c, Tick(chain, s, w).0)
  {
    var t := Tick(chain, s, w).0;
    var start := At(chain, blocks[c]);
    if w.readable && w.scan(start).Ok? {
      var b := w.scan(start).value;
      assert TruthfulFrom(chain, blocks, w, c);
      var j: nat :| Covers(blocks, c, j, b);
      EndIsAt(chain, blocks, c, j, b);
      var n := Min(w.writes, |b.records|);
      PrefixKeeps(chain, blocks, first, c, s, j, b, n);
      if Tick(chain, s, w).1.Ok? {
        var written := s.(records := Write(s.records, b.records[..n]));
        forall k, r | first < k <= j && r in blocks[k].spends ensures Recorded(t, r) { assert Recorded(written, r); }
        assert CoveredTo(chain, blocks, first, j, t);
      } else {
        assert CoveredTo(chain, blocks, first, c, t);
      }
    } else {
      assert t == s;
    }
  }

  ghost predicate TruthfulAt(chain: ChainId, blocks: seq<Block>, ws: seq<World>, i: nat) {
    i < |ws| ==> Truthful(chain, blocks, ws[i])
  }

  // From a covered cursor on, every run of ticks stays covered and the cursor never goes
  // back, whichever ticks fail and at whichever write.
  lemma {:induction false} TicksCover(chain: ChainId, blocks: seq<Block>, first: nat, c: nat, s: Store, ws: seq<World>)
    requires SpentOnce(blocks) && CoveredTo(chain, blocks, first, c, s) && Real(blocks, s)
    requires forall i: nat :: TruthfulAt(chain, blocks, ws, i)
    ensures CoveredFrom(chain, blocks, first, c, Ticks(chain, s, ws))
    decreases |ws|
  {
    if ws == [] {
      assert CoveredTo(chain, blocks, first, c, s);
    } else {
      var n := |ws| - 1;
      forall i: nat ensures TruthfulAt(chain, blocks, ws[..n], i) { assert TruthfulAt(chain, blocks, ws, i); }
      TicksCover(chain, blocks, first, c, s, ws[..n]);
      var u := Ticks(chain, s, ws[..n]);
      var d: nat :| d >= c && CoveredTo(chain, blocks, first, d, u);
      assert TruthfulAt(chain, blocks, ws, n);
      TickCovers(chain, blocks, first, d, u, ws[n]);
    }
  }

  // The first cursor a run stores.
  function FirstCursor(chain: ChainId, s: Store, ws: seq<World>): Option<Cursor> {
    if ws == [] then s.cursor
    else
      var earlier := FirstCursor(chain, s, ws[..|ws| - 1]);
      if earlier.Some? then earlier else Ticks(chain, s, ws).cursor
  }

  // Nothing stored yet, or the run began at a block of the chain and every spend after that
  // block up to the cursor now stored is recorded.
  ghost predicate Safe(chain: ChainId, blocks: seq<Block>, began: Option<Cursor>, s: Store) {
    match began
    case None => s == EMPTY_STORE
    case Some(cursor) =>
      exists first: nat :: first < |blocks| && cursor == At(chain, blocks[first])
                           && CoveredFrom(chain, blocks, first, first, s)
  }

  const EMPTY_STORE := Store(None, map[])

  // Every run of ticks from an empty store, whichever of them fail and at whichever write.
  lemma {:induction false} ScannerIsSafe(chain: ChainId, blocks: seq<Block>, ws: seq<World>)
    requires SpentOnce(blocks)
    requires forall i: nat :: TruthfulAt(chain, blocks, ws, i)
    ensures Safe(chain, blocks, FirstCursor(chain, EMPTY_STORE, ws), Ticks(chain, EMPTY_STORE, ws))
    decreases |ws|
  {
    if ws != [] {
      var n := |ws| - 1;
      forall i: nat ensures TruthfulAt(chain, blocks, ws[..n], i) { assert TruthfulAt(chain, blocks, ws, i); }
      ScannerIsSafe(chain, blocks, ws[..n]);
      var began, u := FirstCursor(chain, EMPTY_STORE, ws[..n]), Ticks(chain, EMPTY_STORE, ws[..n]);
      assert TruthfulAt(chain, blocks, ws, n);
      var t := Tick(chain, u, ws[n]).0;
      if began.None? {
        FirstTick(chain, blocks, ws[n]);
      } else {
        var first: nat :| first < |blocks| && began.value == At(chain, blocks[first])
                          && CoveredFrom(chain, blocks, first, first, u);
        var d: nat :| d >= first && CoveredTo(chain, blocks, first, d, u);
        TickCovers(chain, blocks, first, d, u, ws[n]);
        var e: nat :| e >= d && CoveredTo(chain, blocks, first, e, t);
        assert CoveredFrom(chain, blocks, first, first, t);
      }
    }
  }

  lemma {:induction false} FirstTick(chain: ChainId, blocks: seq<Block>, w: World)
    requires Truthful(chain, blocks, w)
    ensures var t := Tick(chain, EMPTY_STORE, w).0;
            Safe(chain, blocks, t.cursor, t)
  {
    var t := Tick(chain, EMPTY_STORE, w).0;
    if t.cursor.Some? {
      var i: nat :| i < |blocks| && w.current.value == At(chain, blocks[i]);
      assert CoveredTo(chain, blocks, i, i, t);
      assert CoveredFrom(chain, blocks, i, i, t);
    }
  }
}
