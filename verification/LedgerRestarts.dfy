/**
 Restarts across rebuilds. `rebuild_from` is written once, over the operations both indexers
 share; on the persistent indexer each lookup decodes a record and each spend writes one back.
 Whole runs that mix rebuilds with the other operations give the same answers on both.
 */
module LedgerRestarts {
  import opened Bytes
  import opened Core
  import opened Ledger
  import opened LedgerStore
  import opened Rebuild

  // ---- `rebuild_from` on the persistent indexer ----

  // `lookup` hides a record that does not read.
  function Lookup(f: Format, s: Store, covenant: Bytes32): Option<Entry> {
    match Load(f, s, covenant) case Ok(x) => x case Err(_) => None
  }

  predicate HasReplay(f: Format, s: Store, covenant: Bytes32, receipt: Bytes32) {
    var x := Lookup(f, s, covenant);
    x.Some? && receipt in x.value.receipts
  }

  datatype StoreWalked = StoreWalked(store: Store, outcome: Outcome<IndexerError>, applied: nat, skipped: nat)

  function StoreWalk(seal: Seal, f: Format, src: Source, ck: Checkpoint, s: Store, ps: seq<Planned>): StoreWalked
    decreases |ps|
  {
    if ps == [] then StoreWalked(s, Pass, 0, 0)
    else
      match CheckPlanned(src, ck, ps[0])
      case Err(x) => StoreWalked(s, Fail(x), 0, 0)
      case Ok(daa) =>
        if HasReplay(f, s, ck.covenant, ps[0].receipt) then
          var w := StoreWalk(seal, f, src, ck, s, ps[1..]);
          w.(skipped := w.skipped + 1)
        else
          match StoreStep(seal, f, s, On(ck.covenant, DoSpend(RequestOf(ps[0], daa))))
          case (t, Fail(x)) => StoreWalked(t, Fail(x), 0, 0)
          case (t, Pass) =>
            var w := StoreWalk(seal, f, src, ck, t, ps[1..]);
            w.(applied := w.applied + 1)
  }

  function StoreConclude(f: Format, covenant: Bytes32, w: StoreWalked, newlyOpened: bool)
    : (Store, Result<Summary, IndexerError>)
  {
    match w.outcome
    case Fail(x) => (w.store, Err(x))
    case Pass =>
      match Lookup(f, w.store, covenant)
      case None => (w.store, Err(NotIndexed))
      case Some(e) =>
        if e.open.None? then (w.store, Err(Invariant))
        else (w.store, Ok(Summary(newlyOpened, w.applied, w.skipped, e.open.value, e.lastDaa)))
  }

  function OpenCommand(ck: Checkpoint): Command {
    Open(ck.chain, ck.covenant, ck.lineage, ck.initial, ck.at, ck.daa)
  }

  function StoreRebuild(seal: Seal, f: Format, src: Source, plan: RebuildPlan, s: Store)
    : (Store, Result<Summary, IndexerError>)
  {
    var ck := plan.checkpoint;
    var found := Lookup(f, s, ck.covenant);
    match CheckStart(src, ck, found)
    case Fail(x) => (s, Err(x))
    case Pass =>
      if found.Some? then
        StoreConclude(f, ck.covenant, StoreWalk(seal, f, src, ck, s, plan.spends), false)
      else
        match StoreStep(seal, f, s, OpenCommand(ck))
        case (t, Fail(x)) => (t, Err(x))
        case (t, Pass) => StoreConclude(f, ck.covenant, StoreWalk(seal, f, src, ck, t, plan.spends), true)
  }

  // ---- runs of every operation ----

  datatype Task = Do(command: Command) | RunPlan(source: Source, plan: RebuildPlan)
  datatype Reply = Done(outcome: Outcome<IndexerError>) | Rebuilt(result: Result<Summary, IndexerError>)

  function Found(m: Memory, k: Bytes32): Option<Entry> { if k in m then Some(m[k]) else None }

  function MemoryRebuild(seal: Seal, src: Source, plan: RebuildPlan, m: Memory): (Memory, Result<Summary, IndexerError>) {
    var k := plan.checkpoint.covenant;
    var (y, r) := RebuildFrom(seal, src, plan, Found(m, k));
    (if y.Some? then m[k := y.value] else m, r)
  }

  function MemoryTask(seal: Seal, m: Memory, t: Task): (Memory, Reply) {
    match t
    case Do(c) =>
      var (m1, r) := MemoryStep(seal, m, c);
      (m1, Done(r))
    case RunPlan(src, plan) =>
      var (m1, r) := MemoryRebuild(seal, src, plan, m);
      (m1, Rebuilt(r))
  }

  function StoreTask(seal: Seal, f: Format, s: Store, t: Task): (Store, Reply) {
    match t
    case Do(c) =>
      var (s1, r) := StoreStep(seal, f, s, c);
      (s1, Done(r))
    case RunPlan(src, plan) =>
      var (s1, r) := StoreRebuild(seal, f, src, plan, s);
      (s1, Rebuilt(r))
  }

  predicate ValidTask(t: Task) {
    match t
    case Do(c) => ValidCommand(c)
    case RunPlan(_, plan) =>
      && ValidCommitment(plan.checkpoint.initial)
      && forall i :: 0 <= i < |plan.spends| ==> ValidCommitment(plan.spends[i].state)
  }

  // How many spends a task may add to an entry.
  function Work(t: Task): nat { if t.Do? then 1 else 1 + |t.plan.spends| }

  function TotalWork(ts: seq<Task>): nat
    decreases |ts|
  {
    if |ts| == 0 then 0 else Work(ts[0]) + TotalWork(ts[1..])
  }

  function MemoryTasks(seal: Seal, m: Memory, ts: seq<Task>): (Memory, seq<Reply>)
    decreases |ts|
  {
    if |ts| == 0 then (m, [])
    else
      var (m1, r) := MemoryTask(seal, m, ts[0]);
      var (m2, rs) := MemoryTasks(seal, m1, ts[1..]);
      (m2, [r] + rs)
  }

  function StoreTasks(seal: Seal, f: Format, s: Store, ts: seq<Task>): (Store, seq<Reply>)
    decreases |ts|
  {
    if |ts| == 0 then (s, [])
    else
      var (s1, r) := StoreTask(seal, f, s, ts[0]);
      var (s2, rs) := StoreTasks(seal, f, s1, ts[1..]);
      (s2, [r] + rs)
  }

  // ---- simulation ----

  lemma {:induction false} LookupMirrors(f: Format, m: Memory, s: Store, k: Bytes32)
    requires Mirrors(f, m, s)
    ensures Lookup(f, s, k) == Found(m, k)
  {
    assert MirrorsAt(f, m, s, k);
  }

  // One command with a healthy entry behind it.
  lemma {:induction false} HealthyStep(seal: Seal, f: Format, limit: nat, m: Memory, s: Store, n: nat, c: Command)
    requires Reliable(seal, f, limit) && n + 1 < limit && Mirrors(f, m, s)
    requires HealthyAt(seal, m, n, c.covenant) && ValidCommand(c)
    ensures StoreStep(seal, f, s, c).1 == MemoryStep(seal, m, c).1
    ensures Mirrors(f, MemoryStep(seal, m, c).0, StoreStep(seal, f, s, c).0)
    ensures HealthyAt(seal, MemoryStep(seal, m, c).0, n + 1, c.covenant)
  {
    StepHealthy(seal, m, n, c, c.covenant);
    StepMirrors(seal, f, m, s, c);
  }

  // One spend, on both.
  lemma {:induction false} SpendMirrors(
    seal: Seal, f: Format, limit: nat, m: Memory, s: Store, n: nat, k: Bytes32, q: Request)
    requires Reliable(seal, f, limit) && n + 1 < limit && Mirrors(f, m, s)
    requires k in m && Healthy(seal, m[k], n) && ValidCommitment(q.state)
    ensures var r := ApplySpend(seal, m[k], q);
            var (s1, o) := StoreStep(seal, f, s, On(k, DoSpend(q)));
            && o == (if r.Ok? then Pass else Fail(r.error))
            && Mirrors(f, if r.Ok? then m[k := r.value] else m, s1)
            && (r.Ok? ==> Healthy(seal, r.value, n + 1))
  {
    HealthyStep(seal, f, limit, m, s, n, On(k, DoSpend(q)));
  }

  ghost predicate WalksAlike(f: Format, m: Memory, k: Bytes32, w: Walked, v: StoreWalked) {
    && v.outcome == w.outcome && v.applied == w.applied && v.skipped == w.skipped
    && Mirrors(f, m[k := w.entry], v.store)
  }

  // A spend applied on both, in front of walks that are alike.
  lemma {:induction false} WalkExtends(
    seal: Seal, f: Format, src: Source, ck: Checkpoint, m: Memory, s: Store, ps: seq<Planned>, g: Entry, s1: Store)
    requires ck.covenant in m && Lookup(f, s, ck.covenant) == Some(m[ck.covenant])
    requires ps != [] && CheckPlanned(src, ck, ps[0]).Ok? && ps[0].receipt !in m[ck.covenant].receipts
    requires var q := RequestOf(ps[0], CheckPlanned(src, ck, ps[0]).value);
             && ApplySpend(seal, m[ck.covenant], q) == Ok(g)
             && StoreStep(seal, f, s, On(ck.covenant, DoSpend(q))) == (s1, Pass)
    requires WalksAlike(f, m[ck.covenant := g], ck.covenant, Walk(seal, src, ck, g, ps[1..]),
                        StoreWalk(seal, f, src, ck, s1, ps[1..]))
    ensures var w := Walk(seal, src, ck, m[ck.covenant], ps);
            && w.entry == Walk(seal, src, ck, g, ps[1..]).entry
            && WalksAlike(f, m, ck.covenant, w, StoreWalk(seal, f, src, ck, s, ps))
  {
    var w := Walk(seal, src, ck, g, ps[1..]);
    assert m[ck.covenant := g][ck.covenant := w.entry] == m[ck.covenant := w.entry];
  }

  lemma {:induction false} WalkMirrors(
    seal: Seal, f: Format, limit: nat, src: Source, ck: Checkpoint, m: Memory, s: Store, n: nat, ps: seq<Planned>)
    requires Reliable(seal, f, limit) && n + |ps| < limit && Mirrors(f, m, s)
    requires ck.covenant in m && Healthy(seal, m[ck.covenant], n)
    requires forall i :: 0 <= i < |ps| ==> ValidCommitment(ps[i].state)
    ensures var w := Walk(seal, src, ck, m[ck.covenant], ps);
            && WalksAlike(f, m, ck.covenant, w, StoreWalk(seal, f, src, ck, s, ps))
            && Healthy(seal, w.entry, n + |ps|)
    decreases |ps|
  {
    var k, e := ck.covenant, m[ck.covenant];
    assert m[k := e] == m;
    LookupMirrors(f, m, s, k);
    if ps != [] && CheckPlanned(src, ck, ps[0]).Ok? {
      var q := RequestOf(ps[0], CheckPlanned(src, ck, ps[0]).value);
      if ps[0].receipt in e.receipts {
        WalkMirrors(seal, f, limit, src, ck, m, s, n, ps[1..]);
      } else {
        SpendMirrors(seal, f, limit, m, s, n, k, q);
        if ApplySpend(seal, e, q).Ok? {
          var g := ApplySpend(seal, e, q).value;
          var m1, s1 := m[k := g], StoreStep(seal, f, s, On(k, DoSpend(q))).0;
          WalkMirrors(seal, f, limit, src, ck, m1, s1, n + 1, ps[1..]);
          WalkExtends(seal, f, src, ck, m, s, ps, g, s1);
        }
      }
    }
  }

  lemma {:induction false} ConcludeMirrors(f: Format, m: Memory, k: Bytes32, w: Walked, v: StoreWalked, isNew: bool)
    requires WalksAlike(f, m, k, w, v)
    ensures StoreConclude(f, k, v, isNew) == (v.store, Conclude(w, isNew).1)
    ensures Conclude(w, isNew).0 == Some(w.entry)
  {
    LookupMirrors(f, m[k := w.entry], v.store, k);
  }

  ghost predicate EndsAlike(
    seal: Seal, f: Format, n: nat, k: Bytes32, m: Memory, a: (Memory, Result<Summary, IndexerError>),
    b: (Store, Result<Summary, IndexerError>))
  {
    && a.1 == b.1 && Mirrors(f, a.0, b.0) && HealthyAt(seal, a.0, n, k)
    && (a.0 == m || (k in a.0 && a.0 == m[k := a.0[k]]))
  }

  // The covenant is indexed, whether before or just now.
  lemma {:induction false} ReplayMirrors(
    seal: Seal, f: Format, limit: nat, m: Memory, s: Store, n: nat, src: Source, plan: RebuildPlan, isNew: bool)
    requires Reliable(seal, f, limit) && n + |plan.spends| < limit && Mirrors(f, m, s)
    requires plan.checkpoint.covenant in m && Healthy(seal, m[plan.checkpoint.covenant], n)
    requires ValidTask(RunPlan(src, plan))
    ensures var ck := plan.checkpoint;
            var w := Walk(seal, src, ck, m[ck.covenant], plan.spends);
            EndsAlike(seal, f, n + |plan.spends|, ck.covenant, m, (m[ck.covenant := w.entry], Conclude(w, isNew).1),
                      StoreConclude(f, ck.covenant, StoreWalk(seal, f, src, ck, s, plan.spends), isNew))
  {
    var ck := plan.checkpoint;
    WalkMirrors(seal, f, limit, src, ck, m, s, n, plan.spends);
    var w, v := Walk(seal, src, ck, m[ck.covenant], plan.spends), StoreWalk(seal, f, src, ck, s, plan.spends);
    ConcludeMirrors(f, m, ck.covenant, w, v, isNew);
  }

  lemma {:induction false} RebuildMirrors(
    seal: Seal, f: Format, limit: nat, m: Memory, s: Store, n: nat, src: Source, plan: RebuildPlan)
    requires Reliable(seal, f, limit) && n + 1 + |plan.spends| < limit && Mirrors(f, m, s)
    requires HealthyAt(seal, m, n, plan.checkpoint.covenant) && ValidTask(RunPlan(src, plan))
    ensures EndsAlike(seal, f, n + 1 + |plan.spends|, plan.checkpoint.covenant, m, MemoryRebuild(seal, src, plan, m),
                      StoreRebuild(seal, f, src, plan, s))
  {
    var ck := plan.checkpoint;
    var k := ck.covenant;
    LookupMirrors(f, m, s, k);
    assert k in m ==> m[k := m[k]] == m;
    if CheckStart(src, ck, Found(m, k)).Pass? {
      if k in m {
        ReplayMirrors(seal, f, limit, m, s, n, src, plan, false);
      } else {
        RebuildOpens(seal, f, limit, m, s, n, src, plan);
      }
    }
  }

  // Opening at the checkpoint, on both.
  lemma {:induction false} OpenMirrors(seal: Seal, f: Format, limit: nat, m: Memory, s: Store, n: nat, ck: Checkpoint)
    requires Reliable(seal, f, limit) && n + 1 < limit && Mirrors(f, m, s)
    requires ck.covenant !in m && ValidCommitment(ck.initial)
    requires ck.initial.chain == ck.chain && ck.initial.covenant == ck.covenant
    ensures StoreStep(seal, f, s, OpenCommand(ck)).1.Pass?
    ensures Mirrors(f, m[ck.covenant := OpenedAt(ck)], StoreStep(seal, f, s, OpenCommand(ck)).0)
    ensures Healthy(seal, OpenedAt(ck), n + 1)
  {
    var c := OpenCommand(ck);
    HealthyStep(seal, f, limit, m, s, n, c);
    assert MemoryStep(seal, m, c) == (m[ck.covenant := OpenedAt(ck)], Pass);
  }

  lemma {:induction false} RebuildOpens(
    seal: Seal, f: Format, limit: nat, m: Memory, s: Store, n: nat, src: Source, plan: RebuildPlan)
    requires Reliable(seal, f, limit) && n + 1 + |plan.spends| < limit && Mirrors(f, m, s)
    requires plan.checkpoint.covenant !in m && ValidTask(RunPlan(src, plan))
    requires CheckStart(src, plan.checkpoint, None).Pass?
    ensures EndsAlike(seal, f, n + 1 + |plan.spends|, plan.checkpoint.covenant, m, MemoryRebuild(seal, src, plan, m),
                      StoreRebuild(seal, f, src, plan, s))
  {
    var ck := plan.checkpoint;
    var k, m1, s1 := ck.covenant, m[ck.covenant := OpenedAt(ck)], StoreStep(seal, f, s, OpenCommand(ck)).0;
    OpenMirrors(seal, f, limit, m, s, n, ck);
    ReplayMirrors(seal, f, limit, m1, s1, n + 1, src, plan, true);
    var w := Walk(seal, src, ck, m1[k], plan.spends);
    var v := StoreWalk(seal, f, src, ck, s1, plan.spends);
    assert MemoryRebuild(seal, src, plan, m) == (m[k := w.entry], Conclude(w, true).1);
    assert StoreRebuild(seal, f, src, plan, s) == StoreConclude(f, k, v, true) by { LookupMirrors(f, m, s, k); }
    assert m1[k := w.entry] == m[k := w.entry];
  }

  lemma {:induction false} TaskMirrors(
    seal: Seal, f: Format, limit: nat, m: Memory, s: Store, n: nat, t: Task, later: nat)
    requires Reliable(seal, f, limit) && n + Work(t) == later < limit && Mirrors(f, m, s)
    requires ValidTask(t) && forall k: Bytes32 :: HealthyAt(seal, m, n, k)
    ensures StoreTask(seal, f, s, t).1 == MemoryTask(seal, m, t).1
    ensures Mirrors(f, MemoryTask(seal, m, t).0, StoreTask(seal, f, s, t).0)
    ensures forall k: Bytes32 :: HealthyAt(seal, MemoryTask(seal, m, t).0, later, k)
  {
    var m' := MemoryTask(seal, m, t).0;
    match t {
      case Do(c) =>
        assert HealthyAt(seal, m, n, c.covenant);
        HealthyStep(seal, f, limit, m, s, n, c);
        forall k: Bytes32 ensures HealthyAt(seal, m', later, k) {
          assert HealthyAt(seal, m, n, k);
          StepHealthy(seal, m, n, c, k);
        }
      case RunPlan(src, plan) =>
        assert HealthyAt(seal, m, n, plan.checkpoint.covenant);
        RebuildMirrors(seal, f, limit, m, s, n, src, plan);
        forall k: Bytes32 ensures HealthyAt(seal, m', later, k) {
          assert HealthyAt(seal, m, n, k);
        }
    }
  }

  lemma {:induction false} TasksMirror(
    seal: Seal, f: Format, limit: nat, m: Memory, s: Store, n: nat, ts: seq<Task>)
    requires Reliable(seal, f, limit) && n + TotalWork(ts) < limit && Mirrors(f, m, s)
    requires forall k: Bytes32 :: HealthyAt(seal, m, n, k)
    requires forall i :: 0 <= i < |ts| ==> ValidTask(ts[i])
    ensures StoreTasks(seal, f, s, ts).1 == MemoryTasks(seal, m, ts).1
    ensures Mirrors(f, MemoryTasks(seal, m, ts).0, StoreTasks(seal, f, s, ts).0)
    decreases |ts|
  {
    if |ts| != 0 {
      var later := n + Work(ts[0]);
      TaskMirrors(seal, f, limit, m, s, n, ts[0], later);
      var m1, s1 := MemoryTask(seal, m, ts[0]).0, StoreTask(seal, f, s, ts[0]).0;
      TasksMirror(seal, f, limit, m1, s1, later, ts[1..]);
    }
  }

  lemma {:induction false} RestartOverTasks(seal: Seal, f: Format, ts: seq<Task>)
    requires Reliable(seal, f, 0x1_0000_0000) && TotalWork(ts) < 0x1_0000_0000
    requires forall i :: 0 <= i < |ts| ==> ValidTask(ts[i])
    ensures StoreTasks(seal, f, map[], ts).1 == MemoryTasks(seal, map[], ts).1
    ensures Mirrors(f, MemoryTasks(seal, map[], ts).0, StoreTasks(seal, f, map[], ts).0)
  {
    TasksMirror(seal, f, 0x1_0000_0000, map[], map[], 0, ts);
  }

  // From empty, over opens, spends, rollbacks, certificates and rebuilds with structurally valid
  // states, in any order, the persistent indexer answers exactly as the one in memory and every
  // record reads back as the entry in memory.
  lemma {:induction false} RestartsAreInvisible(seal: Seal, ts: seq<Task>)
    requires TotalWork(ts) < 0x1_0000_0000
    requires forall i :: 0 <= i < |ts| ==> ValidTask(ts[i])
    ensures StoreTasks(seal, Records(seal), map[], ts).1 == MemoryTasks(seal, map[], ts).1
    ensures Mirrors(Records(seal), MemoryTasks(seal, map[], ts).0, StoreTasks(seal, Records(seal), map[], ts).0)
  {
    RecordsReliable(seal);
    RestartOverTasks(seal, Records(seal), ts);
  }
}
