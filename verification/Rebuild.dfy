/**
 `rebuild_from`: replaying a plan of expected spends against chain evidence. Running it
 again changes nothing, stopping and resuming changes nothing, and it replays what a
 rollback undid.
 */
module Rebuild {
  import opened Bytes
  import opened Core
  import opened Ledger
  import opened LedgerRuns

  datatype Evidence = Evidence(txid: Bytes32, daa: Option<u64>, depth: Option<u64>)

  datatype Source = Source(
    chain: Result<ChainId, IndexerError>, evidence: Outpoint -> Result<Option<Evidence>, IndexerError>)

  datatype Checkpoint = Checkpoint(
    chain: ChainId, covenant: Bytes32, lineage: Bytes32, initial: StateCommitment, at: Outpoint, daa: u64)

  datatype Planned = Planned(
    receipt: Bytes32, spent: Outpoint, created: Outpoint, state: StateCommitment, txid: Bytes32, confirmations: u64)

  datatype RebuildPlan = RebuildPlan(checkpoint: Checkpoint, spends: seq<Planned>)

  datatype Summary = Summary(newlyOpened: bool, applied: nat, skipped: nat, at: Outpoint, daa: u64)

  // ---- checks ----

  function DepthIn(ev: Evidence): u64 { if ev.depth.Some? then ev.depth.value else 0 }

  // `validate_rebuild_spend_shape`, then the evidence; the result is the DAA score to use.
  function CheckPlanned(s: Source, ck: Checkpoint, p: Planned): Result<u64, IndexerError> {
    if p.state.chain != ck.chain then Err(ChainMismatch)
    else if p.state.covenant != ck.covenant then Err(Invariant)
    else if p.state.asset != ck.initial.asset then Err(Invariant)
    else if p.state.policy != ck.initial.policy then Err(Invariant)
    else
      var found :- s.evidence(p.spent);
      if found.None? then Err(RebuildSpendMissing)
      else
        var ev := found.value;
        if ev.txid != p.txid then Err(RebuildTxMismatch)
        else if DepthIn(ev) < p.confirmations then Err(RebuildInsufficientConfirmations)
        else if ev.daa.None? then Err(RebuildMissingDaa)
        else Ok(ev.daa.value)
  }

  // `validate_existing_checkpoint`
  function CheckExisting(e: Entry, ck: Checkpoint): Outcome<IndexerError> {
    if e.chain != ck.chain then Fail(ChainMismatch)
    else if e.lineage != ck.lineage then Fail(LineageMismatch)
    else if e.latest.asset != ck.initial.asset then Fail(Invariant)
    else if e.latest.policy != ck.initial.policy then Fail(Invariant)
    else if e.receipts == [] then
      if e.open == Some(ck.at) && e.latest == ck.initial && e.lastDaa == ck.daa then Pass else Fail(Invariant)
    else if e.history == [] then Fail(Invariant)
    else if e.history[0].spent != ck.at then Fail(Invariant)
    else if e.history[0].previousDigest != ck.initial.digest then Fail(Invariant)
    else Pass
  }

  function RequestOf(p: Planned, daa: u64): Request { Request(p.receipt, p.spent, p.created, p.state, daa, None, None) }

  // ---- the loop ----

  datatype Walked = Walked(entry: Entry, outcome: Outcome<IndexerError>, applied: nat, skipped: nat)

  function Walk(seal: Seal, s: Source, ck: Checkpoint, e: Entry, ps: seq<Planned>): Walked
    decreases |ps|
  {
    if ps == [] then Walked(e, Pass, 0, 0)
    else
      match CheckPlanned(s, ck, ps[0])
      case Err(x) => Walked(e, Fail(x), 0, 0)
      case Ok(daa) =>
        if ps[0].receipt in e.receipts then
          var w := Walk(seal, s, ck, e, ps[1..]);
          w.(skipped := w.skipped + 1)
        else
          match ApplySpend(seal, e, RequestOf(ps[0], daa))
          case Err(x) => Walked(e, Fail(x), 0, 0)
          case Ok(f) =>
            var w := Walk(seal, s, ck, f, ps[1..]);
            w.(applied := w.applied + 1)
  }

  function OpenedAt(ck: Checkpoint): Entry { Opened(ck.covenant, ck.chain, ck.lineage, ck.initial, ck.at, ck.daa) }

  function CheckStart(s: Source, ck: Checkpoint, x: Option<Entry>): Outcome<IndexerError> {
    match s.chain
    case Err(error) => Fail(error)
    case Ok(chain) =>
      if chain != ck.chain then Fail(ChainMismatch)
      else if ck.initial.chain != ck.chain then Fail(ChainMismatch)
      else if ck.initial.covenant != ck.covenant then Fail(Invariant)
      else if x.Some? then CheckExisting(x.value, ck)
      else Pass
  }

  function Conclude(w: Walked, newlyOpened: bool): (Option<Entry>, Result<Summary, IndexerError>) {
    match w.outcome
    case Fail(error) => (Some(w.entry), Err(error))
    case Pass =>
      if w.entry.open.None? then (Some(w.entry), Err(Invariant))
      else (Some(w.entry), Ok(Summary(newlyOpened, w.applied, w.skipped, w.entry.open.value, w.entry.lastDaa)))
  }

  function StartAt(ck: Checkpoint, x: Option<Entry>): Entry { if x.Some? then x.value else OpenedAt(ck) }

  // What `rebuild_from` leaves in the index for the covenant, and what it returns.
  function RebuildFrom(seal: Seal, s: Source, plan: RebuildPlan, x: Option<Entry>)
    : (Option<Entry>, Result<Summary, IndexerError>)
  {
    var ck := plan.checkpoint;
    match CheckStart(s, ck, x)
    case Fail(error) => (x, Err(error))
    case Pass => Conclude(Walk(seal, s, ck, StartAt(ck, x), plan.spends), x.None?)
  }

  // ---- an entry goes on fitting its checkpoint ----

  lemma SpendFits(seal: Seal, s: Source, ck: Checkpoint, e: Entry, p: Planned)
    requires Paired(e) && CheckExisting(e, ck).Pass? && CheckPlanned(s, ck, p).Ok?
    requires CheckSpend(seal, e, RequestOf(p, CheckPlanned(s, ck, p).value)).Pass?
    ensures CheckExisting(Spent(e, RequestOf(p, CheckPlanned(s, ck, p).value)), ck).Pass?
  {
  }

  lemma {:induction false} WalkFits(seal: Seal, s: Source, ck: Checkpoint, e: Entry, ps: seq<Planned>)
    requires Paired(e) && CheckExisting(e, ck).Pass?
    ensures Paired(Walk(seal, s, ck, e, ps).entry) && CheckExisting(Walk(seal, s, ck, e, ps).entry, ck).Pass?
    decreases |ps|
  {
    if ps != [] && CheckPlanned(s, ck, ps[0]).Ok? {
      var q := RequestOf(ps[0], CheckPlanned(s, ck, ps[0]).value);
      if ps[0].receipt in e.receipts {
        WalkFits(seal, s, ck, e, ps[1..]);
      } else if CheckSpend(seal, e, q).Pass? {
        SpendFits(seal, s, ck, e, ps[0]);
        WalkFits(seal, s, ck, Spent(e, q), ps[1..]);
      }
    }
  }

  lemma {:induction false} WalkKeepsReceipts(seal: Seal, s: Source, ck: Checkpoint, e: Entry, ps: seq<Planned>)
    ensures e.receipts <= Walk(seal, s, ck, e, ps).entry.receipts
    decreases |ps|
  {
    if ps != [] && CheckPlanned(s, ck, ps[0]).Ok? {
      var q := RequestOf(ps[0], CheckPlanned(s, ck, ps[0]).value);
      if ps[0].receipt in e.receipts {
        WalkKeepsReceipts(seal, s, ck, e, ps[1..]);
      } else if CheckSpend(seal, e, q).Pass? {
        WalkKeepsReceipts(seal, s, ck, Spent(e, q), ps[1..]);
      }
    }
  }

  // ---- resuming ----

  // Evidence does not change its mind: the transaction stays, a reported DAA score stays, and
  // confirmations only grow.
  predicate KnowsMore(a: Evidence, b: Evidence) {
    && b.txid == a.txid
    && (a.daa.Some? ==> b.daa == a.daa)
    && DepthIn(b) >= DepthIn(a)
  }

  predicate Reported(s: Source, o: Outpoint) { s.evidence(o).Ok? && s.evidence(o).value.Some? }

  // The second source knows everything the first one reported, and possibly more.
  ghost predicate Agrees(s: Source, t: Source) {
    && (s.chain.Ok? ==> t.chain == s.chain)
    && forall o: Outpoint ::
         Reported(s, o) ==> Reported(t, o) && KnowsMore(s.evidence(o).value.value, t.evidence(o).value.value)
  }

  // What was good enough for the first source is so for the second, with the same DAA score.
  lemma {:induction false} ChecksAgree(s: Source, t: Source, ck: Checkpoint, p: Planned)
    requires Agrees(s, t) && CheckPlanned(s, ck, p).Ok?
    ensures CheckPlanned(t, ck, p) == CheckPlanned(s, ck, p)
  {
    assert Reported(s, p.spent);
  }

  lemma {:induction false} WalkResumes(seal: Seal, s: Source, t: Source, ck: Checkpoint, e: Entry, ps: seq<Planned>)
    requires Agrees(s, t)
    ensures var w := Walk(seal, s, ck, e, ps);
            var whole, rest := Walk(seal, t, ck, e, ps), Walk(seal, t, ck, w.entry, ps);
            && rest.entry == whole.entry && rest.outcome == whole.outcome
            && whole.applied == w.applied + rest.applied
    decreases |ps|
  {
    if ps != [] && CheckPlanned(s, ck, ps[0]).Ok? {
      var q := RequestOf(ps[0], CheckPlanned(s, ck, ps[0]).value);
      ChecksAgree(s, t, ck, ps[0]);
      if ps[0].receipt in e.receipts {
        WalkKeepsReceipts(seal, s, ck, e, ps[1..]);
        WalkResumes(seal, s, t, ck, e, ps[1..]);
      } else if CheckSpend(seal, e, q).Pass? {
        var f := Spent(e, q);
        assert ps[0].receipt == Last(f.receipts);
        WalkKeepsReceipts(seal, s, ck, f, ps[1..]);
        WalkResumes(seal, s, t, ck, f, ps[1..]);
      }
    }
  }

  ghost predicate SameEnd(a: (Option<Entry>, Result<Summary, IndexerError>),
                          b: (Option<Entry>, Result<Summary, IndexerError>))
  {
    && a.0 == b.0
    && (b.1.Err? ==> a.1 == b.1)
    && (b.1.Ok? ==> a.1.Ok? && a.1.value.at == b.1.value.at && a.1.value.daa == b.1.value.daa
                    && a.1.value.applied <= b.1.value.applied)
  }

  lemma ConcludeSame(a: Walked, x: bool, b: Walked, y: bool)
    requires a.entry == b.entry && a.outcome == b.outcome && a.applied <= b.applied
    ensures SameEnd(Conclude(a, x), Conclude(b, y))
  {
  }

  // The start is as good the second time as the first.
  lemma StartsAgain(s: Source, t: Source, ck: Checkpoint, x: Option<Entry>, f: Entry)
    requires Agrees(s, t) && CheckStart(s, ck, x).Pass? && CheckExisting(f, ck).Pass?
    ensures CheckStart(t, ck, x).Pass? && CheckStart(t, ck, Some(f)).Pass?
  {
  }

  // Whatever stopped the first run, running again with a source that knows at least as much
  // ends where one uninterrupted run with that source ends: same entry, same verdict, and
  // no spend applied twice.
  lemma {:induction false} RebuildResumes(seal: Seal, s: Source, t: Source, plan: RebuildPlan, x: Option<Entry>)
    requires Agrees(s, t) && (x.Some? ==> Paired(x.value))
    ensures SameEnd(RebuildFrom(seal, t, plan, RebuildFrom(seal, s, plan, x).0), RebuildFrom(seal, t, plan, x))
  {
    var ck := plan.checkpoint;
    if CheckStart(s, ck, x).Pass? {
      var e := StartAt(ck, x);
      var w := Walk(seal, s, ck, e, plan.spends);
      assert CheckExisting(e, ck).Pass?;
      assert CheckExisting(w.entry, ck).Pass? by { WalkFits(seal, s, ck, e, plan.spends); }
      WalkResumes(seal, s, t, ck, e, plan.spends);
      StartsAgain(s, t, ck, x, w.entry);
      ConcludeSame(Walk(seal, t, ck, w.entry, plan.spends), false, Walk(seal, t, ck, e, plan.spends), x.None?);
    }
  }

  // ---- idempotence ----

  lemma {:induction false} WalkAgain(seal: Seal, s: Source, ck: Checkpoint, e: Entry, last: Entry, ps: seq<Planned>)
    requires Walk(seal, s, ck, e, ps).outcome.Pass?
    requires Walk(seal, s, ck, e, ps).entry.receipts <= last.receipts
    ensures Walk(seal, s, ck, last, ps) == Walked(last, Pass, 0, |ps|)
    decreases |ps|
  {
    if ps != [] {
      var q := RequestOf(ps[0], CheckPlanned(s, ck, ps[0]).value);
      var f := if ps[0].receipt in e.receipts then e else Spent(e, q);
      assert f == e || ps[0].receipt == Last(f.receipts);
      WalkKeepsReceipts(seal, s, ck, f, ps[1..]);
      WalkAgain(seal, s, ck, f, last, ps[1..]);
    }
  }

  // Where a walk passed, a source that knows more walks alike, from any entry.
  lemma {:induction false} WalksAlike(seal: Seal, s: Source, t: Source, ck: Checkpoint, e: Entry, u: Entry,
                                      ps: seq<Planned>)
    requires Agrees(s, t) && Walk(seal, s, ck, e, ps).outcome.Pass?
    ensures Walk(seal, t, ck, u, ps) == Walk(seal, s, ck, u, ps)
    decreases |ps|
  {
    if ps != [] {
      ChecksAgree(s, t, ck, ps[0]);
      var q := RequestOf(ps[0], CheckPlanned(s, ck, ps[0]).value);
      var f := if ps[0].receipt in e.receipts then e else Spent(e, q);
      WalksAlike(seal, s, t, ck, f, if ps[0].receipt in u.receipts then u else Spent(u, q), ps[1..]);
    }
  }

  // A second run applies nothing, skips every spend and leaves the entry unchanged, also when
  // more is known by then.
  lemma {:induction false} RebuildIdempotent(seal: Seal, s: Source, t: Source, plan: RebuildPlan, x: Option<Entry>)
    requires Agrees(s, t) && (x.Some? ==> Paired(x.value))
    requires RebuildFrom(seal, s, plan, x).1.Ok?
    ensures var (y, r) := RebuildFrom(seal, s, plan, x);
            RebuildFrom(seal, t, plan, y) == (y, Ok(Summary(false, 0, |plan.spends|, r.value.at, r.value.daa)))
  {
    var ck := plan.checkpoint;
    var e := StartAt(ck, x);
    assert CheckExisting(e, ck).Pass?;
    var w := Walk(seal, s, ck, e, plan.spends);
    WalkFits(seal, s, ck, e, plan.spends);
    WalkAgain(seal, s, ck, e, w.entry, plan.spends);
    WalksAlike(seal, s, t, ck, e, w.entry, plan.spends);
  }

  // ---- replaying what a rollback undid ----

  // The spends a walk applies.
  function Applied(seal: Seal, s: Source, ck: Checkpoint, e: Entry, ps: seq<Planned>): seq<Request>
    decreases |ps|
  {
    if ps == [] || CheckPlanned(s, ck, ps[0]).Err? then []
    else
      var q := RequestOf(ps[0], CheckPlanned(s, ck, ps[0]).value);
      if ps[0].receipt in e.receipts then Applied(seal, s, ck, e, ps[1..])
      else if CheckSpend(seal, e, q).Fail? then []
      else [q] + Applied(seal, s, ck, Spent(e, q), ps[1..])
  }

  lemma {:induction false} WalkIsSpending(seal: Seal, s: Source, ck: Checkpoint, e: Entry, ps: seq<Planned>)
    ensures var w, qs := Walk(seal, s, ck, e, ps), Applied(seal, s, ck, e, ps);
            && SpendAll(seal, e, qs) == Ok(w.entry)
            && |qs| == w.applied == |w.entry.history| - |e.history|
            && (w.outcome.Pass? ==> w.applied + w.skipped == |ps|)
            && (Paired(e) ==> Paired(w.entry))
            && (Keyed(e) ==> Keyed(w.entry))
    decreases |ps|
  {
    if ps != [] && CheckPlanned(s, ck, ps[0]).Ok? {
      var q := RequestOf(ps[0], CheckPlanned(s, ck, ps[0]).value);
      if ps[0].receipt in e.receipts {
        WalkIsSpending(seal, s, ck, e, ps[1..]);
      } else if CheckSpend(seal, e, q).Pass? {
        var f := Spent(e, q);
        WalkIsSpending(seal, s, ck, f, ps[1..]);
        assert ([q] + Applied(seal, s, ck, f, ps[1..]))[1..] == Applied(seal, s, ck, f, ps[1..]);
      }
    }
  }

  lemma {:induction false} UndoReceipts(e: Entry, k: nat)
    requires Paired(e) && k <= |e.history|
    ensures Undo(e, k).receipts == e.receipts[..|e.receipts| - k]
    ensures Undo(e, k).history == e.history[..|e.history| - k]
    decreases k
  {
    if k != 0 { UndoReceipts(UndoOne(e), k - 1); }
  }

  // Spending does not look at the DAA score or the encoding version it replaces.
  lemma SpendForgets(seal: Seal, a: Entry, b: Entry, q: Request)
    requires a == b.(lastDaa := a.lastDaa, latest := b.latest.(version := a.latest.version))
    ensures CheckSpend(seal, a, q) == CheckSpend(seal, b, q) && Spent(a, q) == Spent(b, q)
  {
  }

  // The walk from `u` skips its first spend, and then ends as said.
  lemma WalkSkips(seal: Seal, s: Source, ck: Checkpoint, u: Entry, ps: seq<Planned>, end: Entry, k: nat)
    requires ps != [] && CheckPlanned(s, ck, ps[0]).Ok? && ps[0].receipt in u.receipts && k < |ps|
    requires Walk(seal, s, ck, u, ps[1..]) == Walked(end, Pass, k, |ps| - 1 - k)
    ensures Walk(seal, s, ck, u, ps) == Walked(end, Pass, k, |ps| - k)
  {
  }

  // The entry before the first applied spend of a walk and the entry after undoing all of
  // them are told apart by nothing the walk looks at.
  lemma {:induction false} RedoesAll(seal: Seal, s: Source, ck: Checkpoint, a: Entry, ps: seq<Planned>)
    requires Keyed(a) && ps != [] && Walk(seal, s, ck, a, ps).outcome.Pass? && ps[0].receipt !in a.receipts
    ensures var w := Walk(seal, s, ck, a, ps);
            w.applied <= |w.entry.history| && Walk(seal, s, ck, Undo(w.entry, w.applied), ps) == w
  {
    var w, qs := Walk(seal, s, ck, a, ps), Applied(seal, s, ck, a, ps);
    WalkIsSpending(seal, s, ck, a, ps);
    UndoRestores(seal, a, qs);
    SpendForgets(seal, Undo(w.entry, |qs|), a, RequestOf(ps[0], CheckPlanned(s, ck, ps[0]).value));
  }

  // `a` is an entry on the way of a successful walk; `k` undone spends come after it.
  lemma {:induction false} WalkRedoes(seal: Seal, s: Source, ck: Checkpoint, a: Entry, ps: seq<Planned>, k: nat)
    requires Paired(a) && Keyed(a)
    requires Walk(seal, s, ck, a, ps).outcome.Pass?
    requires k <= Walk(seal, s, ck, a, ps).applied
    ensures var w := Walk(seal, s, ck, a, ps);
            && k <= |w.entry.history| && k <= |ps|
            && Walk(seal, s, ck, Undo(w.entry, k), ps) == Walked(w.entry, Pass, k, |ps| - k)
    decreases |ps|
  {
    var w := Walk(seal, s, ck, a, ps);
    WalkIsSpending(seal, s, ck, a, ps);
    if ps != [] {
      var q := RequestOf(ps[0], CheckPlanned(s, ck, ps[0]).value);
      var seen := ps[0].receipt in a.receipts;
      if !seen && k == w.applied {
        RedoesAll(seal, s, ck, a, ps);
      } else {
        var f := if seen then a else Spent(a, q);
        WalkRedoes(seal, s, ck, f, ps[1..], k);
        assert ps[0].receipt in Undo(w.entry, k).receipts by { StillSeen(seal, s, ck, f, ps[1..], k, ps[0].receipt); }
        WalkSkips(seal, s, ck, Undo(w.entry, k), ps, w.entry, k);
      }
    }
  }

  lemma {:induction false} StillSeen(
    seal: Seal, s: Source, ck: Checkpoint, f: Entry, ps: seq<Planned>, k: nat, receipt: Bytes32)
    requires Paired(f) && receipt in f.receipts && k <= Walk(seal, s, ck, f, ps).applied
    ensures var e := Walk(seal, s, ck, f, ps).entry;
            k <= |e.history| && receipt in Undo(e, k).receipts
  {
    var e := Walk(seal, s, ck, f, ps).entry;
    WalkIsSpending(seal, s, ck, f, ps);
    WalkKeepsReceipts(seal, s, ck, f, ps);
    UndoReceipts(e, k);
    var i :| 0 <= i < |f.receipts| && f.receipts[i] == receipt;
    assert Undo(e, k).receipts[i] == receipt;
  }

  predicate FitsPolicy(ck: Checkpoint, s: StateCommitment) {
    s.policy == ck.initial.policy && s.asset == ck.initial.asset
  }

  // Every spend a walk applies keeps the policy and the asset of the checkpoint.
  lemma {:induction false} AppliedFit(seal: Seal, s: Source, ck: Checkpoint, e: Entry, ps: seq<Planned>)
    ensures forall q :: q in Applied(seal, s, ck, e, ps) ==> FitsPolicy(ck, q.state)
    decreases |ps|
  {
    if ps != [] && CheckPlanned(s, ck, ps[0]).Ok? {
      var q := RequestOf(ps[0], CheckPlanned(s, ck, ps[0]).value);
      if ps[0].receipt in e.receipts {
        AppliedFit(seal, s, ck, e, ps[1..]);
      } else if CheckSpend(seal, e, q).Pass? {
        AppliedFit(seal, s, ck, Spent(e, q), ps[1..]);
      }
    }
  }

  lemma {:induction false} SpendAllFits(seal: Seal, ck: Checkpoint, e: Entry, qs: seq<Request>)
    requires FitsPolicy(ck, e.latest) && SpendAll(seal, e, qs).Ok?
    requires forall q :: q in qs ==> FitsPolicy(ck, q.state)
    ensures var f := SpendAll(seal, e, qs).value;
            FitsPolicy(ck, f.latest) && f.chain == e.chain && f.lineage == e.lineage
    decreases |qs|
  {
    if qs != [] {
      assert FitsPolicy(ck, qs[0].state);
      SpendAllFits(seal, ck, Spent(e, qs[0]), qs[1..]);
    }
  }

  // What is left of a walk after k of its spends are undone: the entry partway, but for DAA
  // score and encoding version.
  lemma {:induction false} UndoneIs(
    seal: Seal, s: Source, ck: Checkpoint, e: Entry, ps: seq<Planned>, k: nat) returns (mid: Entry)
    requires Paired(e) && Keyed(e) && k <= Walk(seal, s, ck, e, ps).applied
    requires FitsPolicy(ck, e.latest)
    ensures var w := Walk(seal, s, ck, e, ps);
            && k <= |w.entry.history|
            && var u := Undo(w.entry, k);
               && u == mid.(lastDaa := u.lastDaa, latest := mid.latest.(version := u.latest.version))
               && u.history == w.entry.history[..|w.entry.history| - k] && Paired(u)
    ensures FitsPolicy(ck, mid.latest)
    ensures mid.chain == e.chain && mid.lineage == e.lineage
    ensures k == Walk(seal, s, ck, e, ps).applied ==> mid == e
  {
    var w, qs := Walk(seal, s, ck, e, ps), Applied(seal, s, ck, e, ps);
    WalkIsSpending(seal, s, ck, e, ps);
    assert Undo(w.entry, k).history == w.entry.history[..|w.entry.history| - k] && Paired(Undo(w.entry, k)) by {
      UndoReceipts(w.entry, k);
    }
    UndoPartway(seal, e, qs, k);
    mid := SpendAll(seal, e, qs[..|qs| - k]).value;
    AppliedFit(seal, s, ck, e, ps);
    SpendAllFits(seal, ck, e, qs[..|qs| - k]);
  }

  // What a checkpoint sees of a walk after k of its spends are undone.
  lemma {:induction false} UndoneFits(seal: Seal, s: Source, ck: Checkpoint, e: Entry, ps: seq<Planned>, k: nat)
    requires Paired(e) && Keyed(e) && CheckExisting(e, ck).Pass? && k <= Walk(seal, s, ck, e, ps).applied
    ensures k <= |Walk(seal, s, ck, e, ps).entry.history|
    ensures var u := Undo(Walk(seal, s, ck, e, ps).entry, k);
            && (u.history != [] ==> CheckExisting(u, ck).Pass?)
            && (u.history == [] && e.history == [] ==>
                  (CheckExisting(u, ck).Pass? <==> u.lastDaa == ck.daa && u.latest.version == ck.initial.version))
  {
    var w := Walk(seal, s, ck, e, ps);
    assert |w.entry.history| == |e.history| + w.applied by { WalkIsSpending(seal, s, ck, e, ps); }
    assert Paired(w.entry) && CheckExisting(w.entry, ck).Pass? by { WalkFits(seal, s, ck, e, ps); }
    var mid := UndoneIs(seal, s, ck, e, ps, k);
  }

  // The rebuild of an entry from which k spends of the first rebuild are undone.
  lemma {:induction false} RebuildFromUndone(
    seal: Seal, s: Source, t: Source, plan: RebuildPlan, x: Option<Entry>, k: nat)
    requires Agrees(s, t) && (x.Some? ==> Paired(x.value) && Keyed(x.value))
    requires RebuildFrom(seal, s, plan, x).1.Ok?
    requires k <= RebuildFrom(seal, s, plan, x).1.value.applied
    ensures var (y, r) := RebuildFrom(seal, s, plan, x);
            && k <= |y.value.history| && k <= |plan.spends|
            && var u := Undo(y.value, k);
               && (CheckExisting(u, plan.checkpoint).Pass? ==>
                     RebuildFrom(seal, t, plan, Some(u))
                     == (y, Ok(Summary(false, k, |plan.spends| - k, r.value.at, r.value.daa))))
               && (CheckExisting(u, plan.checkpoint).Fail? ==> RebuildFrom(seal, t, plan, Some(u)).1.Err?)
  {
    var ck := plan.checkpoint;
    var e := StartAt(ck, x);
    var w := Walk(seal, s, ck, e, plan.spends);
    assert k <= |w.entry.history| && k <= |plan.spends|
           && Walk(seal, s, ck, Undo(w.entry, k), plan.spends) == Walked(w.entry, Pass, k, |plan.spends| - k) by {
      WalkRedoes(seal, s, ck, e, plan.spends, k);
    }
    var u := Undo(w.entry, k);
    assert Walk(seal, t, ck, u, plan.spends) == Walk(seal, s, ck, u, plan.spends) by {
      WalksAlike(seal, s, t, ck, e, u, plan.spends);
    }
  }

  // A rebuilt entry, whether opened by the rebuild or there before it, rolled back by any of
  // the spends the rebuild applied and rebuilt again, also when more is known by then, is the
  // same entry, and exactly the undone spends were applied; as long as a spend is left, or
  // none was undone.
  lemma {:induction false} RebuildReplaysUndone(
    seal: Seal, s: Source, t: Source, plan: RebuildPlan, x: Option<Entry>, k: nat)
    requires Agrees(s, t) && (x.Some? ==> Paired(x.value) && Keyed(x.value))
    requires RebuildFrom(seal, s, plan, x).1.Ok?
    requires k <= RebuildFrom(seal, s, plan, x).1.value.applied
    requires k == 0 || k < |RebuildFrom(seal, s, plan, x).0.value.history|
    ensures k <= |plan.spends| && k <= |RebuildFrom(seal, s, plan, x).0.value.history|
    ensures var (y, r) := RebuildFrom(seal, s, plan, x);
            RebuildFrom(seal, t, plan, Some(Undo(y.value, k)))
            == (y, Ok(Summary(false, k, |plan.spends| - k, r.value.at, r.value.daa)))
  {
    var ck := plan.checkpoint;
    var e := StartAt(ck, x);
    var w := Walk(seal, s, ck, e, plan.spends);
    assert CheckExisting(e, ck).Pass?;
    RebuildFromUndone(seal, s, t, plan, x, k);
    assert CheckExisting(Undo(w.entry, k), ck).Pass? by {
      if k == 0 {
        WalkFits(seal, s, ck, e, plan.spends);
      } else {
        assert Paired(w.entry) by { WalkIsSpending(seal, s, ck, e, plan.spends); }
        UndoReceipts(w.entry, k);
        UndoneFits(seal, s, ck, e, plan.spends, k);
      }
    }
  }

  // With every spend undone the rebuild goes through exactly when the DAA score left behind
  // by the rollback happens to be the checkpoint's, and the encoding version is unchanged.
  lemma {:induction false} RebuildAfterFullUndoIff(
    seal: Seal, s: Source, t: Source, plan: RebuildPlan, x: Option<Entry>)
    requires Agrees(s, t) && (x.Some? ==> Paired(x.value) && Keyed(x.value) && x.value.history == [])
    requires RebuildFrom(seal, s, plan, x).1.Ok?
    requires RebuildFrom(seal, s, plan, x).0.value.history != []
    ensures var y := RebuildFrom(seal, s, plan, x).0;
            var n := |y.value.history|;
            var again := RebuildFrom(seal, t, plan, Some(Undo(y.value, n)));
            && (again.1.Ok? <==> Before(y.value.history[0].daa) == plan.checkpoint.daa
                                 && y.value.latest.version == plan.checkpoint.initial.version)
            && (again.1.Ok? ==> again.0 == y)
  {
    var ck := plan.checkpoint;
    var e := StartAt(ck, x);
    var w := Walk(seal, s, ck, e, plan.spends);
    var qs := Applied(seal, s, ck, e, plan.spends);
    WalkIsSpending(seal, s, ck, e, plan.spends);
    RebuildFromUndone(seal, s, t, plan, x, |qs|);
    UndoneFits(seal, s, ck, e, plan.spends, |qs|);
    UndoReceipts(w.entry, |qs|);
    UndoRestores(seal, e, qs);
    FirstAndLast(seal, e, qs);
  }

  lemma {:induction false} FirstAndLast(seal: Seal, e: Entry, qs: seq<Request>)
    requires SpendAll(seal, e, qs).Ok? && qs != []
    ensures var f := SpendAll(seal, e, qs).value;
            && f.latest == Last(qs).state
            && |f.history| > |e.history| && f.history[|e.history|].daa == qs[0].daa
            && f.history[..|e.history|] == e.history
    decreases |qs|
  {
    var g := Spent(e, qs[0]);
    if |qs| > 1 {
      FirstAndLast(seal, g, qs[1..]);
      var f := SpendAll(seal, e, qs).value;
      assert f.history[..|g.history|][|e.history|] == g.history[|e.history|];
      assert f.history[..|g.history|][..|e.history|] == f.history[..|e.history|];
    } else {
      assert SpendAll(seal, g, qs[1..]) == Ok(g);
    }
  }

  // It does fail: one spend whose block is later than the one after the checkpoint is rebuilt,
  // but not after it is undone.
  lemma {:induction false} FullUndoIsNotReplayed(seal: Seal) returns (s: Source, plan: RebuildPlan)
    ensures RebuildFrom(seal, s, plan, None).1.Ok?
    ensures var y := RebuildFrom(seal, s, plan, None).0.value;
            |y.history| == 1 && RebuildFrom(seal, s, plan, Some(Undo(y, 1))).1 == Err(Invariant)
  {
    var e, q := FirstEntry(1, 0), FirstSpend(1, 5);
    s := Source(Ok(KaspaMainnet), (o: Outpoint) => Ok(Some(Evidence(Fill(9), Some(5), Some(1)))));
    var ck := Checkpoint(KaspaMainnet, e.covenant, e.lineage, e.latest, e.open.value, 0);
    var p := Planned(q.receipt, q.spent, q.created, q.state, Fill(9), 1);
    plan := RebuildPlan(ck, [p]);
    FirstSpendPasses(seal, 1, 1, 0, 5);
    assert OpenedAt(ck) == e && RequestOf(p, 5) == q;
    assert Walk(seal, s, ck, Spent(e, q), [p][1..]) == Walked(Spent(e, q), Pass, 0, 0);
    assert Walk(seal, s, ck, e, [p]) == Walked(Spent(e, q), Pass, 1, 0);
    assert Undo(Spent(e, q), 1) == UndoOne(Spent(e, q));
  }
}
