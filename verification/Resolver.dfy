/**
 `resolve_by_covenant`: the verdict on a covenant from an index entry and whatever a chain
 backend reports.
 */
module Resolver {
  import opened Bytes
  import opened Core
  import opened Ledger
  import opened LedgerRuns

  // ---- the backend, as arbitrary functions ----

  // What the resolver distinguishes about a backend error.
  datatype BackendError = NodeUnavailable | RpcFailed | Pruned | Other

  datatype SpendRef = SpendRef(txid: Bytes32, daa: Option<u64>)

  datatype Utxo = Utxo(spending: Option<SpendRef>)

  datatype Backend = Backend(
    network: Result<ChainId, BackendError>,
    utxo: Outpoint -> Result<Option<Utxo>, BackendError>,
    depth: Bytes32 -> Result<Option<u64>, BackendError>)

  function DepthOf(b: Backend, txid: Bytes32): u64 {
    match b.depth(txid)
    case Err(_) => 0
    case Ok(d) => if d.Some? then d.value else 0
  }

  // ---- verdicts ----

  datatype Flaw =
    | MissingContinuation
    | ZeroCommitment
    | ZeroShapeRoot
    | ZeroTransitionDigest
    | OutpointTxidDiffers
    | BadMigration
    | MigrationForUnchangedPolicy
    | NoReceipt

  datatype Verdict =
    | Open(at: Outpoint, state: StateCommitment)
    | Valid(spent: Outpoint, created: Outpoint, receipt: Bytes32, state: StateCommitment,
            certificate: Option<Certificate>, depth: u64)
    | Invalid(flaw: Flaw)
    | Unconfirmed(txid: Bytes32)
    | ReorgRisk(daa: u64)
    | CompetingBranch(spent: Outpoint, indexed: Bytes32, observed: Bytes32, observedDaa: Option<u64>)
    | PolicyMigrationRequired(current: ReceiptPolicy, requested: ReceiptPolicy)
    | Unknown
    | NodeDown

  // `validate_indexed_continuation`
  function CheckContinuation(s: Spend, txid: Bytes32): Outcome<Flaw> {
    if s.continuation.None? then Fail(MissingContinuation)
    else if s.continuation.value.commitment == ZERO32 then Fail(ZeroCommitment)
    else if s.continuation.value.shapeRoot == ZERO32 then Fail(ZeroShapeRoot)
    else if s.continuation.value.transitionDigest == ZERO32 then Fail(ZeroTransitionDigest)
    else if s.created.txid != txid then Fail(OutpointTxidDiffers)
    else Pass
  }

  // `validate_indexed_policy_migration`
  predicate MigrationHolds(seal: Seal, s: Spend, latest: StateCommitment) {
    && s.migration.Some? && s.continuation.Some?
    && var p := s.migration.value;
       && p.previousPolicy == s.previousPolicy
       && p.newPolicy == s.newPolicy
       && p.newPolicy == latest.policy
       && p.previousDigest == s.previousDigest
       && p.newDigest == s.resultingDigest && p.newDigest == latest.digest
       && p.transitionDigest == s.continuation.value.transitionDigest
       && p.authorization != ZERO32
       && p.commitment == seal(Migration(p.previousPolicy, p.newPolicy, p.previousDigest, p.newDigest,
                                         p.transitionDigest, p.authorization))
  }

  datatype Config = Config(chain: ChainId, safety: u64)

  // The backend reports a spend of the outpoint that the last indexed spend consumed.
  function JudgeLast(seal: Seal, g: Config, b: Backend, e: Entry, last: Spend, sp: SpendRef): Verdict {
    var depth := DepthOf(b, sp.txid);
    if depth == 0 then Unconfirmed(sp.txid)
    else if depth < g.safety then ReorgRisk(if sp.daa.Some? then sp.daa.value else 0)
    else if last.created.txid != sp.txid then CompetingBranch(last.spent, last.created.txid, sp.txid, sp.daa)
    else
      match CheckContinuation(last, sp.txid)
      case Fail(flaw) => Invalid(flaw)
      case Pass =>
        if last.previousPolicy != e.latest.policy && last.migration.None? then
          PolicyMigrationRequired(last.previousPolicy, e.latest.policy)
        else if last.previousPolicy != e.latest.policy && !MigrationHolds(seal, last, e.latest) then Invalid(BadMigration)
        else if last.previousPolicy == e.latest.policy && last.migration.Some? then Invalid(MigrationForUnchangedPolicy)
        else Valid(last.spent, last.created, last.receipt, e.latest, last.certificate, depth)
  }

  // Otherwise the open outpoint decides.
  function JudgeOpen(g: Config, b: Backend, e: Entry, at: Outpoint): Verdict {
    match b.utxo(at)
    case Err(NodeUnavailable) => NodeDown
    case Err(RpcFailed) => NodeDown
    case Err(_) => Unknown
    case Ok(None) => Unknown
    case Ok(Some(u)) =>
      if u.spending.None? then Open(at, e.latest)
      else
        var sp := u.spending.value;
        var depth := DepthOf(b, sp.txid);
        if depth == 0 then Unconfirmed(sp.txid)
        else if depth < g.safety then ReorgRisk(if sp.daa.Some? then sp.daa.value else 0)
        else if e.history == [] then Invalid(NoReceipt)
        else Valid(at, at, Last(e.history).receipt, e.latest, Last(e.history).certificate, depth)
  }

  function ResolveEntry(seal: Seal, g: Config, b: Backend, e: Entry, at: Outpoint): Verdict {
    if e.history == [] then JudgeOpen(g, b, e, at)
    else
      match b.utxo(Last(e.history).spent)
      case Err(NodeUnavailable) => NodeDown
      case Err(RpcFailed) => NodeDown
      case Err(Pruned) => Unknown
      case Err(Other) => JudgeOpen(g, b, e, at)
      case Ok(None) => JudgeOpen(g, b, e, at)
      case Ok(Some(u)) =>
        if u.spending.Some? then JudgeLast(seal, g, b, e, Last(e.history), u.spending.value)
        else JudgeOpen(g, b, e, at)
  }

  // `resolve_by_covenant`, with the entry the index holds for the covenant.
  function Resolve(seal: Seal, g: Config, b: Backend, x: Option<Entry>): Verdict {
    if b.network != Ok(g.chain) then NodeDown
    else if x.None? || x.value.open.None? then Unknown
    else ResolveEntry(seal, g, b, x.value, x.value.open.value)
  }

  // ---- what the index guarantees the resolver ----

  // On an entry the operations can reach, the verdict on the last spend takes only these
  // shapes: nothing is left to find wrong with a stored proof.
  lemma JudgeLastIs(seal: Seal, base: Entry, g: Config, b: Backend, e: Entry, sp: SpendRef)
    requires Sound(seal, base, e) && e.history != []
    ensures var last, depth := Last(e.history), DepthOf(b, sp.txid);
            JudgeLast(seal, g, b, e, last, sp)
            == if depth == 0 then Unconfirmed(sp.txid)
               else if depth < g.safety then ReorgRisk(if sp.daa.Some? then sp.daa.value else 0)
               else if last.created.txid != sp.txid then CompetingBranch(last.spent, last.created.txid, sp.txid, sp.daa)
               else if last.continuation.None? then Invalid(MissingContinuation)
               else if last.previousPolicy != last.newPolicy && last.migration.None? then
                 PolicyMigrationRequired(last.previousPolicy, last.newPolicy)
               else Valid(last.spent, e.open.value, last.receipt, e.latest, last.certificate, depth)
  {
    assert SpendAt(seal, StartOf(base), e.history, |e.history| - 1);
  }

  // The backend is on the right chain and reports who spent an outpoint.
  predicate Reports(g: Config, b: Backend, at: Outpoint, sp: SpendRef) {
    b.network == Ok(g.chain) && b.utxo(at) == Ok(Some(Utxo(Some(sp))))
  }

  // For every reachable entry and every backend that reports a spend of the outpoint the
  // last spend consumed.
  lemma ReportedSpendValidIff(seal: Seal, base: Entry, g: Config, b: Backend, e: Entry, sp: SpendRef)
    requires Sound(seal, base, e) && e.history != []
    requires Reports(g, b, Last(e.history).spent, sp)
    ensures var v, last, depth := Resolve(seal, g, b, Some(e)), Last(e.history), DepthOf(b, sp.txid);
            && (v.Valid? <==> && depth >= 1 && depth >= g.safety
                              && last.created.txid == sp.txid
                              && last.continuation.Some?
                              && (last.previousPolicy == last.newPolicy || last.migration.Some?))
            && (v.Invalid? ==> v.flaw == MissingContinuation)
            && (v.Valid? ==> v == Valid(last.spent, e.open.value, last.receipt, e.latest, last.certificate, depth))
            && !v.Open? && !v.Unknown? && !v.NodeDown?
  {
    JudgeLastIs(seal, base, g, b, e, sp);
  }

  // The last spend is not reported as spent, and no error stops the resolver.
  predicate FallsThrough(b: Backend, e: Entry) {
    || e.history == []
    || var r := b.utxo(Last(e.history).spent);
       r == Err(Other) || r == Ok(None) || (r.Ok? && r.value.Some? && r.value.value.spending.None?)
  }

  // For every reachable entry and every backend whatsoever: when the answer is Valid.
  lemma ValidIff(seal: Seal, base: Entry, g: Config, b: Backend, e: Entry)
    requires Sound(seal, base, e)
    ensures Resolve(seal, g, b, Some(e)).Valid? <==>
              && e.history != []
              && ((exists sp: SpendRef ::
                     && Reports(g, b, Last(e.history).spent, sp)
                     && DepthOf(b, sp.txid) >= 1 && DepthOf(b, sp.txid) >= g.safety
                     && Last(e.history).created.txid == sp.txid
                     && Last(e.history).continuation.Some?
                     && (Last(e.history).previousPolicy == Last(e.history).newPolicy || Last(e.history).migration.Some?))
                  || (FallsThrough(b, e) && exists sp: SpendRef ::
                        && Reports(g, b, e.open.value, sp)
                        && DepthOf(b, sp.txid) >= 1 && DepthOf(b, sp.txid) >= g.safety))
  {
    var v := Resolve(seal, g, b, Some(e));
    if e.history != [] {
      var r := b.utxo(Last(e.history).spent);
      if r.Ok? && r.value.Some? && r.value.value.spending.Some? {
        var sp := r.value.value.spending.value;
        assert r.value.value == Utxo(Some(sp));
        JudgeLastIs(seal, base, g, b, e, sp);
        if v.Valid? { assert Reports(g, b, Last(e.history).spent, sp); }
      } else if v.Valid? {
        var o := b.utxo(e.open.value);
        assert o.value.value == Utxo(Some(o.value.value.spending.value));
        assert Reports(g, b, e.open.value, o.value.value.spending.value);
      }
    }
  }

  // The second case does happen: a backend that reports the open outpoint spent and nothing of
  // the one before it gets the answer Valid on a spend without a continuation proof.
  lemma ValidWithoutContinuation(seal: Seal) returns (base: Entry, q: Request, g: Config, b: Backend)
    ensures Fresh(base) && CheckSpend(seal, base, q).Pass? && q.continuation.None?
    ensures Resolve(seal, g, b, Some(Spent(base, q))).Valid?
  {
    base, q, g := FirstEntry(1, 0), FirstSpend(1, 0), Config(KaspaMainnet, 1);
    FirstSpendPasses(seal, 1, 1, 0, 0);
    var reported := Utxo(Some(SpendRef(Fill(9), None)));
    b := Backend(Ok(KaspaMainnet), (o: Outpoint) => if o == q.created then Ok(Some(reported)) else Ok(None),
                 (t: Bytes32) => Ok(Some(1)));
    FillDiffers(5, 8);
    assert Last(Spent(base, q).history).spent == q.spent && q.spent != q.created;
  }

  // An Open answer is about the newest state, and that state has not been spent.
  lemma OpenMeans(seal: Seal, base: Entry, g: Config, b: Backend, e: Entry)
    requires Sound(seal, base, e) && Resolve(seal, g, b, Some(e)).Open?
    ensures Resolve(seal, g, b, Some(e)) == Open(TipAt(StartOf(base), e.history, |e.history|).at, e.latest)
    ensures b.network == Ok(g.chain) && b.utxo(e.open.value) == Ok(Some(Utxo(None)))
    ensures FallsThrough(b, e)
  {
    var v := Resolve(seal, g, b, Some(e));
    if e.history != [] {
      var r := b.utxo(Last(e.history).spent);
      if r.Ok? && r.value.Some? && r.value.value.spending.Some? {
        JudgeLastIs(seal, base, g, b, e, r.value.value.spending.value);
      }
    }
    var o := b.utxo(e.open.value);
    assert o.value.value == Utxo(o.value.value.spending);
  }

  // More confirmations never take a Valid answer back: two backends that differ only in
  // reporting larger depths, as time goes by.
  lemma ValidIsStable(seal: Seal, base: Entry, g: Config, b: Backend, c: Backend, e: Entry)
    requires Sound(seal, base, e)
    requires c.network == b.network && c.utxo == b.utxo
    requires forall t: Bytes32 :: DepthOf(c, t) >= DepthOf(b, t)
    requires Resolve(seal, g, b, Some(e)).Valid?
    ensures Resolve(seal, g, c, Some(e)).Valid?
  {
    ValidIff(seal, base, g, b, e);
    ValidIff(seal, base, g, c, e);
    if sp: SpendRef :|
      && Reports(g, b, Last(e.history).spent, sp)
      && DepthOf(b, sp.txid) >= 1 && DepthOf(b, sp.txid) >= g.safety
      && Last(e.history).created.txid == sp.txid
      && Last(e.history).continuation.Some?
      && (Last(e.history).previousPolicy == Last(e.history).newPolicy || Last(e.history).migration.Some?)
    {
      assert Reports(g, c, Last(e.history).spent, sp) && DepthOf(c, sp.txid) >= DepthOf(b, sp.txid);
    } else {
      var sp: SpendRef :| Reports(g, b, e.open.value, sp) && DepthOf(b, sp.txid) >= 1 && DepthOf(b, sp.txid) >= g.safety;
      assert Reports(g, c, e.open.value, sp) && DepthOf(c, sp.txid) >= DepthOf(b, sp.txid);
    }
  }
}
