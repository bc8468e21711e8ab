# RGK, verified

RGK is a client-validated asset protocol over Kaspa covenant lineages. This project models
its I/O-free core in Dafny and proves what the pieces promise together:

- **Asset grammar.** An issue followed by any number of transitions conserves supply up to
  reported burns. A continuation plan finalizes into a transition that agrees with it. The
  production strategy record is a bijection with its bytes.
- **Covenant scripts.** The redeem-script builders emit bytes. Run on a stack machine with the
  opcode meanings of the source, those bytes accept exactly the spends the policy allows.
- **Indexer.** Spends, rollbacks, certificates, restarts, rebuilds and the scan-tag index, over
  every interleaving.
- **Resolver and receipts.** When a verdict is Valid, for every index entry the operations can
  reach and every chain backend. A receipt's life: verified, applied, replayed, rolled back.
- **Transactions and scanner.** Preimages that determine what they commit to, covenant groups
  bound all or nothing, and a scanner whose cursor never passes unrecorded evidence.

`dafny verify dfyconfig.toml` checks the whole project.

## How to read it

| file | what it holds |
|---|---|
| `Bytes`, `Codec`, `Core`, `Hashing` | bytes, prefix codecs with their laws, canonical types, domain-separated hashing |
| `Wire`, `CoreWire`, `RecordWire` | `Writer` and `Reader`, and the canonical types and audit certificates written and read through them |
| `Tally`, `Sorting` | the validators' loop over a list with distinct ids, and sorting by a key |
| `Asset`, `AssetDigests`, `AssetRun` | validators, roots and digests, runs of transitions |
| `Continuation`, `AssetExample`, `StrategyRecord`, `StrategyCommitment` | plans, finalization, semantic statements, one worked run, strategy records |
| `ScriptNum`, `Script`, `Covenant`, `CovenantScript`, `CovenantBuilder` | script numbers, the stack machine, the payload, the programs, the builders |
| `Ledger`, `LedgerRuns`, `LedgerRecord`, `LedgerStore`, `Rebuild`, `LedgerRestarts`, `Lanes`, `Indexer` | one entry, its runs, its record, the two indexers, rebuilds, rebuilds on both, lanes, the in-memory class |
| `Receipts`, `Resolver` | receipt ids, verification, verdicts |
| `Tx`, `Genesis`, `Scanner` | preimages and ids, covenant groups, the scan service |

The hash is a function parameter and every statement holds for every such function. Where a
statement needs two digests to differ, it names the finite set of byte strings on which the
hash must not collide (`Hashing.CollisionFree`). The migration commitment and the receipt id
are parameters in the same way (`Ledger.Seal`, `Receipts.Ids`), with the program's own
functions defined beside them. The chain backend, the rebuild source and the scanner's world
are arbitrary functions. Lengths that the program writes as 32-bit counts are taken to fit.

## Where the code gives less than its description

Each has its exact condition, and an input that shows it fails:

- Undoing spends restores everything but the DAA score only if the newest state kept the
  encoding version (`LedgerRuns.UndoRestoresAllButDaaIff`, `LedgerRuns.VersionIsNotRestored`).
- A record of an entry reads back only if the latest state is structurally valid, which
  spending does not check (`LedgerRecord.ReopenIff`, `LedgerRecord.InvalidStateDoesNotReopen`).
- A rebuild after undoing every spend goes through only if the DAA score left by the rollback
  is the checkpoint's and the encoding version is unchanged (`Rebuild.RebuildAfterFullUndoIff`,
  `Rebuild.FullUndoIsNotReplayed`).
- The scan-tag index agrees with a scan of all lanes after every registration only if every
  registration meets two conditions (`Lanes.AlwaysExactIff`, `Lanes.SharedTagIsLost`).
- When the backend does not report a spend of the last consumed outpoint, the resolver judges
  the open outpoint without looking at the continuation proof. `Resolver.ValidIff` has this as
  its second case, and `Resolver.ValidWithoutContinuation` reaches it.
- A script compares what the engine pushes. A policy's checks keep the covenant and the
  authorising input, over every spend, exactly if what the engine pushes for a missing one is
  neither an id nor that input (`CovenantScript.PolicyMeansAllowsIff`; on any other engine
  `CovenantScript.OtherEngineAdmits` gives a spend for each policy). The shared policy's do
  exactly if what is pushed for a missing id is not an id
  (`CovenantScript.SharedMeansAllowsIff`, `CovenantScript.StandInAdmits`).
- The schema id is not part of the state digest (`AssetRun.SchemaIsNotBound`), and the asset
  id is not part of the receipt id (`Receipts.AssetIsNotInTheId`).
- An indexer record that decodes is written back as the same bytes exactly if it is a version 3
  record whose presence bytes are all 0 or 1 (`LedgerRecord.RewriteIsIdentityIff`). Every record
  with an open outpoint has other spellings (`LedgerRecord.OpenFlagIsFree`,
  `LedgerRecord.TwoRecordsOneEntry`), and a version 2 record is replaced by a version 3 one
  (`LedgerRecord.OldRecordsAreRewritten`). What is written back always decodes to the same entry
  (`LedgerRecord.RewriteKeepsMeaning`).

## Model

| member | source | states |
|---|---|---|
| `AssetRun.RunTheorem` | crates/rgk-asset/src/native.rs:1236-1394 | over a valid issue and any number of transitions chained by state digest: live supply plus reported burns is the issued supply, each step spends a permutation of what the step before it created, owners link, the asset's other fields never change, nothing follows a full burn; barring a collision among the run's preimages |
| `AssetRun.RunConservesSupply` | crates/rgk-asset/src/native.rs:3015-3059 | after every prefix of a run, live supply plus all reported burns equals the issued total |
| `AssetRun.StepLinks` | crates/rgk-asset/src/native.rs:1319-1394 | the state a step declares as previous is the state its predecessor left, on the same chain |
| `AssetRun.StaticsNeverChange` | crates/rgk-asset/src/native.rs:3076-3088 | chain, asset id, supply cap, lane, privacy, metadata and proof policy are those of the issue at every step |
| `AssetRun.FullBurnIsFinal` | crates/rgk-asset/src/native.rs:1319-1394 | a step that leaves no allocation is the last one |
| `AssetRun.TransitionMeans` | crates/rgk-asset/src/native.rs:1319-1437 | the transition validator accepts exactly the transitions that obey the rules written as a predicate, and its report's supplies are those of the two sets |
| `AssetRun.IssueMeans` | crates/rgk-asset/src/native.rs:1236-1274 | the issue validator accepts exactly the issues that obey the rules, with allocations summing to the supply |
| `AssetRun.PolicyMeans` | crates/rgk-asset/src/native.rs:471-507 | a proof policy is accepted exactly when no key or image id it names is zero and an allowed set is not empty |
| `AssetRun.SchemaIsNotBound` | crates/rgk-asset/src/native.rs:3076-3088 | a valid transition stays valid with the same state digests under any other non-zero schema id |
| `Asset.ValidateAllocationSet` | crates/rgk-asset/src/native.rs:2930-2970 | the loop with its set of seen outpoints and running total returns exactly what the specification does: the first fault, or the total |
| `Asset.AllocationTotalMeans` | crates/rgk-asset/src/native.rs:2930-2970 | a list is accepted exactly when every allocation is anchored, outpoints are distinct and the sum fits 64 bits; the result is the sum |
| `Asset.ValidateShapes` | crates/rgk-asset/src/native.rs:2972-3013 | the shape loop returns exactly what the specification does |
| `Asset.ShapeTotalMeans` | crates/rgk-asset/src/native.rs:2972-3013 | shapes are accepted exactly when well formed with distinct output indices, empty only with a burn; the result is the sum |
| `Asset.SupplyDeltaMeans` | crates/rgk-asset/src/native.rs:3015-3059 | the delta is accepted exactly when a burn proof is present if and only if supply shrinks, and is for the difference |
| `Tally.Scan` | crates/rgk-asset/src/native.rs:2930-2970 | the shared loop computes the tally of its specification |
| `Tally.TalliedMeans` | crates/rgk-asset/src/native.rs:2930-2970 | a tally succeeds exactly on lists without faults, with distinct ids and a sum below 2^64 |
| `Tally.SumOfPermutation` | crates/rgk-asset/src/native.rs:3116-3126 | the total does not depend on the order of the list |
| `AssetDigests.RootIffPermutation` | crates/rgk-asset/src/native.rs:3116-3138 | two validated allocation lists have the same root exactly when they are permutations of each other, barring a collision |
| `AssetDigests.ShapeRootIffPermutation` | crates/rgk-asset/src/native.rs:3090-3114 | the same for validated shapes and their chain |
| `AssetDigests.DigestIffSameState` | crates/rgk-asset/src/native.rs:3076-3088 | state digests agree exactly when the states do, allocations up to order, barring a collision |
| `AssetDigests.PolicyPayloadInjective` | crates/rgk-asset/src/native.rs:3161-3204 | the policy payload determines the policy, lists of image ids included |
| `Sorting.SortIffPermutation` | crates/rgk-asset/src/native.rs:3116-3126 | lists with distinct keys sort to the same list exactly when they are permutations |
| `Continuation.PlanAtEndOfRun` | crates/rgk-asset/src/native.rs:1524-1677 | a valid plan at the end of any run finalizes exactly when the witness is non-zero, the depth is at least one unless there are no shapes and no shape lands on a spent outpoint; the reports then agree, yield a semantic statement unless one of five hashes is zero, and the transition extends the run |
| `AssetExample.TheoremsApply` | crates/rgk-asset/src/native.rs:1524-1677 | an issue, a plan, a settlement and a hash that meet every hypothesis of the plan theorem; the plan finalizes, and the run it extends meets every hypothesis of the run theorem |
| `Continuation.FinalizeIff` | crates/rgk-asset/src/native.rs:1524-1574 | the exact condition under which a valid plan finalizes |
| `Continuation.PlanMeans` | crates/rgk-asset/src/native.rs:1591-1677 | the plan validator accepts exactly the plans that obey the rules, and its report's supplies are theirs |
| `Continuation.FinalizedReportsAgree` | crates/rgk-zk/src/lib.rs:444-554 | the transition report and the continuation report of a finalized plan agree on all 18 compared fields |
| `Continuation.StatementIff` | crates/rgk-zk/src/lib.rs:604-675 | finalized within the issued supply, the statement is accepted exactly when its five unchecked hashes are non-zero |
| `StrategyRecord.RecordBijection` | crates/rgk-asset/src/native.rs:1960-2021 | bytes decode to a record exactly when the record is one that can be built and encodes to those bytes |
| `StrategyRecord.PlanLawful` | crates/rgk-asset/src/native.rs:2434-2517 | the plan's layout, with its lists, options and tagged unions, round-trips and is canonical |
| `StrategyRecord.PolicyLawful` | crates/rgk-asset/src/native.rs:2329-2432 | the proof policy's tagged layout round-trips and is canonical |
| `StrategyRecord.StrategyLawful` | crates/rgk-asset/src/native.rs:2519-2604 | the strategy's tagged layout round-trips and is canonical |
| `StrategyRecord.FromCounts` | crates/rgk-asset/src/native.rs:575-580 | a proof shape is found exactly when one has these two counts |
| `StrategyCommitment.StrategyCommitmentBinds` | crates/rgk-asset/src/native.rs:2080-2119 | strategy commitments agree exactly when the covered report fields and the strategy do, barring a collision |
| `Hashing.FrameInjective` | crates/rgk-core/src/commit.rs:75-85 | the framing of tag and payload is injective, whatever the two contain |
| `Core.ReceiptWireBijection` | crates/rgk-core/src/types.rs:326-391 | a structurally valid receipt decodes from its wire form, and whatever decodes is valid and re-encodes to the same bytes |
| `Wire.Reader.Advance` | crates/rgk-core/src/encoding.rs:189-201 | takes n bytes off the front, or fails without moving |
| `Wire.Reader.ReadBlob` | crates/rgk-core/src/encoding.rs:169-180 | reads a length-prefixed blob within the cap |
| `Wire.Writer.WriteBlob` | crates/rgk-core/src/encoding.rs:111-115 | appends a 32-bit length and the bytes |
| `CoreWire.ReadCommitment` | crates/rgk-core/src/types.rs:326-352 | reading field by field is decoding with the commitment codec, structural rules included |
| `CoreWire.WriteCommitment` | crates/rgk-core/src/types.rs:326-334 | writing field by field appends the codec's encoding |
| `CoreWire.EncodeReceipt` | crates/rgk-core/src/encoding.rs:44-50 | the bytes written are the codec's, and decode to the receipt when it is valid |
| `CoreWire.DecodeReceipt` | crates/rgk-core/src/encoding.rs:54-68 | accepts exactly the canonical bytes of valid receipts and nothing behind them |
| `Codec.LaxBoolRelaxes` | crates/rgk-core/src/encoding.rs:165-167 | reading any non-zero byte as true writes what strict booleans write and reads all they read, so booleans round-trip; the byte 2 also reads as true, so they are not canonical |
| `ScriptNum.NumRoundTrip` | crates/rgk-covenant/src/lib.rs:1577-1610 | reading back a script number returns it, for every integer |
| `ScriptNum.NumberBytes` | crates/rgk-covenant/src/lib.rs:1592-1608 | the shifting loop and the sign bit produce the script number |
| `Script.PushScriptI64` | crates/rgk-covenant/src/lib.rs:1577-1610 | appends the minimal push of the number |
| `Script.RunNum` | crates/rgk-covenant/src/lib.rs:1577-1610 | running the bytes pushes the number and goes on behind them |
| `Script.RunData` | crates/rgk-covenant/src/lib.rs:1638-1656 | running a data push of any size pushes exactly the data; no byte of it is read as an opcode |
| `Script.RunAssembled` | crates/rgk-covenant/src/lib.rs:1322-1422 | running assembled bytes is executing the instructions, from any stack and with anything behind |
| `CovenantScript.PolicyProgramMeans` | crates/rgk-covenant/src/lib.rs:1346-1421 | the program ends with true on top exactly when the policy holds of the spend, and fails otherwise |
| `CovenantScript.PolicyHoldsIffAllows` | crates/rgk-covenant/src/lib.rs:1361-1378 | where the engine's stand-ins are neither an id nor the authorising input, the policy holds exactly when the listed outputs keep script, covenant and authorising input in the transaction's own fields |
| `CovenantScript.PolicyMeansAllowsIff` | crates/rgk-covenant/src/lib.rs:1361-1378 | for every valid policy and engine: over all spends the checks mean script, covenant and authorising input are kept, if and only if the engine's stand-ins are neither an id nor the authorising input |
| `CovenantScript.OtherEngineAdmits` | crates/rgk-covenant/src/lib.rs:1073-1078 | on every other engine and for every valid policy, a spend that passes all checks without keeping the covenant or without naming the authorising input |
| `CovenantScript.SharedProgramMeans` | crates/rgk-covenant/src/lib.rs:1453-1511 | the shared program succeeds exactly when the counts, taken as sizes of sets, are exact and every output carrying the id keeps the script |
| `CovenantScript.SharedHoldsIffAllows` | crates/rgk-covenant/src/lib.rs:1465-1489 | the same for the shared policy, in the covenant field of the running input |
| `CovenantScript.SharedMeansAllowsIff` | crates/rgk-covenant/src/lib.rs:1465-1489 | for every valid shared policy and engine: over all spends the checks mean the running input's own covenant is kept, if and only if the stand-in for a missing id is not an id |
| `CovenantScript.StandInAdmits` | crates/rgk-covenant/src/lib.rs:1453-1511 | on every other engine and for every valid shared policy, a spend by an input without a covenant that passes all checks |
| `CovenantBuilder.ValidateContinuation` | crates/rgk-covenant/src/lib.rs:1182-1213 | the loop accepts exactly the valid policies and names the fault |
| `CovenantBuilder.ValidPolicyOutputs` | crates/rgk-covenant/src/lib.rs:1194-1211 | a valid policy's outputs are strictly increasing, not only from one to the next |
| `CovenantBuilder.ValidateShared` | crates/rgk-covenant/src/lib.rs:1251-1274 | accepts exactly the valid shared policies |
| `CovenantBuilder.BuildScriptForPolicy` | crates/rgk-covenant/src/lib.rs:1322-1422 | fails exactly on invalid policies; the bytes accept a spend, from any stack, exactly when the policy holds as the engine sees it, and, where the engine's stand-ins for a missing id or authoriser are neither, exactly when every listed output keeps script, covenant and authorising input and the payload encodes a state of the spec |
| `CovenantBuilder.BuildScriptForSharedPolicy` | crates/rgk-covenant/src/lib.rs:1429-1512 | fails exactly on invalid policies; the bytes accept a spend exactly when the counts are exact and every output carrying the id keeps the script, as the engine sees it and in the transaction's own fields |
| `CovenantBuilder.SharedVerdictIsShared` | crates/rgk-covenant/src/lib.rs:1424-1429 | a built shared script gives the same verdict on all inputs with one script and covenant, whatever the stacks |
| `CovenantBuilder.ScriptBuffer.PushSliceEquals` | crates/rgk-covenant/src/lib.rs:1612-1618 | appends the instructions of one payload slice check |
| `CovenantBuilder.ScriptBuffer.PushSharedIndex` | crates/rgk-covenant/src/lib.rs:1620-1634 | appends the instructions that look up the j-th carrying output |
| `CovenantBuilder.LineageNeverChanges` | crates/rgk-covenant/src/lib.rs:1316-1321 | along any chain of accepted spends, of any length and through any listed output, the script and the covenant id the engine sees never change, nor the covenant itself where the engine's stand-in for a missing id is no id, and every payload encodes a state with the spec's static fields |
| `CovenantBuilder.AdvancedStatesStayAccepted` | crates/rgk-covenant/src/lib.rs:842-862 | whatever advances succeed from genesis, the original script still accepts the payload in a spend of the right shape |
| `Covenant.PayloadBijection` | crates/rgk-covenant/src/lib.rs:878-947 | a payload decodes to a state exactly when the state is valid and encodes to it |
| `Covenant.PayloadHoldsIff` | crates/rgk-covenant/src/lib.rs:1380-1414 | the slice checks accept exactly the encodings of states with the spec's static fields |
| `Covenant.PayloadHoldsIffDecodes` | crates/rgk-covenant/src/lib.rs:1380-1414 | for non-zero lineage and asset, they accept exactly the payloads that decode to such a state |
| `Covenant.AdvancesStayAccepted` | crates/rgk-covenant/src/lib.rs:842-862 | every sequence of advances keeps the static fields and the payload acceptable |
| `LedgerRuns.RunSound` | crates/rgk-indexer/src/lib.rs:807-885 | over every interleaving of spends, rollbacks and certificates: accepted receipts are the history's ids without duplicates, each spend consumes the outpoint before it, digests and policies chain and advance, stored proofs are valid, the latest state is the last result |
| `LedgerRuns.UndoRestores` | crates/rgk-indexer/src/lib.rs:1065-1089 | exactly what undoing any series of spends brings back: all but DAA score and encoding version |
| `LedgerRuns.UndoRestoresAllButDaaIff` | crates/rgk-indexer/src/lib.rs:1065-1089 | everything but the DAA score comes back exactly when the last state kept the encoding version |
| `LedgerRuns.VersionIsNotRestored` | crates/rgk-indexer/src/lib.rs:1083-1084 | an accepted spend whose undo leaves the encoding version changed |
| `LedgerRuns.OnlySurvivorsMatter` | crates/rgk-indexer/src/lib.rs:807-885 | any interleaving ends where applying just its surviving spends ends, up to DAA score, encoding version and certificates |
| `LedgerRuns.ReturnsAlike` | crates/rgk-indexer/src/lib.rs:1065-1089 | after any interleaving that leaves an entry's spends standing, rolling back to as many spends gives the entry back, up to DAA score, encoding version and certificates |
| `Ledger.MigrationCommitmentBinds` | crates/rgk-core/src/commit.rs:125-143 | migration commitments agree exactly when all six fields do, barring a collision |
| `Ledger.FindSpend` | crates/rgk-indexer/src/lib.rs:787-794 | the first spend with the receipt id, or none |
| `LedgerRecord.ReopenIff` | crates/rgk-indexer/src/lib.rs:1619-1785 | a reachable entry encodes, and reads back unchanged exactly when its latest state is structurally valid |
| `LedgerRecord.InvalidStateDoesNotReopen` | crates/rgk-indexer/src/lib.rs:1690-1690 | an accepted spend after which the record of the entry no longer reads |
| `LedgerRecord.OldRecordsStillRead` | crates/rgk-indexer/src/lib.rs:1675-1682 | a certificate-free entry in the version 2 layout reads back unchanged |
| `LedgerRecord.RewriteKeepsMeaning` | crates/rgk-indexer/src/lib.rs:1619-1785 | any bytes that decode, of either version, give an entry that encodes, and what is written decodes to the same entry |
| `LedgerRecord.RewriteIsIdentityIff` | crates/rgk-indexer/src/lib.rs:1619-1785 | writing back what was decoded gives the same bytes if and only if they are a version 3 record that the layout with presence bytes 0 and 1 reads |
| `LedgerRecord.OldRecordsAreRewritten` | crates/rgk-indexer/src/lib.rs:1672-1681 | a version 2 record that decodes is written back as a version 3 record of the same entry |
| `LedgerRecord.OpenFlagIsFree` | crates/rgk-indexer/src/lib.rs:1685-1689 | in every record with an open outpoint, byte 74 may be any non-zero byte: the same entry is read, from bytes the encoder never writes |
| `LedgerRecord.TwoRecordsOneEntry` | crates/rgk-indexer/src/lib.rs:1685-1689 | two records of a covenant just opened |
| `LedgerRecord.RawEntryRelaxes` | crates/rgk-indexer/src/lib.rs:1619-1785 | the whole layout relaxes the layout with strict presence bytes, in both versions |
| `RecordWire.WriteCertificate` | crates/rgk-indexer/src/lib.rs:1660-1665 | an invalid certificate is refused before a byte is written, a valid one is appended in the record's encoding |
| `RecordWire.ReadCertificate` | crates/rgk-indexer/src/lib.rs:1787-1794 | reading through the reader is decoding with the checked certificate codec |
| `RecordWire.CertificateBytes` | crates/rgk-indexer/src/lib.rs:1787-1794 | reading gives a certificate exactly when it is valid and its written form stands there, and leaves what is behind it |
| `LedgerStore.RestartIsInvisible` | crates/rgk-indexer/src/lib.rs:1404-1530 | over any commands with valid states, the indexer that reads every entry from its record before each operation gives the same answers as the one in memory, and its records read back as the entries in memory |
| `LedgerStore.StepMirrors` | crates/rgk-indexer/src/lib.rs:1259-1277 | one command keeps the store a mirror of the memory, with the same result |
| `LedgerRestarts.RestartsAreInvisible` | crates/rgk-indexer/src/lib.rs:1383-1531 | over any mix of opens, spends, rollbacks, certificates and rebuilds with valid states, the indexer that reads every entry from its record gives the same answers and rebuild summaries as the one in memory, and its records read back as the entries in memory |
| `LedgerRestarts.RebuildMirrors` | crates/rgk-indexer/src/lib.rs:463-555 | a rebuild over stored records, each lookup a decode and each spend a write, ends as the rebuild in memory does, progress kept on error included |
| `Rebuild.RebuildIdempotent` | crates/rgk-indexer/src/lib.rs:463-555 | after a successful rebuild, a second applies nothing, skips every spend and changes nothing, also from a source that knows more by then |
| `Rebuild.RebuildResumes` | crates/rgk-indexer/src/lib.rs:463-555 | whatever stopped a rebuild, running again with a source that knows at least as much (same transactions and DAA scores, new evidence, missing DAA scores filled in, more confirmations) ends as one uninterrupted run with that source does |
| `Rebuild.RebuildReplaysUndone` | crates/rgk-indexer/src/lib.rs:498-537 | an entry rebuilt from nothing or on top of an existing one, rolled back by any of the spends the rebuild applied with a spend left standing, is rebuilt to the same entry, applying exactly the undone spends, also from a source that knows more by then |
| `Rebuild.RebuildAfterFullUndoIff` | crates/rgk-indexer/src/lib.rs:574-628 | with all spends undone, the rebuild goes through exactly when the DAA score left by the rollback is the checkpoint's and the encoding version is unchanged |
| `Rebuild.FullUndoIsNotReplayed` | crates/rgk-indexer/src/lib.rs:574-628 | a plan with one spend that rebuilds, and no longer does after the spend is undone |
| `Rebuild.WalkFits` | crates/rgk-indexer/src/lib.rs:574-628 | an entry that fits its checkpoint still fits it after any part of the plan |
| `Indexer.ApplySpendToEntry` | crates/rgk-indexer/src/lib.rs:807-885 | the checks and field updates, in order, are the specified spend |
| `Indexer.InMemoryIndexer.constructor` | crates/rgk-indexer/src/lib.rs:945-953 | every map starts empty |
| `Indexer.InMemoryIndexer.OpenCovenant` | crates/rgk-indexer/src/lib.rs:957-985 | the map and the answer are those of the specified step |
| `Indexer.InMemoryIndexer.SpendWith` | crates/rgk-indexer/src/lib.rs:987-1063 | the map and the answer are those of the specified spend; a refusal changes nothing |
| `Indexer.InMemoryIndexer.RollbackSpends` | crates/rgk-indexer/src/lib.rs:1065-1089 | the popping loop is the specified undo; too deep changes nothing |
| `Indexer.InMemoryIndexer.RecordAuditCertificate` | crates/rgk-indexer/src/lib.rs:781-805 | the search and update are the specified recording; a different certificate is refused |
| `Indexer.InMemoryIndexer.RebuildCovenant` | crates/rgk-indexer/src/lib.rs:463-555 | the loop is the specified rebuild, with progress kept on error |
| `Indexer.InMemoryIndexer.RegisterLane` | crates/rgk-indexer/src/lib.rs:1114-1128 | both maps after a registration, or unchanged on refusal |
| `Indexer.InMemoryIndexer.LaneByScanTag` | crates/rgk-indexer/src/lib.rs:1134-1139 | the index lookup, which is the scan whenever the index is exact |
| `Lanes.IndexIsScan` | crates/rgk-indexer/src/lib.rs:1114-1140 | over registrations in which no two lanes hold one tag at once, looking up the index is scanning all lanes |
| `Lanes.RegisterExactIff` | crates/rgk-indexer/src/lib.rs:1114-1128 | from an exact index, one registration keeps it exact precisely when no other lane is left with the tag given up and no smaller id holds the new one |
| `Lanes.AlwaysExactIff` | crates/rgk-indexer/src/lib.rs:1114-1128 | over any registrations, the index is exact after every one of them precisely when every one meets the two conditions where it is made |
| `Lanes.IndexNeverLies` | crates/rgk-indexer/src/lib.rs:1114-1139 | after any registrations whatever, a lane found by tag is registered and holds the tag |
| `Lanes.SharedTagIsLost` | crates/rgk-indexer/src/lib.rs:1120-1127 | on any entry with a non-zero digest, valid registrations after which the index has lost a tag a lane still holds |
| `Lanes.ScanForTag` | crates/rgk-indexer/src/lib.rs:1560-1566 | the loop in key order returns the first lane holding the tag |
| `Receipts.ReceiptIdIff` | crates/rgk-core/src/commit.rs:193-212 | valid receipts are equal exactly when their ids and assets are, barring a collision |
| `Receipts.DomainStringInjective` | crates/rgk-core/src/commit.rs:221-241 | the domain string determines chain, policy and mode |
| `Receipts.AssetIsNotInTheId` | crates/rgk-core/src/commit.rs:197-212 | changing the asset leaves the id as it is |
| `Receipts.VerifiedIffApplies` | crates/rgk-resolver/src/lib.rs:493-515 | on an entry of the verifier's chain, a decoded receipt verifies exactly when applying it to the open outpoint succeeds, it starts from the entry's digest and the entry's policy admits its mode |
| `Receipts.AppliedIsReplay` | crates/rgk-resolver/src/lib.rs:504-507 | once applied, the same bytes are rejected as replay through any spends, rollbacks and certificates that leave the spend standing |
| `Receipts.RolledBackVerifiesAgain` | crates/rgk-receipt/src/lib.rs:209-253 | after any spends, rollbacks and certificates that leave the entry's spends standing, and a rollback to where it was, the bytes get the verdict they got before |
| `Resolver.ReportedSpendValidIff` | crates/rgk-resolver/src/lib.rs:227-307 | for a reachable entry and a backend that reports a spend of the last consumed outpoint: the exact condition for Valid, and a missing continuation proof as the only way to Invalid |
| `Resolver.JudgeLastIs` | crates/rgk-resolver/src/lib.rs:518-611 | on reachable entries the verdict takes six shapes; every branch that finds fault with a stored proof is unreachable |
| `Resolver.ValidIff` | crates/rgk-resolver/src/lib.rs:191-391 | for a reachable entry and every backend, exactly when the answer is Valid |
| `Resolver.ValidWithoutContinuation` | crates/rgk-resolver/src/lib.rs:309-386 | an entry without a continuation proof and a backend for which the answer is Valid |
| `Resolver.OpenMeans` | crates/rgk-resolver/src/lib.rs:309-391 | Open names the tip of the lineage and means the backend reports it unspent |
| `Resolver.ValidIsStable` | crates/rgk-resolver/src/lib.rs:250-267 | larger confirmation depths never take a Valid answer back |
| `Tx.WriteTransactionBytes` | crates/rgk-tx/src/lib.rs:608-634 | the writing loops produce the specified preimage |
| `Tx.PreimageIffView` | crates/rgk-tx/src/lib.rs:608-634 | preimages agree exactly when the transactions agree on everything the flags leave in |
| `Tx.FullPreimageIff` | crates/rgk-tx/src/lib.rs:608-634 | with nothing left out, the preimage determines the transaction |
| `Tx.RestPreimageIff` | crates/rgk-tx/src/lib.rs:599-634 | rest preimages agree exactly when all but payload, signature scripts, compute budgets and mass does |
| `Tx.TxIdIff` | crates/rgk-tx/src/lib.rs:403-424 | transaction ids agree exactly when the rest and the payload do, barring collisions |
| `Genesis.Draft.Populate` | crates/rgk-tx/src/lib.rs:471-540 | succeeds exactly on admissible groups; on failure no output changes and the error names a real fault; on success each claimed output has exactly its group's binding and the rest is untouched |
| `Genesis.Draft.Admit` | crates/rgk-tx/src/lib.rs:471-515 | the first pass accepts exactly the admissible groups |
| `Genesis.PermutedGroups` | crates/rgk-tx/src/lib.rs:471-540 | permuting the groups changes neither success nor the resulting outputs |
| `Genesis.PermutedRunsAgree` | crates/rgk-tx/src/lib.rs:471-540 | two runs from one draft on permuted groups are both refused and change nothing, or both end with the same outputs |
| `Genesis.PopulatedUnique` | crates/rgk-tx/src/lib.rs:471-540 | the resulting outputs are determined |
| `Scanner.ScannerIsSafe` | crates/rgk-sync/src/lib.rs:138-207 | on a chain without reorgs where each outpoint is spent once, after every run of ticks, whichever fail and at whichever write: every spend after the block of the first cursor stored, up to the cursor now stored, is recorded, and nothing else is |
| `Scanner.TicksCover` | crates/rgk-sync/src/lib.rs:138-207 | from a covered cursor on, runs stay covered and the cursor never goes back |
| `Scanner.FailureKeepsCursor` | crates/rgk-sync/src/lib.rs:138-207 | a failing tick never moves the cursor |
| `Scanner.ScanService.DoTick` | crates/rgk-sync/src/lib.rs:138-207 | the tick, with its loop of writes, is the specified one |
| `Scanner.ScanService.RunUntilIdle` | crates/rgk-sync/src/lib.rs:212-241 | leaves the store of its ticks, stops at the first error or the first run of idle ticks that is long enough, and sums the ticks |

## Left out

- Record encoders and decoders of the indexer and of the strategy record: modelled as codecs on values, field for field, not as statements that push to a buffer (the audit certificate apart); the order of bytes is kept, the order in which a decoder reports two faults is not.
- LedgerStore.RestartIsInvisible: assumes fewer than 2^32 commands, because the program writes list lengths as 32-bit counts.
- LedgerRestarts.RestartsAreInvisible: assumes fewer than 2^32 commands and planned spends, for the same reason.
- LedgerRecord.OpenFlagIsFree: assumes fewer than 2^32 receipts and spends, which every entry read from a record has.
- Rebuild.RebuildResumes: assumes an existing entry has as many accepted receipts as spends, which every reachable entry has; so do the other rebuild results, and those about undone spends that its state names its own chain and covenant.
- Tx.PreimageIffView: assumes lengths below 2^64, which the program's length fields hold.
- Error messages: variants are kept, texts and the values inside most of them are not.
- SHA-256, BLAKE2b and the keyed transaction hashers: parameters.
- Conformance of the opcode meanings to rusty-kaspa: the meanings written beside the opcode constants define the machine; what an engine does where a covenant id or an authorising input is missing is a parameter of the machine.
- sled, the wRPC and HTTP clients, the command-line programs and the fixture backend: I/O and test data.
- NFT collections and marketplace sales, the advanced covenant flows and their evidence: chains of field equalities.
- Lane graph roots, view keys and scan-tag privacy: cryptographic claims.
- Signature hashes, the Borsh bytes of unsigned transactions, `build_transition_outputs` and `validate_balanced`: single comparisons and concatenations.
- Production limits on allocation counts and the finalized strategy records: size checks on top of what is modelled.
- Resolving by asset, lane, view key or transition digest: searches that end in `resolve_by_covenant`.
- Cursor names and the records of lanes, cursors and observed spends: small fixed layouts.
- Proof systems behind the semantic statement: not part of this model.
