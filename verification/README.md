# kasgraph, modelled in Dafny

kasgraph indexes covenants on the Kaspa BlockDAG. A node follows the selected
chain, commits blocks once they are final, records what its mapping derives from
them in Postgres, and publishes a proof-of-indexing (POI) hash chain that third
parties can recompute. A gateway serves the result. This project models the parts
in which a mistake would be silent, and proves what they promise.

`dafny verify dfyconfig.toml` checks everything.

## What is modelled

* **Reorg-safe indexing** (`Blocks`, `Ingestion`, `IngestionInvariants`,
  `ChainWindow`, `ChainEdits`, `Tables`, `Persist`, `Truncation`, `Layers`,
  `BlockRows`, `Chains`, `Unwinding`, `ReplaySafety`, `FinalArrivals`,
  `ReplayTheorems`, `Survivors`, `UtxoRuns`, `SpendRows`, `EntityVersions`, `Emissions`,
  `PoiCoverage`, `ReorgTrace`, `Redelivery`, `Removals`, `Restarts`, `LateCommits`,
  `ReorgLimits`). The class `IngestionState` and the persist
  loop are proved against step functions; the step functions are proved to refine
  one closed form, the state a node reaches by following a chain with no reorg at
  all. The main theorem, `RunRefines`, ranges over every in-order run with reorgs,
  gaps, blocks heard more than once, restarts and aborts, for any mapping and any
  hash function; `FinalArrivals` adds blocks that arrive finalised. `Unwinding` says
  exactly when a reorg's unwind gives back the prefix; whether it does or not,
  `Survivors` says what the published chain covers and `UtxoRuns` which tracked outputs
  are left. `SpendRows` says what a spend row holds, `Emissions` which entity states the
  mapping is handed and readers see, and `PoiCoverage` that the POI is that of the states
  the lock handlers returned. `ReorgTrace` gives the exact condition under which a reorg leaves no trace,
  `Redelivery` when a repeated block changes nothing, `Removals` which removals the
  published chain survives, `Restarts` when it survives blocks that come again after a
  restart, `LateCommits` when it survives commits below a committed DAA, and
  `ReorgLimits` what the code does with other arrivals.
* **Proof of indexing** (`Poi`, `StableSort`, `CanonicalJson`, `CanonicalBytes`,
  `JsonText`, `StateBinding`). The verifier, the canonical encoding with a decoder,
  and what one published POI binds an indexer to.
* **KIP-20 lineage** (`UtxoText`, `Lineage`, `ForestCuts`, `ForestRuns`, `Gateway`).
  The rows as a forest over every run, and the gateway's child edges as the inverse of
  the parent edges.
* **Legacy ledgers** (`Ledger`, `LedgerRuns`, `Krc20`, `Krc721`, `LegacyJournal`).
  One theory of ticks and journals for both, then each ledger's own laws.
* **Fingerprints** (`Fingerprint`), **subscriptions** (`Subscriptions`) and **KCC20
  spends** (`Kcc20Operation`).

In a suffix run a block comes at a DAA committed since the last start, and is then
skipped, or above everything committed since then: above the buffered tip, in its
place or below it, displacing what is buffered at or above it. One hash stands at one
DAA in the buffer. The chain that is kept has positive, rising DAA scores, distinct
hashes and output indices below 2^31; its blocks may carry the same transactions.
Committed blocks that a removal names are a suffix of those committed since the last
start. Buffered blocks may be removed by hash or by gap in any pattern. Restarts, and
the aborts that a gap with its start above its end causes, come anywhere. Over these
runs memory, the published chain (`Survivors`), the tracked outputs (`UtxoRuns`), the
entities (`Emissions`) and, with genesis ids that are injective in the outpoint, the
lineage (`ForestRuns`) are settled.

With a mapping, an unwound block may have overwritten a UTXO or spend row of a block
below it. `UnwindRestoresPrefix` shows that an unwind is exact in no such case and in
every other, so the closed form of the whole store, `AnyRunRefines` with its
`SameChainSameStore`, is for the suffix runs in which no unwind meets such a row. The
in-order runs of `RunRefines`, which also gives the flags in memory, are those of them
whose blocks arrive unfinalised. A block committed before the last start is outside all of these: the code
commits it again, and `Restarts` says what that leaves.

## Assumptions

* BLAKE2b-256 (RFC 7693) is a parameter: any function from bytes to 32 bytes. No
  statement assumes that it has no collisions; where one matters, the colliding
  inputs are exhibited.
* `serde_json` text is a parameter of the encoding. The one statement that needs it
  assumes that the text tells canonical forms apart; `JsonText` proves that of the
  compact RFC 8259 text, with the escapes and the numerals that `serde_json` writes.
* The mapping is any function of what the node hands it: for locks the block's DAA,
  hash, hits and entity snapshot, for spends also the UTXO tracker.
* Each SQL statement of the store is a function on tables; that Postgres does what
  the statement says is assumed, as is that a notification persists completely.

## Where the code and its documentation differ

The model follows the code.

* The reorg document re-anchors the POI at the highest row whose block is still in
  the audit table (docs/references/BLOCKDAG_REORG_SEMANTICS.md:65); the code takes
  the highest surviving POI row. On suffix unwinds the two agree; `Removals` says
  what happens on others.
* The same document promises the same state after any reorg
  (docs/references/BLOCKDAG_REORG_SEMANTICS.md:67). An unwound block that locked an
  output, or spent an input, of the surviving chain again takes the older row with it
  (`Unwinding.RelockLosesUtxo`, `Unwinding.RespendLosesSpend`); the published chain
  verifies all the same (`Survivors.PublishedChainVerifies`).
* `TokenState` says zero balances are pruned; a zero-amount mint or transfer to a
  newcomer leaves one (`Krc20.ZeroEntryIff`).
* The fingerprint's `validate` is documented as panicking; it returns an error.
* The subscription source is documented as applying back-pressure to its
  publisher; its queue is unbounded and publishing never waits.
* Re-delivered history is ignored by DAA score, not by hash: a block at a DAA
  committed since the last start is dropped whatever its hash. After a restart
  nothing is recognised.
* A recovery range is not checked: one whose start lies above its end, as signed
  scores, makes `BTreeMap::range` panic, which aborts the node.

## Model

| member | source | states |
|---|---|---|
| `ReplaySafety.RunRefines` | crates/kasgraph-node/src/main.rs:816-1310 | After every in-order run of blocks (new, displacing, or heard again), virtual-chain changes, gaps, restarts and aborts, memory, all tables and the hash-chain anchor equal one closed form of what was followed: reorgs leave no other trace |
| `FinalArrivals.AnyRunRefines` | crates/kasgraph-node/src/main.rs:2051-2097 | The same when blocks may also arrive finalised: tables and anchor are exactly that closed form, and so is memory up to the finality flags of committed blocks, which nothing reads |
| `FinalArrivals.AnyBlockRefines` | crates/kasgraph-node/src/main.rs:2011-2097 | One block, finalised or not: a finalised one settles everything up to itself, as any block does at depth 0 |
| `FinalArrivals.InOrderIsAny` | crates/kasgraph-node/src/main.rs:2011-2097 | Every in-order run is one of those, with the same closed form |
| `ChainEdits.DisplacingStep` | crates/kasgraph-node/src/main.rs:2011-2097 | A block above everything committed, wherever it meets the buffer, displaces what is buffered at or above it and commits exactly what its cutoff settles of the rest, in order |
| `ChainEdits.NamedRemoved` | crates/kasgraph-node/src/main.rs:2099-2127 | Removing any hashes, in any pattern, leaves in both maps exactly the blocks they do not name and surfaces the named committed ones as unwinds, in order |
| `ChainEdits.GapRemoved` | crates/kasgraph-node/src/main.rs:2129-2142 | A gap leaves of the buffer exactly the blocks outside it, wherever it lies |
| `ReplayTheorems.SameChainSameStore` | docs/references/BLOCKDAG_REORG_SEMANTICS.md:67 | The replay-safety contract: two runs, finalised arrivals included and under any two finality depths, whose committed blocks agree hold the same tables and the same POI |
| `FinalArrivals.MemoryRefines` | crates/kasgraph-node/src/main.rs:2011-2142 | Memory, up to those flags, is that of what was followed after every run whose removals name suffixes, whatever rows its reorgs took along |
| `Survivors.PublishedChainVerifies` | crates/kasgraph-node/src/main.rs:1282-1294 | After every run whose removals name suffixes, finalised arrivals, restarts and reorgs that take older rows along included: one committed row and one checkpoint per surviving block, a third-party verifier accepts them from genesis over the bytes each block hashed when it was committed, and their tip is the in-memory anchor and the one a restart reads |
| `Survivors.CleanChainVerifies` | crates/kasgraph-node/src/main.rs:1282-1294 | When no unwind met an overwritten row, those bytes are the ones that persisting the surviving chain from empty hashes |
| `Survivors.OneAnchorOneLog` | crates/kasgraph-poi/src/lib.rs:50-64 | Two nodes that end on one anchor, whatever each went through, hashed the same bytes for their surviving blocks, or exhibit a broken hash |
| `Survivors.ReplayedPoiIff` | docs/references/BLOCKDAG_REORG_SEMANTICS.md:67 | Ingesting the surviving chain from genesis gives the live node's anchor exactly when it hashes the bytes the live node did, unless the two exhibit a collision |
| `Survivors.UnwindSuffix` | crates/kasgraph-node/src/main.rs:836-927 | Unwinding a suffix of any store whose rows chain its log takes committed rows, POI rows, anchor and log back to what is below it |
| `UtxoRuns.RunUtxos` | crates/kasgraph-store/src/lib.rs:1604-1640 | After every such run, with a mapping, the UTXO table holds exactly the outputs that the surviving blocks lock, without those that an unwound block locked too and no block committed since has locked; each row has the DAA of the last surviving block that locks its output |
| `ForestRuns.RunGrown` | crates/kasgraph-store/src/lib.rs:1111-1168 | After every such run the lineage rows are rooted trees with matching heads, every row of every table carries the DAA of a surviving block, and every tracked output has a row of its own id no later than it |
| `ForestCuts.CutLayered` | crates/kasgraph-store/src/lib.rs:1111-1168 | Cutting by DAA keeps the lineage a forest, whatever was overwritten above the cut, when every tracked output has a row of its id no later than it |
| `ReorgTrace.ReorgLeavesNoTrace` | crates/kasgraph-node/src/main.rs:1971-1992 | A node that followed orphans and left them equals one that never saw them, in memory, tables and POI chain, if and only if every waiting block the orphans' cutoff settled is settled by the replacing blocks too; orphans that were committed on the way must have overwritten no older row |
| `ReorgTrace.ReorgLeavesNoTraceInMemory` | crates/kasgraph-node/src/main.rs:2011-2127 | The two maps agree on the same condition for any orphans, whatever they wrote |
| `ReorgTrace.HigherTipLeavesNoTrace` | crates/kasgraph-node/src/main.rs:1971-1992 | In particular they agree whenever the replacing tip is not below the orphaned one |
| `ReorgTrace.ArrivalsExtend` | crates/kasgraph-node/src/main.rs:1970 | Blocks arriving one notification at a time above the tip are an in-order run, which ends where their arrival in one piece does |
| `Unwinding.UnwindRestoresPrefix` | crates/kasgraph-node/src/main.rs:836-927 | Unwinding a committed suffix, by hash for committed and POI rows and by DAA cutoff for everything derived, gives back exactly the tables and anchor of the surviving prefix if and only if (without a mapping, or) the suffix locks no output that the prefix locks and carries no input that the prefix recorded as a spend |
| `Unwinding.RelockLosesUtxo` | crates/kasgraph-store/src/lib.rs:1604-1640 | A UTXO row of the prefix survives the unwind if and only if the suffix locks that output nowhere: locking it again stamps the row with the later DAA |
| `Unwinding.RespendLosesSpend` | crates/kasgraph-store/src/lib.rs:1640-1653 | A spend row of the prefix survives the unwind if and only if the suffix carries that input nowhere |
| `Chains.DbOfKeys` | crates/kasgraph-node/src/main.rs:1015-1199 | After any chain the UTXO table has a row for exactly the outputs its hits lock, and the spend table for exactly the inputs that consume an output locked by then |
| `Unwinding.AnchorIsPrior` | crates/kasgraph-node/src/main.rs:1413-1419 | After any chain of rising DAAs, the anchor re-read from the highest POI row is the hash the chain ended on, so a restart resumes the chain |
| `Unwinding.CutForgets` | crates/kasgraph-node/src/main.rs:858-903 | Cutting the tables at or below every block of a suffix that overwrites no older UTXO or spend row forgets that suffix in every table |
| `Truncation.BlockAboveCut` | crates/kasgraph-node/src/main.rs:929-1294 | A block at or above a cut that overwrites no older row changes nothing below the cut |
| `Layers.BlockLayer` | crates/kasgraph-node/src/main.rs:929-1294 | Persisting a block keeps every row bounded by its DAA and the lineage a forest, and adds only that block's own keys |
| `ReorgLimits.LowerTipLeavesTrace` | crates/kasgraph-node/src/main.rs:2062-2083 | A concrete run, with depth 3, in which a lower replacing tip leaves the node in another state |
| `Removals.RemovalIsHeard` | crates/kasgraph-node/src/main.rs:836-927 | A node that committed a chain and hears any hashes removed holds the store those unwinds leave |
| `Removals.RemovalKeepsChainIff` | crates/kasgraph-node/src/main.rs:2099-2112 | For any committed chain and any set of removed hashes, the surviving checkpoints verify if and only if, at every survivor, hashing its bytes on the full prefix and on the surviving prefix gives the same POI |
| `Removals.OnlySuffixesKeepChain` | docs/references/BLOCKDAG_REORG_SEMANTICS.md:65 | A removal that names a suffix keeps the published chain; any other keeps it only if two prefixes of the chain give some later block one POI |
| `Removals.TwiceIsBroken` | crates/kasgraph-poi/src/lib.rs:50-64 | Two prefixes that give one block one POI exhibit two inputs with one hash, or a block that hashes to the genesis anchor |
| `ReorgLimits.RestartForgets` | crates/kasgraph-node/src/main.rs:1413-1419 | After a restart a notification's removals are ignored, whatever it adds: the node does what it does on an empty memory with no removals |
| `ReorgLimits.RestartKeepsOrphans` | crates/kasgraph-node/src/main.rs:1413-1419 | So after a restart, whatever is added, if nothing removed is added back, the store is that of the surviving prefix and the additions if and only if no committed block was removed |
| `Restarts.RestartRehashes` | crates/kasgraph-node/src/main.rs:1413-1419 | A restarted node told again of blocks it has committed commits those that the last one's cutoff settles on top of everything; the published rows stay as they were if it settles none of the committed DAAs, and otherwise only if the hash is broken, which is exhibited |
| `Restarts.RestartRehashesOne` | crates/kasgraph-node/src/main.rs:2011-2097 | One committed DAA delivered again, finalised or settled on arrival: its POI row and the anchor become a hash chained from the tip, which is the row it had only if the hash is broken |
| `Restarts.RecommitKeepsLineage` | crates/kasgraph-node/src/main.rs:1674-1686 | Committing known blocks again changes no committed row, no lineage row or head, and the id of no tracked output |
| `Restarts.ChainLineage` | crates/kasgraph-node/src/main.rs:977-1055 | A chain's lineage and UTXO tables are those its hits alone leave |
| `ReorgLimits.FirstBlockCommitsIff` | crates/kasgraph-node/src/main.rs:2144-2150 | With a depth set, a first unfinalised block is committed at once if and only if the depth is 0 or its DAA is not positive |
| `ReorgLimits.LateFinalizedCommits` | crates/kasgraph-node/src/main.rs:2062-2088 | A block whose wire form is marked finalised, at a fresh DAA, is committed however late it comes |
| `ReorgLimits.WrittenIff` | crates/kasgraph-node/src/main.rs:2039-2097 | In whatever order blocks come, a DAA is written exactly when it is the new block's or is buffered below it, and the new block is finalised or, with a depth d below 2^63, that DAA plus d is at most the new block's |
| `ReorgLimits.LateWriteIff` | crates/kasgraph-node/src/main.rs:2073-2088 | A write falls below a committed DAA if and only if such a DAA lies below it: DAA-ordered writes hold for in-order arrivals only |
| `LateCommits.LateCommitsVerify` | crates/kasgraph-node/src/main.rs:1282-1294 | Blocks committed in any order at distinct DAAs: a verifier accepts the rows in DAA order if and only if hashing by DAA gives at each what hashing by commit gave; so it does when they were committed in DAA order, and otherwise only with a broken hash, which is exhibited |
| `LateCommits.LateArrivalBreaksChain` | crates/kasgraph-node/src/main.rs:2011-2097 | In whatever state: when an arriving block commits something below a committed DAA, the published rows verify only with a broken hash |
| `ReplayTheorems.FinalityWindow` | crates/kasgraph-node/src/main.rs:2011-2097 | From empty, an in-order run commits its first blocks and buffers the rest, in two ascending parts, each committed block written once; with a depth below 2^63 the committed ones are exactly those that lie at least that depth below the last block, and without one, or past it, none is |
| `ReplayTheorems.WindowMembership` | crates/kasgraph-node/src/main.rs:2144-2155 | The same block by block, over the two maps and in numbers: block i is committed if and only if there is a depth d < 2^63 and its DAA plus d is at most the last block's DAA; otherwise it is buffered |
| `Ingestion.CutoffReaches` | crates/kasgraph-node/src/main.rs:2152-2155 | A cutoff reaches exactly the scores that lie the depth or more below the block's own, and the lowest score, at which the subtraction saturates |
| `ReplayTheorems.SettledInNumbers` | crates/kasgraph-node/src/main.rs:2144-2155 | Of blocks in order, a cutoff settles exactly the first ones up to that distance |
| `ReplayTheorems.GainedReach` | crates/kasgraph-node/src/main.rs:2011-2097 | From any in-order state, following blocks commits the longer of what was committed and what the last cutoff settles: earlier cutoffs leave no trace |
| `ChainWindow.TipStep` | crates/kasgraph-node/src/main.rs:2011-2097 | A block above the tip rolls nothing back and commits exactly the waiting blocks at or below the new cutoff, in order |
| `ChainWindow.TipAgain` | crates/kasgraph-node/src/main.rs:2062-2097 | The buffered tip, delivered again, is stored once and only settles what its cutoff settles |
| `Redelivery.RunIsCalm` | crates/kasgraph-node/src/main.rs:2062-2088 | In every in-order run nothing buffered is overdue: no waiting block lies at or below the cutoff of any waiting block |
| `Redelivery.BufferedAgainIff` | crates/kasgraph-node/src/main.rs:2011-2097 | A buffered block heard again leaves memory as it was if and only if it is the very tip and its own cutoff settles nothing; below the tip it drops what is buffered above it |
| `Redelivery.OnlyTheTipIsSilent` | crates/kasgraph-node/src/main.rs:2011-2097 | In every in-order run, hearing a buffered block again changes nothing, in memory, tables or POI chain, if and only if it is the very tip |
| `Redelivery.Announced` | crates/kasgraph-node/src/main.rs:1971-1992 | Buffered blocks announced again under the same hashes and DAAs, from any of them on, take their old places with the rendering they come with, and nothing settles |
| `Redelivery.AnnouncementRenders` | crates/kasgraph-node/src/main.rs:1971-1992 | So in every in-order run a virtual-chain change that announces committed blocks and then the buffer from some block on, in whatever rendering, changes nothing but that rendering |
| `Redelivery.AnnouncementIsSilent` | crates/kasgraph-node/src/main.rs:1971-1992 | A virtual-chain change that announces committed blocks and then the buffer from some block on is in order and leaves the whole node as it was |
| `Redelivery.AnnouncementThenFresh` | crates/kasgraph-node/src/main.rs:1971-1992 | One that goes on to announce fresh blocks ends where hearing only those would |
| `Ingestion.IngestionState.ApplyBlock` | crates/kasgraph-node/src/main.rs:2011-2097 | One block in place: duplicates and conflicts with committed DAAs are ignored, conflicting buffered blocks rolled back, finality marked and the promotable prefix moved, with the whole new state and transition given |
| `Ingestion.IngestionState.ApplyNotification` | crates/kasgraph-node/src/main.rs:1965-2009 | Each notification kind in place, with the whole new state and what it surfaces; a gap whose start lies above its end aborts with nothing changed |
| `Ingestion.IngestionState.ApplyAdded` | crates/kasgraph-node/src/main.rs:1982-1986 | The added blocks applied in order, their writes and rollbacks concatenated |
| `Ingestion.IngestionState.MarkFinalized` | crates/kasgraph-node/src/main.rs:2065-2071 | The in-place pass marks exactly the buffered blocks at or below the cutoff |
| `Ingestion.IngestionState.Promote` | crates/kasgraph-node/src/main.rs:2079-2088 | Promotion moves exactly the listed blocks from the buffer to the committed map and reports them in order |
| `Ingestion.IngestionState.RemoveCommittedByHashes` | crates/kasgraph-node/src/main.rs:2099-2112 | Removes exactly the committed blocks with a listed hash, in DAA order |
| `Ingestion.IngestionState.RemoveProbabilisticByHashes` | crates/kasgraph-node/src/main.rs:2114-2127 | Removes exactly the buffered blocks with a listed hash, in DAA order |
| `Ingestion.IngestionState.RemoveProbabilisticInRange` | crates/kasgraph-node/src/main.rs:2129-2142 | Removes exactly the buffered blocks within the gap, in DAA order; the range call panics exactly when the start lies above the end |
| `IngestionInvariants.RunKeepsInv` | crates/kasgraph-node/src/main.rs:2011-2142 | Over every notification sequence, in any order and wherever it aborts: keys are block DAAs, the two maps are disjoint, and no finalised block stays buffered |
| `IngestionInvariants.DisplacesOnlyAbove` | crates/kasgraph-node/src/main.rs:2039-2088 | In every well-shaped state a block taken in leaves no other fork at or above it, and everything buffered below it stays buffered or is committed |
| `IngestionInvariants.RecoveryAnchorIsHighestBelow` | crates/kasgraph-node/src/main.rs:2157-2166 | In every reachable state the recovery anchor is the unique highest known block strictly below the gap, and is absent if and only if there is none |
| `IngestionInvariants.RecoveryIsWhatWasDropped` | crates/kasgraph-node/src/main.rs:1994-2009 | A gap surfaces its own two scores, lower one first, and what it takes out of the buffer is exactly what lies between them |
| `IngestionInvariants.NotificationFlow` | crates/kasgraph-node/src/main.rs:1965-2142 | Flow of one notification from any well-shaped state: every block buffered before or taken in is still buffered, written, rolled back or replaced, and the committed map loses the unwinds and gains the writes |
| `IngestionInvariants.RunConserves` | crates/kasgraph-node/src/main.rs:1965-2142 | The same conservation over whole runs |
| `Persist.ApplyAndPersist` | crates/kasgraph-node/src/main.rs:816-1310 | The persist loop in place: unwind, re-anchor, then persist each write and extend the hash chain; no outcome exactly on an abort, with memory and store as they were |
| `Persist.PersistCommitted` | crates/kasgraph-node/src/main.rs:929-1294 | One committed block: its rows, its dispatched entities, its spends, and the POI over the dispatched state only |
| `Persist.SpendsAreOutsidePoi` | crates/kasgraph-node/src/main.rs:1226-1287 | A block's POI covers none of the entities that its spends emit; what it covers is `PoiCoverage` |
| `Persist.PersistWrites` | crates/kasgraph-node/src/main.rs:929-1310 | The committed writes of a notification, persisted and chained in order |
| `Persist.PersistHitsLoop` | crates/kasgraph-node/src/main.rs:977-1055 | Every hit of a block classified, tracked and recorded, in order |
| `Persist.SpendLoop` | crates/kasgraph-node/src/main.rs:1114-1199 | Inputs that consume a tracked UTXO, grouped by spending transaction and recorded group by group, leave one row each with the successor id read off the tracker |
| `SpendRows.SpendTells` | crates/kasgraph-node/src/main.rs:1161-1177 | The row of every input that consumes a tracked output has the output's kind, id and value, and as successor that id if and only if the tracker holds an output of the spending transaction under it, else none |
| `SpendRows.SpendLeaves` | crates/kasgraph-store/src/lib.rs:1640-1653 | Every other row stays as it is |
| `SpendRows.BlockSpendTells` | crates/kasgraph-node/src/main.rs:1114-1199 | After a block the rows of its consuming inputs say this of the tracker the block leaves |
| `SpendRows.TransitionNamesSuccessor` | crates/kasgraph-node/src/main.rs:1161-1177 | Each transition hit of a block is answered by the spend row of the input it inherits from: the row names the lineage as spent and as successor, when no transaction spends an output listed after its own hit |
| `Persist.SpendOrderIsIrrelevant` | crates/kasgraph-node/src/main.rs:1103-1127 | Two lists with the same consuming inputs leave the same spend table, so neither grouping nor order matters |
| `Persist.UpsertLoop` | crates/kasgraph-node/src/main.rs:1071-1076 | Every emitted entity version upserted, in order |
| `EntityVersions.VersionsShow` | crates/kasgraph-store/src/lib.rs:1586-1592 | Of the versions of any blocks of rising DAAs the snapshot shows each entity in the state emitted last, a block's spends after its locks |
| `EntityVersions.LastIsShown` | crates/kasgraph-store/src/lib.rs:1586-1592 | That is exactly the emitted type and id pairs, each with the state of its last emission |
| `EntityVersions.CutVersions` | crates/kasgraph-store/src/lib.rs:1595-1597 | Deleting the versions at or above a cutoff brings back those of the blocks below it, whatever was emitted above |
| `Emissions.RunShowsLast` | crates/kasgraph-node/src/main.rs:1063-1070 | After every run whose removals name suffixes, the store shows exactly the entities that surviving blocks emitted, each in the state of its last emission, and that is the read-set of the next block's handlers |
| `PoiCoverage.ChainShowsLast` | crates/kasgraph-node/src/main.rs:1063-1070 | The same after any chain of rising DAAs |
| `PoiCoverage.UnwoundShowsLast` | crates/kasgraph-node/src/main.rs:858-903 | After the unwind of any suffix it shows what the blocks of the prefix emitted last, though the unwind may have taken older rows of other tables along |
| `PoiCoverage.PriorCoversState` | crates/kasgraph-node/src/main.rs:2230-2240 | With a mapping, the anchor of any chain is the chained hash of the canonical encodings of what its lock handlers returned, block by block, each handed what was emitted last before it |
| `PoiCoverage.AnchorCoversState` | crates/kasgraph-node/src/main.rs:1282-1286 | The same of the anchor after every run whose removals name suffixes |
| `PoiCoverage.OneAnchorOneState` | docs/references/BLOCKDAG_REORG_SEMANTICS.md:67 | Two nodes with mappings, over any two such runs, hold one anchor if their handlers returned the same state for every surviving block, and only then, unless the two exhibit a broken hash |
| `PoiCoverage.ServedByIsOutsidePoi` | crates/kasgraph-node/src/main.rs:2230-2240 | With a mapping, chains whose blocks differ only in finality, serving endpoint and own bytes leave the same store and the same POI at every block |
| `PoiCoverage.BarePriorCoversBlocks` | crates/kasgraph-node/src/main.rs:2230-2240 | Without a mapping the anchor chains the blocks' own bytes |
| `PoiCoverage.FirstPoi` | crates/kasgraph-poi/src/lib.rs:50-64 | The first block is hashed behind thirty-two zero bytes; with a mapping and no hits it contributes the four bytes of a zero count |
| `Poi.VerifyPoiChain` | crates/kasgraph-poi/src/lib.rs:114-128 | Valid exactly when every checkpoint matches honest recomputation from genesis; otherwise the first block that diverges or is empty |
| `Poi.VerdictUnique` | crates/kasgraph-poi/src/lib.rs:100-128 | A chain has one verdict only |
| `Poi.ChainBinding` | crates/kasgraph-poi/src/lib.rs:50-64 | Two chains of equal length with one final POI have the same bytes at every block, or exhibit a hash collision between their own inputs at some block |
| `Poi.AnyLengthBinding` | crates/kasgraph-poi/src/lib.rs:50-64 | Two chains of whatever lengths with one final POI are the same chain, or their own blocks exhibit a collision or a preimage of the genesis anchor |
| `Poi.PublishedChainBinding` | crates/kasgraph-poi/src/lib.rs:114-128 | The same for two published chains that a verifier accepts |
| `StableSort.SortIsStable` | crates/kasgraph-poi/src/lib.rs:145-151 | The entity sort is ordered and keeps the relative order of equal keys |
| `StableSort.SortAlike` | crates/kasgraph-poi/src/lib.rs:145-151 | Two lists sort alike if and only if they list the same values, in the same order, under every key |
| `StableSort.SortsByTypeThenId` | crates/kasgraph-poi/src/lib.rs:145-151 | Sorted entities come in byte order of their types, and under one type of their ids |
| `CanonicalBytes.RecordsByTypeThenId` | crates/kasgraph-poi/src/lib.rs:145-151 | So do the encoded records |
| `CanonicalJson.CanonicalIffSame` | crates/kasgraph-poi/src/lib.rs:167-186 | Two values canonicalise alike if and only if they differ at most in object-key order, at any depth |
| `CanonicalJson.CanonicalIsSame` | crates/kasgraph-poi/src/lib.rs:172-186 | Canonicalising changes nothing but object-key order |
| `CanonicalJson.CanonicalInOrder` | crates/kasgraph-poi/src/lib.rs:176-183 | Object members of the canonical form come in byte order of their names, at every depth |
| `CanonicalJson.CanonicalIdempotent` | crates/kasgraph-poi/src/lib.rs:172-186 | Canonicalising twice is canonicalising once |
| `CanonicalBytes.CanonicalBlockBytes` | crates/kasgraph-poi/src/lib.rs:145-161 | The byte buffer grown by the loop is the encoding of the sorted, canonicalised entities |
| `CanonicalBytes.DecodeEncode` | crates/kasgraph-poi/src/lib.rs:145-161 | A decoder recovers exactly the encoded (type, id, state) list when count and lengths fit 32 bits |
| `CanonicalBytes.BlockBytesIffSameState` | crates/kasgraph-poi/src/lib.rs:145-191 | Equal block bytes if and only if equal canonical entity state, for any printer that tells canonical forms of JSON values apart: no field split is ambiguous |
| `CanonicalBytes.SameStateSameBytes` | crates/kasgraph-poi/src/lib.rs:134-144 | Equal state gives equal bytes, whatever the lengths and whatever the printer |
| `JsonText.RenderInjective` | crates/kasgraph-poi/src/lib.rs:163-170 | The compact JSON text is such a printer: no text, at the end or inside an array or object, is that of two values |
| `JsonText.EscapeDenotes` | crates/kasgraph-poi/src/lib.rs:163-170 | Every byte of a string is escaped exactly where RFC 8259 demands it, by an escape that denotes it |
| `JsonText.BytesBindState` | crates/kasgraph-poi/src/lib.rs:145-191 | So with it, and no assumption, equal block bytes if and only if equal canonical entity state |
| `StateBinding.OnePoiOneHistory` | crates/kasgraph-poi/src/lib.rs:50-64 | The chained hashes of two histories of states agree if every block's states do, and if they agree, so do the states of every block, or a broken hash is exhibited; `PoiCoverage.OneAnchorOneState` is this of nodes |
| `CanonicalBytes.CollectionOrderIsIrrelevant` | crates/kasgraph-poi/src/lib.rs:134-144 | With distinct keys, collection order and object-key order do not change the bytes |
| `Lineage.PersistHitKeepsForest` | crates/kasgraph-node/src/main.rs:1622-1731 | Recording any hit keeps every covenant id's rows a rooted tree with a matching head, and every tracked UTXO one of the rows |
| `Lineage.LineageIsForest` | crates/kasgraph-node/src/main.rs:1622-1739 | Over every sequence of hits: dense sequence numbers, no repeated outpoint, one root, each other row's parent an earlier row, the head at the last row |
| `Lineage.FirstPredecessorDecides` | crates/kasgraph-node/src/main.rs:1628-1656 | The first input of the hit's transaction that consumes a tracked covenant passes its id and edge on; without one the hit is a genesis |
| `Lineage.PersistedAt` | crates/kasgraph-node/src/main.rs:1665-1731 | A hit whose row exists changes no row or head; any other appends exactly one row and advances exactly one head |
| `Lineage.TrackedTells` | crates/kasgraph-node/src/main.rs:1018-1041 | After a hit its output is tracked at the block's DAA with the hit's kind and payload, the id it is classified to, and the value of the block's first output of that transaction and index, or 0 |
| `Lineage.RecordedTells` | crates/kasgraph-node/src/main.rs:1674-1731 | The appended row is the next in sequence, names the output, the edge it came by, the payload's text and the DAA; the head moves to it and keeps its genesis |
| `Lineage.RowsAreHits` | crates/kasgraph-node/src/main.rs:1622-1739 | Over every sequence of hits, every row is the rendering of one of them |
| `Lineage.AddsNothingIff` | crates/kasgraph-node/src/main.rs:1674-1686 | In any state, recording a hit changes no row and no head if and only if its output has a row under the id it is classified to |
| `Lineage.RedeliveryAddsNothing` | crates/kasgraph-node/src/main.rs:1674-1686 | When no transaction spends an output of its own or of a later sighting, re-delivering any hits already recorded, any number of times, in any order and in whatever block, leaves every row, head and tracked id as they were |
| `UtxoText.UtxoInjective` | crates/kasgraph-node/src/main.rs:1643-1648 | The text of an output names that output only |
| `Gateway.BuildChildEdges` | api/src/pg-resolvers.ts:368-378 | The forward-edge map holds, under every parent text, exactly the rows that name it, in row order |
| `Gateway.ReadEntries` | api/src/pg-resolvers.ts:347-378 | Each row is returned with its own children |
| `Gateway.ReadLineage` | api/src/pg-resolvers.ts:453-483 | A lineage is returned if and only if there is a head, with its rows in sequence order |
| `Gateway.EdgesAreInverse` | api/src/pg-resolvers.ts:347-378 | For any two entries, one is among the children of the other exactly when the other is its parent |
| `Gateway.ChildrenOnce` | api/src/pg-resolvers.ts:368-378 | No child is listed twice |
| `Gateway.AllReached` | api/src/pg-resolvers.ts:347-378 | Every entry is reached from the root by child edges |
| `Gateway.ServedLineageIsSensible` | api/src/pg-resolvers.ts:453-483 | After every run whose removals name suffixes, whatever rows its reorgs took along, each served lineage is a rooted tree with edges in both directions, dense sequence numbers, the transaction of its first entry as its genesis and its head at the last entry, every entry shows the DAA and the state bytes of its row, and one is served for exactly the ids that have rows |
| `Gateway.LargeIndexLosesChildren` | crates/kasgraph-node/src/main.rs:1643-1716 | Parent edges carry the unsigned output index and rows the signed one: an edge is found again if and only if the parent's index is below 2^31 |
| `Ledger.JournalReplays` | crates/kasgraph-detectors/src/krc20_ledger.rs:76-97 | Replaying only the accepted ops of any stream rebuilds the ledger and accepts every one of them again |
| `Ledger.TickAlone` | crates/kasgraph-store/src/lib.rs:1330-1337 | A tick's state is a function of that tick's own ops |
| `Ledger.ReorderedReplays` | crates/kasgraph-store/src/lib.rs:1330-1337 | Any reordering that keeps each tick's own order rebuilds the same ledger |
| `Ledger.FetchedReplays` | crates/kasgraph-store/src/lib.rs:1688-1694 | Reading the journal back by DAA, tick and sequence number rebuilds the journaled ledger |
| `LedgerRuns.UnwindIsPrefix` | crates/kasgraph-store/src/lib.rs:1683-1686 | Deleting the rows at or above a cutoff leaves the journal of the ops before it |
| `LedgerRuns.RunIsSurvivors` | crates/kasgraph-detectors/src/krc20_ledger.rs:76-97 | After any run of ops, repeated transactions, unwinds and restarts, ledger and journal are those of a node that performed the surviving ops only |
| `LedgerRuns.RunIsOncePerTx` | crates/kasgraph-store/src/lib.rs:1171-1218 | In any run, in order or not, the journal records no transaction twice |
| `Krc20.Krc20Ledger.ApplyAct` | crates/kasgraph-detectors/src/krc20_ledger.rs:103-112 | One op in place: the new state of its tick or the reason it was dropped; other ticks and a rejected op's tick are unchanged |
| `Krc20.Krc20Ledger.ApplyDeploy` | crates/kasgraph-detectors/src/krc20_ledger.rs:114-129 | The first deploy of a tick opens it empty; any later one is dropped |
| `Krc20.Krc20Ledger.ApplyMint` | crates/kasgraph-detectors/src/krc20_ledger.rs:131-148 | A mint within limit and cap moves supply and balance; neither addition overflows |
| `Krc20.Krc20Ledger.ApplyTransfer` | crates/kasgraph-detectors/src/krc20_ledger.rs:150-161 | A covered transfer moves the amount, self-transfers included, without overflow or underflow |
| `Krc20.Krc20Ledger.ApplyBurn` | crates/kasgraph-detectors/src/krc20_ledger.rs:163-176 | A covered burn lowers balance and supply |
| `Krc20.Krc20Ledger.ReplayActs` | crates/kasgraph-detectors/src/krc20_ledger.rs:88-97 | A fresh ledger driven by an op stream |
| `Krc20.Debit` | crates/kasgraph-detectors/src/krc20_ledger.rs:181-188 | A debit never underflows and prunes the entry it empties |
| `Krc20.AcceptedKeepsSound` | crates/kasgraph-detectors/src/krc20_ledger.rs:103-187 | Every accepted op keeps supply equal to the sum of balances and within the cap, moves supply by exactly its amount (so the saturating subtraction never saturates), and never changes cap or limit |
| `Krc20.AcceptedMovesBalances` | crates/kasgraph-detectors/src/krc20_ledger.rs:131-176 | Every address's balance moves by exactly what the op gives or takes |
| `Krc20.ZeroEntryIff` | crates/kasgraph-detectors/src/krc20_ledger.rs:179-188 | An entry of zero appears if and only if a zero-amount mint or transfer credits an address that holds nothing |
| `Krc20.SupplyConserved` | crates/kasgraph-detectors/src/krc20_ledger.rs:103-187 | Over every op stream and for every tick: supply is what holders hold, equals accepted mints less accepted burns, and stays within the cap |
| `Krc20.LedgerIsHistory` | crates/kasgraph-detectors/src/krc20_ledger.rs:103-187 | Over every op stream: every balance is what the accepted ops gave the address less what they took, and cap and limit are those of the first accepted deploy |
| `Krc20.AcceptedIffPermitted` | crates/kasgraph-detectors/src/krc20_ledger.rs:11-20 | An op is accepted if and only if the documented rules allow it, read off the history of accepted ops alone |
| `Krc20.FirstDeployWins` | crates/kasgraph-detectors/src/krc20_ledger.rs:114-129 | Cap and limit of a deployed tick never change, whatever follows |
| `Krc721.Krc721Ledger.ApplyAct` | crates/kasgraph-detectors/src/krc721_ledger.rs:97-106 | One op in place: the new state of its collection or the reason it was dropped |
| `Krc721.Krc721Ledger.ApplyDeploy` | crates/kasgraph-detectors/src/krc721_ledger.rs:108-121 | The first deploy of a collection opens it empty; any later one is dropped |
| `Krc721.Krc721Ledger.ApplyMint` | crates/kasgraph-detectors/src/krc721_ledger.rs:123-136 | A mint of a fresh id inside the collection makes the sender its owner |
| `Krc721.Krc721Ledger.ApplyTransfer` | crates/kasgraph-detectors/src/krc721_ledger.rs:138-149 | A transfer by the owner makes the recipient the owner |
| `Krc721.Krc721Ledger.ApplyBurn` | crates/kasgraph-detectors/src/krc721_ledger.rs:151-165 | A burn by the owner drops the owner and keeps the id consumed |
| `Krc721.Krc721Ledger.ReplayActs` | crates/kasgraph-detectors/src/krc721_ledger.rs:83-92 | A fresh ledger driven by an op stream |
| `Krc721.LedgerIsFaithful` | crates/kasgraph-detectors/src/krc721_ledger.rs:97-165 | Over every op stream: owned ids are minted ids, minted ids lie in the collection, and the owner is the recipient of the token's last accepted transfer or else its minter |
| `Krc721.AcceptedWhen` | crates/kasgraph-detectors/src/krc721_ledger.rs:123-165 | An op on a token is accepted only at the right time of its life: a mint before any other, a transfer or burn by the holder of the moment |
| `Krc721.DeployIsHistory` | crates/kasgraph-detectors/src/krc721_ledger.rs:108-121 | A collection exists from its first accepted deploy on, with that size for ever |
| `Krc721.AcceptedIffPermitted` | crates/kasgraph-detectors/src/krc721_ledger.rs:11-20 | An op is accepted if and only if the documented rules allow it, read off the history of accepted ops alone |
| `Krc721.MintedOnce` | crates/kasgraph-detectors/src/krc721_ledger.rs:123-136 | Each token has at most one accepted mint, ever: one exactly when it is live or burned |
| `Krc721.BurntForEver` | crates/kasgraph-detectors/src/krc721_ledger.rs:151-165 | After a burn the token stays burned and no later op on it is accepted |
| `Krc721.LiveIsMintsLessBurns` | crates/kasgraph-detectors/src/krc721_ledger.rs:97-165 | Live tokens are accepted mints less accepted burns |
| `LegacyJournal.ParseDecimal` | crates/kasgraph-node/src/legacy_ledger.rs:50-57 | The decimal text of every 64-bit amount is read back as that amount |
| `LegacyJournal.Krc20RowRoundTrip` | crates/kasgraph-node/src/legacy_ledger.rs:60-96 | Reconstruction inverts journaling for every KRC-20 op |
| `LegacyJournal.Krc20OkIff` | crates/kasgraph-node/src/legacy_ledger.rs:60-96 | A KRC-20 row reconstructs if and only if its op is known and the columns that op needs are present and numeric |
| `LegacyJournal.Krc721RowRoundTrip` | crates/kasgraph-node/src/legacy_ledger.rs:99-135 | Reconstruction inverts journaling for every KRC-721 op |
| `LegacyJournal.Krc721OkIff` | crates/kasgraph-node/src/legacy_ledger.rs:99-135 | A KRC-721 row reconstructs if and only if its op is known and the columns that op needs are present and numeric |
| `LegacyJournal.ReplayKrc20FromRecords` | crates/kasgraph-node/src/legacy_ledger.rs:140-153 | The replayed ledger of the reconstructed ops, or the first row's error |
| `LegacyJournal.ReplayKrc721FromRecords` | crates/kasgraph-node/src/legacy_ledger.rs:157-170 | The replayed ledger of the reconstructed ops, or the first row's error |
| `LegacyJournal.Krc20ActsOkIff` | crates/kasgraph-node/src/legacy_ledger.rs:140-153 | The record form succeeds if and only if every row is well formed |
| `LegacyJournal.Krc721ActsOkIff` | crates/kasgraph-node/src/legacy_ledger.rs:157-170 | The record form succeeds if and only if every row is well formed |
| `LegacyJournal.Krc20Recovers` | crates/kasgraph-node/src/legacy_ledger.rs:137-153 | After any run, reading the KRC-20 journal's text columns back rebuilds the live ledger, whose supply is conserved |
| `LegacyJournal.Krc721Recovers` | crates/kasgraph-node/src/legacy_ledger.rs:155-170 | The same for the KRC-721 journal and its owners |
| `Fingerprint.MatchesScript` | crates/kasgraph-detectors/src/fingerprint.rs:38-51 | Matches exactly when every unmasked byte of the front and every byte of the tail agree and the lengths allow it |
| `Fingerprint.MatchAndExtract` | crates/kasgraph-detectors/src/fingerprint.rs:56-66 | Extracts exactly when the script matches, without indexing out of range |
| `Fingerprint.Validate` | crates/kasgraph-detectors/src/fingerprint.rs:77-101 | Valid exactly when all windows are in bounds and pairwise disjoint; an error names a window or pair at fault |
| `Fingerprint.ExtractionIsLossless` | crates/kasgraph-detectors/src/fingerprint.rs:155-164 | Extracted fields, middle and pattern rebuild the script |
| `Fingerprint.SplicingMatches` | crates/kasgraph-detectors/src/fingerprint.rs:132-164 | Every choice of field values and middle gives a matching script from which exactly those values are extracted |
| `Fingerprint.SharedHead` | crates/kasgraph-detectors/src/fingerprint.rs:317-322 | Two scripts share exactly that many leading bytes, up to the limit |
| `Fingerprint.SharedTail` | crates/kasgraph-detectors/src/fingerprint.rs:331-336 | Two scripts share exactly that many trailing bytes, up to the limit |
| `Fingerprint.CommonPrefixLen` | crates/kasgraph-detectors/src/fingerprint.rs:313-325 | The longest common prefix: common to all, and no longer one is |
| `Fingerprint.CommonSuffixLen` | crates/kasgraph-detectors/src/fingerprint.rs:327-339 | The longest common suffix: common to all, and no longer one is |
| `Fingerprint.MinLength` | crates/kasgraph-detectors/src/fingerprint.rs:285 | The length of the shortest sample |
| `Fingerprint.DeriveAnchoredFingerprint` | crates/kasgraph-detectors/src/fingerprint.rs:276-311 | Too few samples, overlapping anchors exactly when the two lengths exceed the shortest sample, invalid windows, or the pattern of the samples' longest shared ends |
| `Fingerprint.LengthsUnique` | crates/kasgraph-detectors/src/fingerprint.rs:283-285 | Those lengths are determined by the samples |
| `Fingerprint.DerivedMatches` | crates/kasgraph-detectors/src/fingerprint.rs:255-275 | A derived pattern matches every sample and its own ends around any unseen middle, extracting the same fields from all |
| `Fingerprint.DerivedIsMaximal` | crates/kasgraph-detectors/src/fingerprint.rs:255-275 | No longer head or tail fits all samples |
| `Subscriptions.InMemorySubscriber.PushEvent` | api/src/subscriptions.ts:88-97 | An event answers the waiting call or joins the queue; a closed subscriber ignores it |
| `Subscriptions.InMemorySubscriber.NextCall` | api/src/subscriptions.ts:103-114 | A call is answered from the queue, answered as done when closed, or left waiting |
| `Subscriptions.InMemorySubscriber.CloseStream` | api/src/subscriptions.ts:126-135 | Closing answers the waiting call as done, once |
| `Subscriptions.InMemorySubscriptionSource.Subscribe` | api/src/subscriptions.ts:62-70 | A new open subscriber joins; the others are unaffected |
| `Subscriptions.InMemorySubscriptionSource.Publish` | api/src/subscriptions.ts:50-56 | Every subscriber is offered the event exactly once |
| `Subscriptions.InMemorySubscriptionSource.NextFor` | api/src/subscriptions.ts:103-114 | A call changes its own subscriber only |
| `Subscriptions.InMemorySubscriptionSource.ReturnFor` | api/src/subscriptions.ts:116-135 | Closing one subscriber drops it and leaves all others as they are |
| `Subscriptions.NothingLost` | api/src/subscriptions.ts:50-136 | Under any interleaving, resolved events followed by the queue are exactly the matching events published while open, in order |
| `Subscriptions.WaitingMeansEmpty` | api/src/subscriptions.ts:103-114 | A waiting call means nothing is queued |
| `Subscriptions.AnsweredIffOneAtATime` | api/src/subscriptions.ts:103-114 | Every call is answered or still waiting if and only if no call was made while another waited |
| `Subscriptions.OvertakenIsLost` | api/src/subscriptions.ts:111-113 | A call overtaken while it waits is never answered, whatever follows |
| `Subscriptions.SubscribersAreIndependent` | api/src/subscriptions.ts:47-71 | A subscriber's state depends on the publications and calls it has seen only |
| `Subscriptions.OpenSubscriberMissesNothing` | api/src/subscriptions.ts:47-136 | Every open subscriber's resolved events and queue are the matching events published since it subscribed |
| `Subscriptions.FilterKeepsThose` | api/src/subscriptions.ts:142-157 | A feed is, in order, exactly the events published while open that agree with every part of subgraph, kind and covenant id that its filter sets |
| `Kcc20Operation.OrFoldIsLittleEndian` | crates/kasgraph-detectors/src/kcc20_operation.rs:207-217 | The shift-or fold is the sum of the bytes times powers of 256, and fits the bytes' width |
| `Kcc20Operation.HexLeU64` | crates/kasgraph-detectors/src/kcc20_operation.rs:207-217 | A decoded amount is below 2^64 |
| `Kcc20Operation.ReceiptRoundTrip` | crates/kasgraph-detectors/src/kcc20_operation.rs:67-78 | Every receipt with a 64-bit amount is read back exactly from its payload |
| `Kcc20Operation.HexInEitherCase` | crates/kasgraph-detectors/src/kcc20_operation.rs:207-217 | Hexadecimal text reads alike in either case |
| `Kcc20Operation.SumIsCappedSupply` | crates/kasgraph-detectors/src/kcc20_operation.rs:169-173 | The saturating fold is the true sum, capped |
| `Kcc20Operation.SumIsSupply` | crates/kasgraph-detectors/src/kcc20_operation.rs:169-173 | For fewer than 2^64 decoded receipts it is the true sum |
| `Kcc20Operation.ClassIsExact` | crates/kasgraph-detectors/src/kcc20_operation.rs:152-167 | Mint and burn hold exactly when the supply rises or falls; with equal supply it is a rotation if and only if some owner stands on a minter receipt of identifier type 2 on one side and on none of the other |
| `Kcc20Operation.ClassPermutes` | crates/kasgraph-detectors/src/kcc20_operation.rs:152-183 | The order of inputs and outputs is irrelevant |
| `Kcc20Operation.SplitIsAlike` | crates/kasgraph-detectors/src/kcc20_operation.rs:169-183 | Splitting or merging receipts that bind no controller, on either side of a spend, never changes its class |
| `Kcc20Operation.SwapReverses` | crates/kasgraph-detectors/src/kcc20_operation.rs:152-167 | Swapping inputs and outputs exchanges mint and burn and fixes transfer and rotation |
| `Kcc20Operation.ParseAll` | crates/kasgraph-detectors/src/kcc20_operation.rs:132-137 | All receipts parse, or none does |
| `Kcc20Operation.SpendIsExact` | crates/kasgraph-detectors/src/kcc20_operation.rs:128-142 | The same from the payloads of any two receipt sets, amounts, owners, types and flags read as the payload states them |

## Left out

- ReplaySafety.RunRefines: covers blocks that arrive unfinalised; `FinalArrivals.AnyRunRefines` adds finalised ones, and for late ones the invariants and flow laws of `IngestionInvariants` hold and `ReorgLimits` says which DAAs are written when.
- ReorgTrace.ReorgLeavesNoTrace: compares memory with its finality flags, so it and the statements of `Redelivery` about memory are for blocks that arrive unfinalised.
- FinalArrivals.AnyRunRefines: gives the whole store for runs whose unwinds met no overwritten row; for the others `Survivors`, `UtxoRuns`, `ForestRuns` and `Emissions` say what holds, and their spend rows are not given one by one.
- ReplayTheorems.SameChainSameStore: is for one configuration; without a mapping a block's own bytes name the RPC endpoint that served it, so two indexers agree only on the mapping path.
- IngestionInvariants.RecoveryAnchorIsHighestBelow: is for gap starts from 1 to below 2^63; a start of 0 searches up to DAA 0 and a larger one wraps.
- Lineage.LineageIsForest: does not model the 32-bit overflow of `lineage_count`, which needs 2^31 transitions of one covenant.
- Fingerprint.Validate: does not model overflow of `offset + len` in `usize`; windows are compiled-in constants.
- Poi.ChainBinding: compares chains of equal length and names the block; `Poi.AnyLengthBinding` drops the length.
- LedgerRuns.RunIsSurvivors: takes the blocks of new transactions in DAA order; repeated ones may come at any time.
- Subscriptions.InMemorySubscriptionSource.ReturnFor: the clean-up callback handed to a subscriber is modelled as the source's own step after the subscriber has closed; `throw` closes in the same way.
- Persist.PersistCommitted: dispatches a block's spend handlers after its spend rows, from the inputs, the tracker and one snapshot; the source dispatches between the rows, which neither reads what the other writes.
- A detector's pass over a block and the rendering of its own canonical bytes: they are given as the block's content. The delimiter-joined rendering is not length-prefixed, and nothing is claimed about its injectivity.
- KCC20 classification inside the persist loop: part of the mapping parameter; the classifier is modelled on its own in `Kcc20Operation`.
- The audit and detected-pattern tables, logging, and the in-process stream hub: written or notified, never read back by what is modelled.
- Several subgraphs over one subscription: each has its own state and schema; lineage and journal tables are modelled for one subgraph.
- Store failures in the middle of a notification, SQL text, pooling, and the Postgres LISTEN/NOTIFY source.
- RPC clients, the websocket driver, recovery fetches, the wasm runtime, HTTP and MCP servers, the CLI, code generation, and the captured fingerprint byte strings: I/O, foreign engines or finite data.
