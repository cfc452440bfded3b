# editorzero, verified in Dafny

A model of the parts of editorzero in which a mistake is silent: committed edits that a reader never
sees, a client diff that lands in the wrong order, a query that answers with another workspace's rows,
a mutation without its audit row. Each part is written in the form its source has. Code that updates
fields, lists or tables in place is a class or a loop, proved against a function of its inputs; code made
of expressions is functions; protocols are step systems, and their main results quantify over all legal
runs.

## What is modelled

**Document log and sync** (`DocLog`, `Watermark`, `SyncModel`, `SyncProtocol`, `SyncTheorems`, `SyncDelivery`,
`SyncWaits`, `SyncProgress`, `SyncDeadlocks`). A document is the set of deltas merged into it, so applying an
update is commutative and idempotent, which is what the source relies on. `HocuspocusSync` is a class over its
private maps. `SyncProtocol` interleaves its operations freely: transactions begin, open a document, clone it,
persist, throw, commit and roll back; staged rows are applied after the commit, in any order and possibly only
in part; residents are hydrated, read, attached to, merged into natively and unloaded; the process restarts. A
transaction's snapshot may lag behind the log until it holds the counter row. A document with a live direct
connection stays resident. The invariant of every step gives: residents hold committed deltas only, clones are
complete for what their transaction sees, committed seqs are gapless, and a reused seq never pairs with a
rolled-back blob. For sequences of completed dispatches the protocol refines `MemorySyncService`.
`SyncDelivery` says that committed edits arrive: a persisted row carries every update, an apply delivers
exactly what is staged, and a resident equals its log once every row has been applied to it. `SyncWaits` adds
everything that makes someone wait: each document's lock as the queue it is, for writes, reads and post-commit
applies; loads that sockets start and others join; counter rows; and a number of database connections, of
which every open transaction keeps one and every read of a document that is not resident needs one. Each of
its runs is a run of the protocol. With the one `transact` per dispatch that the dispatcher lets through,
somebody can always go on unless every connection is in a transaction that waits for a load; that state is
characterised exactly, and for a single connection so is what keeps a dispatch out of it beforehand.

**Blocks** (`BlockModel`, `PmMapping`, `PmLaws`, `Lcs`, `BlockOps`, `OpLaws`, `BlockDiff`, `RoundTrip`,
`DiffSize`, `LostUpdate`, `ForeignUpdate`). The client half diffs two block lists, the server half replays the
ops on a list it mutates. Replaying a diff gives the edited list back exactly when that list is canonical; the
diff is empty exactly when nothing changed. It keeps as many blocks in place as any choice could, whatever was
loaded, exactly for those edited lists in which copies of a block stand right behind it. SHA-256 over
canonical JSON is taken to be injective. `before` is a persisted list: canonical, with distinct UUIDv7 ids,
because the audit projection of every op parses the block's id. The ProseMirror printer and parser are inverse
up to normalisation. The foreign-update lane repairs block trees with a shared `seen` set and a minter.

**Tenant scoping** (`Sql`, `JoinAlgebra`, `TenantRewrite`, `TenantMeaning`, `TenantAnchored`, `TenantWrites`,
`TenantInserts`, `TenantRuns`). Queries are a recursive syntax with derived tables, four kinds of joins and
correlated subqueries, evaluated over sequences of rows with three-valued conditions. The rewrite is proved to
mean the original query over the database in which the workspace is alone, keeping the bindings in which every
tenant table contributed a row. That is the original query itself when, at every depth, WHERE rejects nulls in
each tenant table that a join may null-supply; inner joins supply none. For outer joins at the top level
without that guard, the answers agree whenever no answering binding lacks a tenant row, and in no other case
where the rows come out as they are bound. Writes are covered whatever their joins. The theorems hold for
every table-to-column map and so for the one of `schema.ts`, including `workspaces`, which is scoped on `id`.
Interleaved runs of several workspaces fall apart into one run per workspace.

**Audit** (`AuditReducer`, `AuditFacts`, `AuditReplay`, `AuditLaws`, `CollectionTree`, `CollectionHandlers`,
`CollectionLaws`, `Genesis`). The reducer folds all 33 kinds of the `state` class. For every kind of entity
replay comes to this: it is there if it was created and not removed since, and each of its fields is what the
last row that speaks of it says. Moving a collection rebinds its subtree by a breadth-first walk that ends
even on cyclic parent links. Over every well-formed log the collections stay a forest in which each child
carries its parent's space. The five collection capabilities are modelled over the live tables: what they emit
is well formed, and over every run the log alone reconstructs collections and grants, although a same-bucket
move writes one row where replay stamps a subtree. The same runs keep live collections under live parents, at
most eight deep, with distinct sibling slugs. For the signup bootstrap, too, the log alone reconstructs the
tables.

**Gate and dispatcher** (`CollabGate`, `GateOverSync`, `Dispatcher`, `DispatcherLaws`, `DispatcherRuns`). The
socket gate is a chain of promises per connection over residents that others change, load and unload
meanwhile, while connections open and close. In `CollabGate` success of the write policy means committed and,
if the document is resident, applied. `GateOverSync` runs the same chains over the sync protocol itself, where
success means committed and the apply behind it may be late or fail: the native apply then adds the update
past the watermark, and everything the protocol promises of residents and clones still holds. The dispatcher
is a pipeline with a fault at every point: gate, runner, each act of the handler, output parse, audit
projection, audit write, commit; each fault is a permission denial or another error. `DispatcherRuns`
interleaves the steps of any number of dispatches under the database's one open write transaction. The write
runner commits all or nothing and publishes staged updates after the commit, which does not throw
(`packages/sync/src/hocuspocus.ts:845-876`). The tracer does not throw.

**Ids** (`Ids`). The UUIDv7 generator with its sub-millisecond counter, clock reversal and the wrap of the
48-bit field (sections 5.7 and 6.2, Method 1, of RFC 9562).

## Findings

- `packages/db/src/tenant.ts:538-543` expects `UPDATE … SET workspace_id = <other>` to affect no rows. The
  added predicate selects the caller's own rows, and they move (`TenantRuns.ReassignedDocMoves`). For an UPDATE
  of any shape `TenantRuns.SparesShareIff` says when another workspace's share stays as it was, and
  `TenantRuns.HarmlessSpares` what a caller can check beforehand: whatever is assigned to the scope column is a
  literal that is no string or is the caller's own id. `RunsAreIsolated` admits exactly those assignments.
- The diff (`packages/blocks/src/ops.ts:261-280`) does not always keep as many blocks in place as it could: it
  counts the first occurrence of an id as its block, so pasting a copy of `b` above `a` makes it move `a`
  (`DiffSize.PastedAboveCosts`). `DiffSize.DiffKeepsTheMostIff` gives the exact condition on the edited list.
- A read and a write of a document that is not resident can deadlock on SQLite's single connection, with one
  `transact` each (`SyncDeadlocks.ReadAndWriteDeadlock`): the read holds the document's lock and waits for the
  connection (`packages/sync/src/hocuspocus.ts:480-490`, `585-587`), the write holds the connection and waits for
  the lock. `packages/sync/src/hocuspocus.integration.test.ts:991-999` names the shape and calls it unreachable,
  because reads are never wrapped in a transaction; two concurrent dispatches need no wrapping. A socket loading
  the document, or a Postgres pool whose connections are all in such transactions, closes the same circle.
  `SyncProgress.StuckIff` gives the exact condition on the state. On a single connection a dispatch that begins
  stays clear of it exactly if its document has a live direct connection by then (`SyncDeadlocks.CanBeCaughtIff`).
- On a database that locks rows, two `transact` calls in one dispatch can deadlock with another dispatch on the
  same document, even with a connection for everyone (`SyncDeadlocks.TwoTransactsCanDeadlock`). With the limit of
  one call at `packages/dispatcher/src/dispatcher.ts:409-430` and a free connection nobody waits in a circle
  (`SyncProgress.NoCircle`).
- `packages/audit/src/state.ts:59-69` says that the signup bootstrap emits no audit rows.
  `packages/auth/src/create-auth.ts:437-540` does emit them, and `Genesis` follows the code.
- A tenant table on the null-supplied side of an outer join turns the outer join into an inner one
  (`TenantAnchored.LeftJoinLosesRows`): isolation holds, but rows are lost.
- The order key of an audited block (`packages/blocks/src/ops.ts:104-106`) is called lexicographically sortable
  because of its fixed width. It sorts as positions do exactly in lists of at most a million blocks
  (`OpLaws.KeysSortIff`).
- Past the year 10889 the timestamp field of a UUIDv7 wraps and ids stop sorting; `Ids.NextIdSortsAfterIff`
  names the one transition.

## Model

| member | source | states |
|---|---|---|
| `DocLog.TailKeepsCount` | packages/db/src/doc-updates-reader.ts:62-82 | every row above `afterSeq` is read exactly as often as it is stored, and no other row |
| `DocLog.TailInOrder` | packages/db/src/doc-updates-reader.ts:62-82 | the tail is in seq order |
| `DocLog.TailIsSuffix` | packages/db/src/doc-updates-reader.ts:63-76 | on gapless rows the tail is the suffix of the log behind the watermark |
| `DocLog.WriteTx.Write` | packages/db/src/doc-updates-writer.ts:82-165 | returns the seq it allocates from the transaction's counter row and appends the row under that seq |
| `DocLog.WriteContinues` | packages/db/src/doc-updates-writer.ts:99-141 | a write numbers its row right after the committed rows and the transaction's own |
| `DocLog.CommitGapless` | packages/db/src/doc-updates-writer.ts:105-121 | committing a transaction's rows keeps the log numbered 1..n |
| `Watermark.WatermarkLaw` | packages/sync/src/hocuspocus.ts:885-910 | after any order and repetition of calls the watermark is the largest k with 1..k applied, and the ahead set is the applied seqs above it |
| `Watermark.CaughtUp` | packages/sync/src/hocuspocus.ts:885-910 | the watermark is n with nothing parked exactly when every seq up to n was applied |
| `SyncModel.HocuspocusSync.OnLoadDocument` | packages/sync/src/hocuspocus.ts:459-490 | hydration merges all rows and sets a fresh watermark at the last one |
| `SyncModel.HydratedIsLog` | packages/sync/src/hocuspocus.ts:459-490 | from gapless rows hydration gives the whole log and a watermark at its end |
| `SyncModel.HocuspocusSync.AfterUnloadDocument` | packages/sync/src/hocuspocus.ts:496-499 | the watermark dies with the resident |
| `SyncModel.HocuspocusSync.OpenDirect` | packages/sync/src/hocuspocus.ts:763-773 | opening hydrates an absent document, leaves a resident one alone, and holds a live connection |
| `SyncModel.HocuspocusSync.AdvanceWatermark` | packages/sync/src/hocuspocus.ts:885-910 | the maps change as the law's step does, for this document only, and the draining loop ends |
| `SyncModel.HocuspocusSync.ApplyCommitted` | packages/sync/src/hocuspocus.ts:857-877 | merges exactly the staged blobs into the resident, in order up to the one that fails, and adds exactly their seqs to those applied; an absent document's watermark is forgotten |
| `SyncModel.StagedIsReceived` | packages/sync/src/hocuspocus.ts:866-869 | an apply that fails at some update has delivered the rows before it, with exactly their seqs, and what it merged of that one |
| `SyncModel.HocuspocusSync.RunTransactLocked` | packages/sync/src/hocuspocus.ts:753-838 | `fn` sees the resident and every row the transaction sees above the watermark, and nothing else; a delta is in the one staged row exactly if some update of `fn` holds it, the row is numbered behind those the transaction sees and is all that it writes; no update, no row |
| `SyncModel.MergedIsUnion` | packages/sync/src/hocuspocus.ts:814-822 | a delta is in the merged update exactly if it is in some update |
| `SyncModel.CloneHolds` | packages/sync/src/hocuspocus.ts:781-794 | the clone holds the resident and every visible row above its watermark, and nothing else |
| `SyncProtocol.CloneIsExact` | packages/sync/src/hocuspocus.ts:781-794 | the clone holds every visible row and nothing of another open transaction |
| `SyncProtocol.StepKeepsInv` | packages/sync/src/hocuspocus.ts:521-549 | every step of the protocol, including rollback, partial apply, unload and attach, keeps the invariant |
| `SyncProtocol.RunKeepsInv` | packages/sync/src/hocuspocus.ts:521-549 | the invariant holds in every reachable state |
| `SyncTheorems.ResidentsAreCommittedOnly` | packages/sync/src/hocuspocus.ts:857-910 | in every reachable state residents hold committed deltas only and contain every row their watermark covers |
| `SyncTheorems.ClonesAreComplete` | packages/sync/src/hocuspocus.ts:781-794 | in every reachable state a clone holds all rows its transaction saw, its own included, and no foreign uncommitted delta |
| `SyncTheorems.CommittedSeqsAreGapless` | packages/db/src/doc-updates-writer.ts:84-121 | under any interleaving the committed seqs are 1..n and the counter names n + 1 |
| `SyncTheorems.LogOnlyGrows` | packages/db/src/doc-updates-writer.ts:84-141 | a document's log is a prefix of its log at any later point of a run |
| `SyncTheorems.AppliedRowsStayInTheLog` | packages/sync/src/hocuspocus.ts:539-544 | whatever was applied under seq k is row k of the log from then on, so a rolled-back blob is in neither |
| `SyncTheorems.MemorySyncService.Transact` | packages/sync/src/memory.ts:22-37 | throws exactly after close; otherwise `fn` sees the document, and a delta is in it afterwards exactly if it was or some update holds it |
| `SyncTheorems.MemorySyncService.Close` | packages/sync/src/memory.ts:39-45 | drops every document and refuses later transacts |
| `SyncTheorems.EventsRefine` | packages/sync/src/memory.ts:22-37 | from any state at rest, dispatches and background steps show each `fn` the same document in both services |
| `SyncTheorems.HocuspocusRefinesMemory` | packages/sync/src/hocuspocus.ts:521-549 | for every sequence of committed dispatches each `fn` sees what it sees under `MemorySyncService`, several transacts per binding included |
| `SyncDelivery.PersistCarriesAll` | packages/sync/src/hocuspocus.ts:814-822 | in every state that keeps the invariant, persisting stages one row under the next seq that holds exactly the deltas of all updates |
| `SyncDelivery.ApplyDelivers` | packages/sync/src/hocuspocus.ts:857-877 | the post-commit apply delivers the first staged rows and what it merged of the next to the resident, and touches no other |
| `SyncDelivery.CompleteApplyDelivers` | packages/sync/src/hocuspocus.ts:866-869 | an apply that succeeds leaves every staged blob in the resident, under its seq |
| `SyncDelivery.RunReceives` | packages/sync/src/hocuspocus.ts:857-910 | along any run a resident gets exactly the rows applied to it and its mark exactly their seqs, until it is unloaded |
| `SyncDelivery.CaughtUpIff` | packages/sync/src/hocuspocus.ts:885-910 | a loaded resident's watermark is the length of its log, with nothing parked, exactly when every row behind those it was hydrated from was applied; its document is then the log |
| `SyncDelivery.LogIsCommitted` | packages/db/src/doc-updates-writer.ts:84-141 | over any run the log is what the commits wrote, in their order; a rollback leaves nothing |
| `SyncWaits.RunsRefine` | packages/sync/src/hocuspocus.ts:585-587 | every run with queues, loads and connections is a run of the protocol |
| `SyncWaits.RunKeepsWaits` | packages/sync/src/hocuspocus.ts:704-724 | with one `transact` per dispatch, in every reachable state the head of a queue holds the lock, nobody is queued twice, and whoever keeps a counter row is in no queue |
| `SyncProgress.StuckIff` | packages/sync/src/hocuspocus.ts:480-490 | reads, writes and sockets wait in a circle exactly when no connection is free and every open transaction is queued on a document that is not resident and whose head waits for its load |
| `SyncProgress.NoCircle` | packages/dispatcher/src/dispatcher.ts:409-430 | with one `transact` per dispatch and a free connection, no set of reads, writes and sockets waits in a circle |
| `SyncProgress.StuckStays` | packages/sync/src/hocuspocus.ts:643-657 | nobody in such a circle can take its next step |
| `SyncProgress.SomeDispatchAdvances` | packages/sync/src/hocuspocus.ts:753-838 | outside that state, while anybody is there, somebody can take its next step without throwing or rolling back |
| `SyncDeadlocks.NobodyOvertakes` | packages/sync/src/hocuspocus.ts:704-724 | along any run those ahead of a waiter are those who were ahead of it, in their order, until they leave |
| `SyncDeadlocks.ReadAndWriteDeadlock` | packages/sync/src/hocuspocus.integration.test.ts:991-999 | on one connection a read and a write of one document, with one `transact` each, reach a state in which they wait for each other |
| `SyncDeadlocks.CanBeCaughtIff` | packages/sync/src/hocuspocus.ts:753-773 | on one connection a dispatch that has just begun can end in a circle on a document exactly if that document has no live direct connection |
| `SyncDeadlocks.TwoTransactsCanDeadlock` | packages/dispatcher/src/dispatcher.ts:409-419 | a run with two `transact` calls on one document, and a connection for everyone, reaches a state in which two dispatches wait for each other |
| `BlockModel.NormalizeContent` | packages/blocks/src/model.ts:88-104 | the loop yields the canonical runs, or the parse error |
| `BlockModel.NormalizeIsCanonical` | packages/blocks/src/model.ts:95-103 | normalised runs have text and only true styles, and canonical runs are left alone |
| `BlockModel.NormalizeIdempotent` | packages/blocks/src/model.ts:88-104 | normalising twice is normalising once |
| `OpLaws.ContentIsKept` | packages/blocks/src/model.ts:88-104 | normalising keeps the runs that have text, in order, with their text and exactly the styles set to true; only what is no content at all is refused |
| `PmMapping.StyledTextToPmText` | packages/blocks/src/pm.ts:91-99 | the loop over style keys prints the marks of the true styles in key order |
| `PmMapping.PmTextToStyledText` | packages/blocks/src/pm.ts:151-172 | the loop over marks parses as the specification does, errors included |
| `PmMapping.ParseInline` | packages/blocks/src/pm.ts:133-141 | parses the inline nodes in order, stopping at the first that is refused |
| `PmMapping.PmRoundTrip` | packages/blocks/src/pm.ts:64-149 | printing succeeds exactly on supported childless blocks without foreign props, and reparsing gives them normalised |
| `PmMapping.PmIdentityIff` | packages/blocks/src/pm.ts:64-149 | the round trip is the identity exactly when every block survives printing |
| `PmMapping.CanonicalSurvives` | packages/blocks/src/pm.ts:68-89 | canonical blocks survive, the pairing of the empty id with null included |
| `PmMapping.ReparseNormalizes` | packages/blocks/src/pm.ts:103-172 | whatever JSON parses, printing and reparsing gives the same blocks with content normalised |
| `PmMapping.MarksAsSet` | packages/blocks/src/pm.ts:157-170 | parsed styles depend on which marks occur, not on their order or repetition |
| `PmLaws.DocReads` | packages/blocks/src/pm.ts:103-172 | a document is accepted exactly if it has the shape of one, with attributes, content and marks optional; each block is read off its node, and a node without attributes has neither id nor props |
| `PmLaws.DocPrints` | packages/blocks/src/pm.ts:64-99 | one node per block, in order: its type, its id or null, a heading's level, and per normalised run its text with one mark for each true style; no content or marks field without content or marks |
| `Lcs.FillTable` | packages/blocks/src/ops.ts:348-361 | every cell holds the length of the longest common subsequence of the two prefixes |
| `Lcs.WalkBack` | packages/blocks/src/ops.ts:362-377 | the backtrack ends and agrees with the filled table |
| `Lcs.LongestCommonSubsequence` | packages/blocks/src/ops.ts:347-378 | the routine computes the specified subsequence |
| `Lcs.LcsIsOptimal` | packages/blocks/src/ops.ts:347-378 | the result is common to both inputs and no common subsequence is longer |
| `BlockOps.Applier.Insert` | packages/blocks/src/ops.ts:140-170 | splices the materialised block behind its anchor; a throw leaves the list as it was, unless the minted id is no block id: then the block is in the list and not in the projections |
| `BlockOps.Applier.Update` | packages/blocks/src/ops.ts:172-206 | overwrites the block in place under its precondition; a throw leaves the list as it was, unless the block's own id is no block id |
| `BlockOps.Applier.Remove` | packages/blocks/src/ops.ts:208-233 | splices the block out under its precondition, or throws and leaves the list as it was |
| `BlockOps.ApplyOpsToBlocks` | packages/blocks/src/ops.ts:119-138 | replays the ops in order on a copy of the list |
| `BlockOps.OpsKeepCanonical` | packages/blocks/src/ops.ts:119-233 | any replay keeps a canonical list canonical and projects one entry per op |
| `OpLaws.InsertDoes` | packages/blocks/src/ops.ts:140-170 | an insert that goes through puts the block it asks for on top or behind the first block of its anchor's id, moves nothing else, and reports the block where it now stands |
| `OpLaws.InsertThrowsIff` | packages/blocks/src/ops.ts:140-170 | when an insert throws and what: type, props, content, anchor, minted id, in this order |
| `OpLaws.UpdateDoes` | packages/blocks/src/ops.ts:172-206 | an update changes exactly what its patch names, in place, at the first block of its id, which is as expected, and reports the block as it stands afterwards |
| `OpLaws.UpdateThrowsIff` | packages/blocks/src/ops.ts:172-206 | when an update throws and what: absence, precondition, type, props, content, id, in this order |
| `OpLaws.RemoveDoes` | packages/blocks/src/ops.ts:208-233 | a remove takes out the first block of its id, which is as expected, and reports it as it stood |
| `OpLaws.RemoveThrowsIff` | packages/blocks/src/ops.ts:208-233 | when a remove throws and what: absence, precondition, id |
| `OpLaws.ReplayTells` | packages/blocks/src/ops.ts:98-138 | in any replay entry k of the projections reports op k: id, type, props, content, document and position of what an insert or update left, or of what a remove took |
| `OpLaws.OrderKeyIs` | packages/blocks/src/ops.ts:104-106 | an order key spells its position with at least six digits and no more zeros than that takes |
| `OpLaws.KeysSortIff` | packages/blocks/src/ops.ts:104-106 | order keys sort as positions do exactly in lists of at most a million blocks |
| `BlockDiff.DiffBlocksToOps` | packages/blocks/src/ops.ts:251-345 | the loops emit the updates, removes and reverse-order anchored inserts of the specified diff |
| `BlockDiff.Survivors` | packages/blocks/src/ops.ts:261-271 | first occurrences of known ids survive; all other entries are inserts |
| `BlockDiff.FindAnchor` | packages/blocks/src/ops.ts:324-331 | the anchor is the nearest preceding stable block |
| `RoundTrip.RoundTripLaw` | packages/blocks/src/ops.ts:119-345 | the replayed diff never throws and yields `after` position by position, stable ids kept, every inserted entry under the next minted id |
| `RoundTrip.RoundTripIff` | packages/blocks/src/ops.ts:119-345 | the law holds of an edited list exactly when it is canonical |
| `RoundTrip.RoundTripPersists` | packages/blocks/src/ops.ts:119-345 | with a minter that never repeats itself the replayed list again has distinct block ids and canonical blocks |
| `DiffSize.EmptyDiffIff` | packages/blocks/src/ops.ts:251-345 | for lists of childless blocks, canonical or not, the diff is empty exactly when `after` equals `before` |
| `DiffSize.DiffKeepsTheMost` | packages/blocks/src/ops.ts:261-280 | where copies of known blocks follow their block, no ids occurring in order in both lists are more than the diff keeps in place |
| `DiffSize.DiffKeepsTheMostIff` | packages/blocks/src/ops.ts:261-280 | that holds of an edited list, whatever was loaded, exactly when no other block stands between two copies of one id |
| `DiffSize.PastedAboveCosts` | packages/blocks/src/ops.ts:261-280 | from `[a, b]` to `[b, a, b]` the diff keeps one block although `[a, b]` occurs in order on both sides |
| `LostUpdate.DiffTouchesOnce` | packages/blocks/src/ops.ts:284-315 | the diff updates or removes each loaded block at most once, and no other |
| `LostUpdate.DiffIsStamped` | packages/blocks/src/ops.ts:295-314 | every update and remove carries the loaded hash of its block |
| `LostUpdate.DiffSaysWhatChanged` | packages/blocks/src/ops.ts:284-302 | every update of a diff names exactly the fields in which the edited block differs from the loaded one |
| `LostUpdate.EveryTargetWasFresh` | packages/blocks/src/ops.ts:172-233 | when stamped ops go through, each target still had its expected state in the starting list |
| `LostUpdate.RestSurvives` | packages/blocks/src/ops.ts:119-233 | blocks neither touched nor minted survive unchanged, in order |
| `LostUpdate.NoLostUpdate` | packages/blocks/src/ops.ts:119-345 | a stamped diff that applies to a concurrently changed list overwrote only blocks in their loaded state and left the rest alone |
| `ForeignUpdate.FindDuplicateId` | packages/sync/src/foreign-update.ts:303-314 | the recursive scan with its shared set returns the first repeated non-empty id in preorder |
| `ForeignUpdate.FirstRepeatIs` | packages/sync/src/foreign-update.ts:303-314 | nothing is returned exactly when the ids are pairwise distinct; otherwise the first id that repeats an earlier one |
| `ForeignUpdate.MintMissingIds` | packages/sync/src/foreign-update.ts:316-325 | the repaired tree, the ids drawn and the ids recorded are those of filling the gaps in preorder |
| `ForeignUpdate.RepairedTree` | packages/sync/src/foreign-update.ts:278-325 | distinct non-empty ids, same shape and content, old ids untouched, the j-th gap filled by the j-th minted id, and nothing left for a second repair |
| `ForeignUpdate.ApplyForeignUpdate` | packages/sync/src/foreign-update.ts:166-301 | each verdict occurs exactly under its condition, in the source's decision order |
| `TenantRewrite.WorkspaceScopingTransformer.CollectScopedRefs` | packages/db/src/tenant.ts:291-307 | one pin per tenant table in FROM and JOIN order, under its alias, and none for derived tables |
| `TenantRewrite.WorkspaceScopingTransformer.TransformSelect` | packages/db/src/tenant.ts:317-323 | children first, then the conjunction of all pins behind the existing condition |
| `TenantRewrite.WorkspaceScopingTransformer.TransformUpdate` | packages/db/src/tenant.ts:325-348 | pins the target, and FROM and JOIN participants only when FROM is present |
| `TenantRewrite.WorkspaceScopingTransformer.TransformDelete` | packages/db/src/tenant.ts:350-360 | pins the target and the joined tables |
| `TenantRewrite.WorkspaceScopingTransformer.TransformInsert` | packages/db/src/tenant.ts:362-487 | forces the scope column or refuses, in the source's order of checks |
| `TenantRewrite.WorkspaceScopingTransformer.ValuesColumnMatchesScope` | packages/db/src/tenant.ts:503-536 | true exactly when every row carries the workspace as a literal in the first position of the scope column |
| `TenantMeaning.ConjunctionMeans` | packages/db/src/tenant.ts:242-276 | the added conjunction is true exactly on bindings whose pinned references hold the workspace's rows |
| `JoinAlgebra.JoinStepAgrees` | packages/db/src/tenant.ts:291-323 | joining everyone's rows and joining the workspace's own agree on the pinned bindings, for all four kinds of join |
| `TenantMeaning.QueryMeans` | packages/db/src/tenant.ts:309-323 | for every query with distinct references, the rewritten query over the whole database is the original over the workspace's share, kept to bindings in which every tenant table contributed a row |
| `TenantMeaning.DependsOnOwnRows` | packages/db/src/tenant.ts:309-323 | whatever the joins, two databases with the same share give the same answer |
| `TenantAnchored.MeaningPreserved` | packages/db/src/tenant.ts:221-323 | with any joins, nested and correlated subqueries, rewriting means the original query over the one-tenant database, if at every depth WHERE rejects nulls in each tenant table that a join may null-supply |
| `TenantAnchored.InnerIsAnchored` | packages/db/src/tenant.ts:291-307 | a query whose joins are inner at every depth needs no guard |
| `TenantAnchored.InnerQueriesPreserved` | packages/db/src/tenant.ts:221-323 | for a query with inner joins only, rewriting means the original query over the one-tenant database |
| `TenantAnchored.OuterJoinsPreserved` | packages/db/src/tenant.ts:291-323 | with top-level outer joins and any grouping, ordering or limit, the two agree when no answering binding lacks a tenant row |
| `TenantAnchored.OuterJoinsExactly` | packages/db/src/tenant.ts:291-323 | with top-level outer joins and the rows as they are bound, they agree exactly then |
| `TenantAnchored.LeftJoinLosesRows` | packages/db/src/tenant.ts:317-323 | a doc without grants disappears from `docs LEFT JOIN grants ON grants.resource_id = docs.id` |
| `TenantWrites.HitsMean` | packages/db/src/tenant.ts:325-360 | a rewritten UPDATE or DELETE, with joins of any kind, hits a row as the original does over the workspace's share |
| `TenantWrites.ForeignRowsAreMissed` | packages/db/src/tenant.ts:325-360 | a row of another workspace is never hit, whatever the joins |
| `TenantWrites.InsertLandsInScope` | packages/db/src/tenant.ts:395-536 | every INSERT into a tenant table is refused or lands only rows of the workspace |
| `TenantInserts.AcceptedIff` | packages/db/src/tenant.ts:395-501 | an INSERT into a tenant table is kept exactly if it lists columns and gives rows, and its first scope column, if listed, holds the workspace as a literal in every row |
| `TenantInserts.RefusedIff` | packages/db/src/tenant.ts:395-501 | each refusal reason as a condition on the statement alone: default values, no column list or readable source, a SELECT, a foreign or computed scope |
| `TenantInserts.UnscopedIsKept` | packages/db/src/tenant.ts:362-381 | an INSERT into a table without a scope column is always kept, its rows or its SELECT answered from the workspace's own share |
| `TenantWrites.InsertMeans` | packages/db/src/tenant.ts:395-501 | an accepted INSERT is the caller's own rows with the scope column set to the workspace, subqueries answered from its own share; the database takes it exactly if it would take those |
| `TenantRuns.OwnShare` | packages/db/src/tenant.ts:309-377 | a statement changes its workspace's share, and answers, as it would on that share alone, whatever it assigns |
| `TenantRuns.ForeignShare` | packages/db/src/tenant.ts:309-377 | a statement that assigns the scope column nothing but harmless literals leaves every other workspace's share unchanged |
| `TenantRuns.RunsAreIsolated` | packages/db/src/tenant.ts:9-16 | in any interleaved run each workspace's share and answers are those of its own statements on its own share; where none of them assigns rows away, its rows are all that it has |
| `TenantRuns.ReassignedRow` | packages/db/src/tenant.ts:538-543 | `SET scope = v WHERE cond` moves exactly the caller's own rows that the condition selects |
| `TenantRuns.ReassignedDocMoves` | packages/db/src/tenant.ts:538-543 | `UPDATE docs SET workspace_id = <other> WHERE id = d` gives the caller's doc to the other workspace |
| `TenantRuns.SparesShareIff` | packages/db/src/tenant.ts:538-543 | an UPDATE of any shape leaves another workspace's share as it was exactly when no own row is hit and assigned to that workspace |
| `TenantRuns.HarmlessSpares` | packages/db/src/tenant.ts:538-543 | it does so whenever every assignment to the scope column is a literal that is no string or the own id |
| `TenantRuns.ReassignSparesOthersIff` | packages/db/src/tenant.ts:538-543 | with any WHERE, FROM, joins and further assignments, `SET scope = v` leaves all others alone in every database exactly when `v` names none of them or no own row can be selected |
| `AuditReducer.RebindSubtreeSpace` | packages/audit/src/reducer.ts:219-243 | the walk ends, even on cyclic links, and stamps exactly the collections from which the root can be climbed to |
| `AuditReducer.NextFrontier` | packages/audit/src/reducer.ts:228-235 | one pass finds the new children of the frontier and keeps the walked set closed below it |
| `AuditReducer.ApplyAuditRow` | packages/audit/src/reducer.ts:611-620 | one row, with the walk for moves; keys and ids stay paired |
| `AuditReducer.ReplayLog` | packages/audit/src/reducer.ts:623-629 | the loop computes the fold |
| `AuditLaws.OnlyStateRowsMatter` | packages/audit/src/reducer.ts:607-620 | a log without its denied, failed and non-state rows replays to the same state |
| `AuditLaws.TokenRevocationIsTerminal` | packages/audit/src/reducer.ts:440-473 | a token revoked at some point of a log stays revoked unless its id is minted anew |
| `AuditReplay.PresentIff` | packages/audit/src/reducer.ts:347-592 | an entity of any of the nine kinds is in the replayed state exactly when some row created it and no later row removed it: grants and space memberships are removed, everything else is only marked |
| `AuditReplay.LastWriterWins` | packages/audit/src/reducer.ts:347-592 | each field of every replayed workspace, member, space, space member, agent, token, grant, doc and, its space apart, collection is what the last row that speaks of it says |
| `AuditReplay.LastSaidIs` | packages/audit/src/reducer.ts:623-629 | that value is v exactly when some row says v of the field and no later row says anything of it |
| `CollectionTree.MoveKeepsForestIff` | packages/audit/src/reducer.ts:510-530 | a move to an existing parent keeps the graph acyclic exactly when the parent is outside the moved subtree |
| `CollectionTree.ReboundAgrees` | packages/audit/src/reducer.ts:219-243 | stamping the moved subtree restores the denormalised binding everywhere |
| `CollectionTree.ForestsAreAcyclic` | packages/audit/src/reducer.ts:492-530 | in a forest no collection is its own ancestor |
| `CollectionTree.ReplayKeepsTree` | packages/audit/src/reducer.ts:492-534 | replaying any well-formed log gives an acyclic graph in which every child carries its parent's space |
| `CollectionTree.SubtreeSharesSpace` | packages/audit/src/state.ts:129-136 | every collection of a subtree carries its root's binding, however deep |
| `CollectionHandlers.Tables.WalkAncestors` | packages/capabilities/src/collection/move.ts:248-295 | the ancestor walk ends and stops at the first cycle, missing row or excess depth |
| `CollectionHandlers.Tables.SubtreeHeight` | packages/capabilities/src/collection/move.ts:532-547 | the level-by-level walk over live rows computes the height, or stops at the cap |
| `CollectionHandlers.Tables.SubtreeIds` | packages/capabilities/src/collection/move.ts:395-417 | the breadth-first walk collects exactly the subtree, trashed rows included |
| `CollectionHandlers.Tables.Move` | packages/capabilities/src/collection/move.ts:209-639 | throws and changes nothing unless every check passes; otherwise re-parents, rebinds and sheds grants as the policy says, with one audit row |
| `CollectionHandlers.Tables.Create` | packages/capabilities/src/collection/create.ts:194-343 | throws and changes nothing, or inserts the row under its inherited or requested space with one audit row |
| `CollectionHandlers.Tables.Rename` | packages/capabilities/src/collection/update.ts:122-208 | writes title and slug of a live row unless a live sibling holds the slug |
| `CollectionHandlers.Tables.Delete` | packages/capabilities/src/collection/delete.ts:105-181 | trashes a live row without live children or docs |
| `CollectionHandlers.Tables.Restore` | packages/capabilities/src/collection/restore.ts:137-359 | revives a trashed row under live ancestors and a live space, within the depth cap, when its slug is free |
| `CollectionHandlers.HeightBounds` | packages/capabilities/src/collection/move.ts:528-547 | the walk's height bounds every chain of live descendants |
| `CollectionHandlers.EmitsWellFormed` | packages/capabilities/src/collection/move.ts:170-194 | every emitted row is well formed in the sense the log invariant needs |
| `CollectionHandlers.MoveReplays` | packages/capabilities/src/collection/move.ts:510-624 | the rows a move writes are those replay computes by stamping the whole subtree |
| `CollectionHandlers.GrantsReplay` | packages/capabilities/src/collection/move.ts:478-504 | replay removes exactly the grants that the crossing deleted |
| `CollectionHandlers.MoveKeepsTable` | packages/capabilities/src/collection/move.ts:528-603 | an accepted move keeps the depth cap, live parents and distinct sibling slugs |
| `CollectionHandlers.LogReconstructsCollections` | packages/audit/src/state.ts:1-10 | over every run the log alone reconstructs collections and grants, and the tree, depth and slug invariants hold |
| `CollectionLaws.MoveAcceptedIff` | packages/capabilities/src/collection/move.ts:209-603 | a move is accepted exactly if its row is live, its destination is, with at most eight live rows above and none of them in the moved subtree, there is room below, the caller may place there, policy and authority fit, and no live sibling has the slug; it rebinds exactly if it leaves its bucket |
| `CollectionLaws.CreateAcceptedIff` | packages/capabilities/src/collection/create.ts:194-343 | a creation is accepted exactly if its id and slug are free and it goes to the legacy root, a live space the caller reaches, or under at most seven live rows placed where the caller may |
| `CollectionLaws.RenameAcceptedIff` | packages/capabilities/src/collection/update.ts:122-208 | a rename is accepted exactly if the row is live and the slug its own or free among its live siblings |
| `CollectionLaws.DeleteAcceptedIff` | packages/capabilities/src/collection/delete.ts:105-181 | a delete is accepted exactly if the row is live and has neither a live child nor a live doc |
| `CollectionLaws.RestoreAcceptedIff` | packages/capabilities/src/collection/restore.ts:137-359 | a restore is accepted exactly if the row is trashed, its space live or none, its slug free, and the rows above live with room for what hangs below |
| `CollectionLaws.CreateAdds` | packages/capabilities/src/collection/create.ts:300-343 | a creation adds the row asked for, bound as its parent is or as asked, and changes no other |
| `CollectionLaws.RequestChanges` | packages/capabilities/src/collection/move.ts:510-624 | every other request changes exactly what it names; a move that leaves its bucket rebinds the whole subtree |
| `CollectionLaws.GrantsLostIff` | packages/capabilities/src/collection/move.ts:478-504 | a move deletes a grant exactly if it crosses, the policy adopts the baseline, and the grant is on a doc of the subtree; no other request deletes one |
| `CollectionLaws.WalkReachesIff` | packages/capabilities/src/collection/move.ts:248-295 | the ancestor walk reaches the root exactly over live rows, none to be avoided, within its limit, and counts them |
| `CollectionLaws.HeightIff` | packages/capabilities/src/collection/move.ts:528-547 | the height walk counts to n exactly if some live row lies n live links below, up to the cap |
| `Genesis.Driver.UserCreateAfter` | packages/auth/src/create-auth.ts:365-544 | throws and changes nothing, or inserts each absent row with its audit row, all in one transaction |
| `Genesis.Driver.Serve` | packages/auth/src/create-auth.ts:365-544 | any number of signups and retries, one after the other |
| `Genesis.MemberKeysApart` | packages/audit/src/state.ts:306-309 | composite member keys of parsed ids are unambiguous |
| `Genesis.LogReconstructsGenesis` | packages/auth/src/create-auth.ts:406-544 | after any run of signups and retries, failed ones included, replaying the log gives exactly the projected tables, with one audit row per row |
| `Genesis.RetryAddsNothing` | packages/auth/src/create-auth.ts:486-497 | a retry under another space id adds no row and no audit entry |
| `Genesis.ThrowsIff` | packages/auth/src/create-auth.ts:365-544 | a signup throws exactly if an id does not parse, a statement it runs fails, or its space id is taken while the user has no live personal space |
| `Genesis.SignupLeaves` | packages/auth/src/create-auth.ts:406-544 | a signup that goes through leaves the user as owner in the workspace with a live personal space; rows that were there stay as they were, new ones say what the signup says |
| `CollabGate.Classify` | packages/sync/src/collab-gate.ts:144-206 | exactly the readable step-2 and update frames bear an update, exactly the listed kinds pass, and everything else is refused |
| `CollabGate.CollabWriteGate.OnFrame` | packages/sync/src/collab-gate.ts:275-284 | a frame is chained behind its connection's last one |
| `CollabGate.CollabWriteGate.GateFrame` | packages/sync/src/collab-gate.ts:240-263 | passes, refuses, or waits for the policy, by class, read-only flag and containment |
| `CollabGate.GateDecides` | packages/sync/src/collab-gate.ts:240-263 | the policy is asked exactly about a novel update on a writable connection; every other update and every harmless frame passes, everything else is refused |
| `CollabGate.CollabWriteGate.PolicySettles` | packages/sync/src/collab-gate.ts:258-272 | success commits and applies the update, failure rejects the frame |
| `CollabGate.SettleDoes` | packages/sync/src/collab-gate.ts:252-273 | success lets the frame pass and adds the update and its repair to what is committed and to the document if it is in memory; failure refuses the frame and changes nothing else |
| `CollabGate.StepKeepsInv` | packages/sync/src/collab-gate.ts:228-284 | every step of the gate, of connections opening and closing, of documents loading and unloading and of other writers keeps the chains, the order and the coverage |
| `CollabGate.BodiesRunInOrder` | packages/sync/src/collab-gate.ts:275-284 | gate bodies of a connection never overlap and start in arrival order; behind a refusal nothing starts or passes |
| `CollabGate.PassedUpdatesAreResident` | packages/sync/src/collab-gate.ts:252-273 | an update let through on a writable connection is committed and, whenever its document is resident, in the resident, across unloading and loading; a read-only connection never reaches the policy |
| `CollabGate.ResidentsAreCommitted` | packages/sync/src/collab-gate.ts:41-49 | every resident delta is committed |
| `CollabGate.NativeApplyIsNoOp` | packages/sync/src/collab-gate.ts:43-46 | the native apply behind the gate changes no resident |
| `CollabGate.EarlierUpdatesAreThere` | packages/sync/src/collab-gate.ts:51-62 | when a frame's gate starts, its connection's document holds every earlier update of the connection, even after the document was unloaded |
| `CollabGate.GateNeverStalls` | packages/sync/src/collab-gate.ts:275-284 | while a frame is unsettled some step of the gate can be taken |
| `GateOverSync.JointRunsRefine` | packages/sync/src/collab-gate.ts:41-49 | over the sync protocol, with failing post-commit applies, every run behind the gate is a run of the protocol, native applies included |
| `GateOverSync.GateDecidesOver` | packages/sync/src/collab-gate.ts:240-263 | the same decision over the sync protocol |
| `GateOverSync.ResidentsStayCommitted` | packages/sync/src/collab-gate.ts:41-49 | residents then hold committed deltas only and all rows their watermark covers |
| `GateOverSync.ClonesStayComplete` | packages/sync/src/hocuspocus.ts:781-794 | clones then hold all rows their transaction sees and no foreign uncommitted delta |
| `GateOverSync.PassedUpdatesAreLogged` | packages/sync/src/collab-gate.ts:252-273 | an update let through on a writable connection is in the log and, once applied natively, in the connection's document, even if the apply behind its commit failed |
| `GateOverSync.PredecessorsAreSeen` | packages/sync/src/collab-gate.ts:51-62 | when a frame's gate starts, its document holds every earlier update of its connection, even if applies failed |
| `Dispatcher.TransactOnce.Transact` | packages/dispatcher/src/dispatcher.ts:420-430 | the first call is passed through, every later one throws, even after a failed first |
| `Dispatcher.AtMostOneTransact` | packages/dispatcher/src/dispatcher.ts:409-445 | whatever the handler attempts or catches, at most one call is passed through, and only that is staged |
| `Dispatcher.System.InvokeHandler` | packages/dispatcher/src/dispatcher.ts:447-460 | the handler's acts in order, up to the first error it does not catch |
| `Dispatcher.System.TryToAllow` | packages/dispatcher/src/dispatcher.ts:462-504 | the allow row is in exactly when every part succeeded, for a mutation together with its writes; otherwise the first error comes out |
| `Dispatcher.System.Dispatch` | packages/dispatcher/src/dispatcher.ts:298-552 | the store afterwards, and an answer that agrees with the row that persists |
| `Dispatcher.OneRowOrNone` | packages/dispatcher/src/dispatcher.ts:328-550 | for every fault pattern at most one row, and exactly one when the invocation is reached and its last audit transaction commits; writes persist exactly with the allow row |
| `DispatcherLaws.RanLeaves` | packages/dispatcher/src/dispatcher.ts:409-460 | a handler attempts its acts up to the first error it does not catch and throws that; the writes that went through remain, in order, and only its first `transact` is passed through |
| `DispatcherLaws.AllowedIff` | packages/dispatcher/src/dispatcher.ts:298-504 | a dispatch is allowed exactly if nothing at all goes wrong on its way |
| `DispatcherLaws.FirstErrorDecides` | packages/dispatcher/src/dispatcher.ts:447-504 | of the faults of the try block the first one decides |
| `DispatcherLaws.RefusedAs` | packages/dispatcher/src/dispatcher.ts:328-552 | the row and the answer of every dispatch that is not allowed: validation, denial, handler error, failed audit or no audit at all |
| `DispatcherLaws.AllowedLeaves` | packages/dispatcher/src/dispatcher.ts:462-504 | an allowed mutation leaves exactly its own writes, in order under its id, and the update of its first `transact` if that succeeded; reads and refusals leave neither |
| `DispatcherRuns.RunsAreAtomic` | packages/dispatcher/src/dispatcher.ts:298-552 | in every state that interleaved dispatches reach, each has left at most one row, its writes complete and in order exactly with its allow row, and its one update only behind them |
| `DispatcherRuns.FinishedRunsAreComplete` | packages/dispatcher/src/dispatcher.ts:298-552 | a finished dispatch has left exactly its outcome's row and update, and its caller was answered accordingly |
| `DispatcherRuns.SomeDispatchMoves` | packages/dispatcher/src/dispatcher.ts:367-375 | while a dispatch is unfinished some dispatch can move |
| `Ids.UuidGenerator.UuidV7` | packages/ids/src/index.ts:156-195 | ticks the counter and clock state and renders the id from it |
| `Ids.GeneratedIdParses` | packages/ids/src/index.ts:42-63 | every generated id is accepted by `parseV7` |
| `Ids.AcceptedIff` | packages/ids/src/index.ts:42-63 | a string is accepted exactly if it is 8, 4, 4, 4 and 12 hex digits, hyphens between them or not, whose thirteenth is 7 |
| `Ids.IdSpells` | packages/ids/src/index.ts:181-195 | an id spells the low 48 bits of the timestamp, the version, the counter, and the random bytes under the variant bits |
| `Ids.RunIsMonotone` | packages/ids/src/index.ts:156-195 | successive ids strictly increase as strings for any clock readings and seeds below 2^48 |
| `Ids.DriftSinceReseed` | packages/ids/src/index.ts:159-179 | since a reseed, 4096 times the timestamp plus the counter counts the later calls, which bounds the drift |
| `Ids.NextIdSortsAfterIff` | packages/ids/src/index.ts:156-195 | the next id sorts after the last unless the last used the final counter of the final millisecond |
| `Ids.UuidChars` | packages/ids/src/index.ts:42-50 | accepted ids hold hex digits and hyphens only |

## Left out

- Yjs, y-prosemirror and Hocuspocus themselves: a document is a set of deltas, containment a subset test, residency a map.
- Base64 and lib0 decoding: frames and updates arrive decoded; an unreadable payload is a case of `CollabGate.Frame`.
- SHA-256 and `canonicalize`: the content hash is injective and canonical comparison is equality of block content.
- `bare` opens without a hydration context, `close()` of the Hocuspocus service and the timing of debounced unloads.
- `SyncProgress.SomeDispatchAdvances`: somebody can go on, and nobody is overtaken, but no scheduler is modelled, so no bound on how long a waiter waits; throws and rollbacks, which also end a wait, are not counted as going on.
- Zod schemas other than those of paragraph and heading props and of inline content.
- `BlockOps.Applier.Update`: the post-state's `content_json` is the pair of props and content, not its serialised text.
- CTEs, set operations, raw SQL fragments, schema qualifiers, unqualified column names, lateral joins and subqueries inside GROUP BY, HAVING, ORDER BY or LIMIT; grouping, ordering and limits are one arbitrary function of the bindings and their projections.
- ON CONFLICT updates, RETURNING, uniqueness and foreign-key constraints in `TenantRuns`; a row whose length does not fit the column list is a database error.
- `TenantRuns.RunsAreIsolated`: UPDATE joins without FROM, which the rewrite does not pin, DELETE USING, writes to tables without a scope column and assignments to the scope column other than harmless literals are outside its hypotheses.
- `TenantAnchored.OuterJoinsExactly`: unguarded outer joins below the top level are outside its hypotheses, and the "only then" half needs the rows as they are bound, since a grouping or a limit may hide a lost row.
- `ForeignUpdate.ApplyForeignUpdate`: what the Yjs document shows after the apply is an input; the merged update bytes and the write-back of repaired blocks are not modelled.
- Capability handlers outside the collection family: their effects enter `CollectionHandlers.LogReconstructsCollections` as arbitrary rows that touch neither collections nor grants, or as grants given and withdrawn.
- `CollectionHandlers.Tables.Move`: which of several failing checks is reported, the sort order of the dropped grants, and the access rules behind placement and administration, whose answers are inputs.
- `CollectionHandlers.Tables.Create`: slug derivation and the attribution of agents are inputs.
- `Genesis.Driver.UserCreateAfter`: the composed slug and generated space id are inputs, and a violated constraint other than the three conflict targets and the space's primary key is a failing statement.
- The audit envelope beyond its principal: timestamps, hashes, trace ids and read collapsing.
- The permission gate's rules, the registry, HTTP binding, rate limits, the MCP adapter, configuration, the CLI and the web client.
