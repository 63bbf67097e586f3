# Super Line: collection stores, replication and presence, modelled and proved

Super Line serves typed row collections, remote rows of other objects' SQLite, CRDT documents and a presence directory
to live subscribers. This project models the parts of it that must stay right over unbounded runs or for every input, in
Dafny 4.11, and proves what they promise.

The models follow the program's structure; each module is one file.

- **Change capture and replication.** `ChangeLog` is the source's log: triggers that log row changes one entry a key,
  trigger sync after schema changes, commit, pruning and the answers to `changesSince`. `TableWrites` says which writes
  its tables take. `Batches` says what a batch does to the log, `LogExactness` exactly when an answer tells the whole of
  a batch, `LogCases` how to see that from its steps, and four batches told wrong. `Answers` says what an answer has to
  list, `Wipes` exactly when there is none. `SyncedSql` is the source as an object. `Replication` is the source, a lossy
  network, the node and its subscribers as one state machine; `RemoteRows` is the node as an object. `RemoteKeys`,
  `RemoteSnapshot`, `Routing` and `SeededViews` are the rows as a collection: keys, pinned snapshots, the frames sent to
  subscribers and what they make of them. `EndToEnd` puts all of these together. `RemoteData` holds the one notion it
  rests on, a delta that is sound between two clocks.
- **Queries and their SQL.** `Query` is the evaluator and `QueryLaws` what its paths, sort keys and listings mean, `Sql`
  the emitted SQL with its three-valued meaning, `Compiler` and `CompilerSoundness` the compiler and its proof,
  `CompilesWhen` exactly when SQL answers, `Patterns` LIKE and GLOB, `PatternPieces` what a pattern means, `TextOrder`
  text order by code unit, code point and byte. `Plans`, `Planning`, `RowCodec` and `Drift` are layouts, rows in them,
  and layout changes at boot. `Pushdown`, `GroupedCount` and `SqliteReads` are snapshots and counts answered by SQL.
  `Sorting` has filters and sorts.
- **Presence.** `Presence` is the gossiped directory: one node as an object, and any number of them on a network.
- **The in-memory store.** `MemoryStore` is the batch store with its undo log.
- **CRDT op-log.** `Lattices` says what merging is, `OpLog` is a node over the central log, `Compaction` is one
  document's log under interleaved appends and compactions.

How the pieces meet: `EndToEnd` is one system of a source with its log and history, a network, the node with its queues
and stored clocks, and subscribers with their snapshots and views. Its steps are what `SyncedSql.SyncedSql.Query` and
`ChangesSince`, `RemoteRows.RemoteNode.Step` and `Answer`, and `RemoteSnapshot.Snapshot` promise. Every step whose
batch, if it is one, hides nothing is a step of `Replication` (`EndToEnd.StepRefines`), so a subscriber's filtered view
is the rows of the source its filter admits (`EndToEnd.SubscriberSeesSource`). `Planning.ConformingRowsFit` gives the
rows every layout result is about, and `Drift.AlterKeepsTable` hands an altered table back to them.

## What the code does not keep

Six places where a promise is broader than the code. Each has a concrete case and the exact condition.

- Not every batch is told whole by `changesSince`. A column dropped and added back empties it on every row, but the
  table's CREATE text ends as it began and no clock moves (`LogCases.HiddenAlterExample`). A table's own trigger, where
  it is newer, runs before the log's: one that deletes a row just inserted leaves a put of a row that is not there, and
  the delete untold (`LogCases.NestedDeleteExample`). One that raises IGNORE keeps the entry from landing at all
  (`LogCases.IgnoredDeleteExample`). In a NOCASE key column a key changed in case alone is logged as a put of the new
  key, the old one untold (`LogCases.CaseChangeExample`). Exactly which batches are told whole, whatever their data, is
  `LogExactness.AnswerCompleteIff`; exactly which ALTERs are safe, `LogExactness.AlterSafeIff`; and
  `LogCases.SettledIsOrderly` says how to tell from a batch's steps that its triggers and key changes are.
- A dot path that ends in `length` on an array reads a number in the evaluator and nothing in `json_extract`, so a
  filter on it that should only narrow drops rows. `CompilerSoundness.JsonEqualitySafeIff`.
- A union schema with an untyped branch (`anyOf: [{type: 'string'}, {}]`) is planned as one scalar column, which cannot
  hold what the untyped branch lets through. `Planning.UntypedBranchExample`, `Planning.FitsIff`.
- The sort comparison's comment puts incomparable values last; the code ties them, so text beside numbers leaves it no
  order at all (`QueryLaws.MixedSortExample`). `QueryLaws.SortsIff` says of which values it is one.
- A failed in-memory batch restores every row but not their order: a row it had deleted comes back last, which an
  unordered snapshot shows. `MemoryStore.FailureReordersExample`, `MemoryStore.FailedOrderIff`.
- A compaction that reads past an append which took its number but has not committed deletes that append if it commits
  before the deletion. `Compaction.ReadPastExample`; exactly when it loses something, whatever else goes on,
  `Compaction.ReadPastIff` and, over whole runs, `Compaction.NothingLostIff`.

## Model

| member | source | states |
|---|---|---|
| RemoteData.ReplayIsPatch | packages/collections-cloudflare/src/remote-rows.ts:105-110 | applying a list of changes one by one leaves each key at its last change and every other key alone |
| RemoteData.SoundPatch | packages/collections-cloudflare/src/synced-sql.ts:294-302 | a sound delta takes the rows at any clock it covers, not just its first, to the rows at its last |
| RemoteData.SoundCompose | packages/collections-cloudflare/src/remote-rows.ts:129-137 | two deltas that meet at a clock make one sound delta over both stretches |
| ChangeLog.PruneKeeps | packages/collections-cloudflare/src/synced-sql.ts:206-212 | pruning brings the markers under the cap and the log still tells every change from the new start of the history |
| ChangeLog.PruneKeepsAnswers | packages/collections-cloudflare/src/synced-sql.ts:206-212 | for every clock from the new start of the history on, pruning changes neither the answer nor whether it wipes |
| ChangeLog.DeltaSinceSound | packages/collections-cloudflare/src/synced-sql.ts:190-203 | what an answer leaves out held one value at every clock since |
| ChangeLog.LogCompleteness | packages/collections-cloudflare/src/synced-sql.ts:294-302 | from any clock inside the history with no more keys logged since than a pull may carry, the answer does not wipe and takes the tables as they stood then to the tables as they stand |
| ChangeLog.PruneDropsOldest | packages/collections-cloudflare/src/synced-sql.ts:206-212 | the markers left are within the cap, no marker that goes is newer than one that stays or shares its clock, and nothing else goes |
| ChangeLog.IdleSync | packages/collections-cloudflare/src/synced-sql.ts:218 | a sync run because something other than the tables changed in the schema changes neither tables nor log |
| TableWrites.CanonIff | packages/collections-cloudflare/src/synced-sql.ts:97-98 | ids are one key as they are, but for the case of ASCII letters, or but for trailing spaces, by collation |
| TableWrites.WriteIff | packages/collections-cloudflare/src/synced-sql.ts:94-100 | a row write is refused exactly where its row is not there or its key is another row's, and otherwise leaves the rows there were but for the one it takes and the one it puts |
| Batches.BatchFollows | packages/collections-cloudflare/src/synced-sql.ts:87-101 | through any steps of a batch, with renames, key changes and a trigger's own writes between a row's write and its log entry, a row no statement wrote or ALTER rewrote is as it was, and a key's entry is the last to land for it |
| Batches.EntryShape | packages/collections-cloudflare/src/synced-sql.ts:87-101 | after a batch whose last entries are right about their rows, every entry of a table not lost is a put exactly if its row exists |
| Batches.BackfillCollidesNever | packages/collections-cloudflare/src/synced-sql.ts:164-165 | logging a created table whole never meets an entry that is already there |
| Batches.CommitShaped | packages/collections-cloudflare/src/synced-sql.ts:215-227 | after every batch, whatever its triggers did: entries of tracked tables only and none later than the clock, delete markers within the cap, and the clock moved by one if anything was logged or broken and not otherwise |
| Batches.CommitKeeps | packages/collections-cloudflare/src/synced-sql.ts:215-227 | a batch whose last entries are right about their rows, and whose ALTERs changed no row unseen, leaves puts exactly on rows that exist and a log that tells every change since any clock it answers for |
| Batches.QuietKeeps | packages/collections-cloudflare/src/synced-sql.ts:218-220 | such a batch that moves no clock changed no row |
| Batches.ShownAltersHideNothing | packages/collections-cloudflare/src/synced-sql.ts:155 | no ALTER of a batch whose altered tables end with other columns than they began with changes a row unseen |
| Batches.InstalledInv | packages/collections-cloudflare/src/synced-sql.ts:170-178 | installation over any existing tables starts with a complete log |
| Wipes.PruneDropsIff | packages/collections-cloudflare/src/synced-sql.ts:206-212 | pruning drops an entry if and only if it is a delete marker with more than the cap of markers at its clock or later |
| Wipes.PruneStartIff | packages/collections-cloudflare/src/synced-sql.ts:206-212 | pruning moves the start of the history past a clock if and only if it drops a marker later than it |
| Wipes.BrokenIff | packages/collections-cloudflare/src/synced-sql.ts:150-168 | the history breaks if and only if a batch dropped, renamed or gave other columns to a table with a row id that it found |
| Wipes.ClockMovesIff | packages/collections-cloudflare/src/synced-sql.ts:215-227 | the clock moves, and by one, if and only if a batch did that, landed an entry or created a table with a row in it |
| Wipes.WipesIff | packages/collections-cloudflare/src/synced-sql.ts:206-227 | after a batch an answer from a clock inside the history before it wipes if and only if the batch broke the history, a delete marker later than that clock is over the cap, or more keys are logged since than a pull may carry |
| LogExactness.AnswerCompleteIff | packages/collections-cloudflare/src/synced-sql.ts:215-220 | the answer from just before any batch tells the whole of it, whatever data its statements write and its ALTERs leave, if and only if for every key the last entry to land is right about its row, or the table is new, or the row is there neither before nor after, or it is there both times with nothing written, rewritten or told gone |
| LogExactness.OrderlyCompleteIff | packages/collections-cloudflare/src/synced-sql.ts:215-220 | where the last entries are right about their rows, with the data as it is, if and only if no ALTER changed a row unseen |
| LogExactness.AlterSafeIff | packages/collections-cloudflare/src/synced-sql.ts:147-155 | where the last entries are right about their rows, whatever the data, if and only if every surviving row of the tables altered is logged in the batch |
| LogCases.SettledIsOrderly | packages/collections-cloudflare/src/synced-sql.ts:87-101 | the last entries are right if every entry lands, none after a nested step changed whether its row is there, and none for a key its collation cannot tell from the old one |
| LogCases.NestedDeleteExample | packages/collections-cloudflare/src/synced-sql.ts:96 | a trigger of the table's own that deletes the row just inserted: the log ends with a put of a row that is not there, and the earlier delete is not told |
| LogCases.CaseChangeExample | packages/collections-cloudflare/src/synced-sql.ts:97-98 | a key of a NOCASE column changed in case alone: the old key is not told gone |
| LogCases.IgnoredDeleteExample | packages/collections-cloudflare/src/synced-sql.ts:99 | a trigger that raises IGNORE after a delete: nothing is logged and no clock moves |
| LogCases.HiddenAlterExample | packages/collections-cloudflare/src/synced-sql.ts:147-155 | dropping a column and adding it back changes a row and moves no clock |
| Answers.ListsTells | packages/collections-cloudflare/src/synced-sql.ts:190-203 | a list of the changes since a clock has each key logged after it that is deleted, or put and there, exactly once, with the row as it stands, and no other |
| SyncedSql.SyncedSql.constructor | packages/collections-cloudflare/src/synced-sql.ts:170-178 | the object starts installed and complete |
| SyncedSql.SyncedSql.Exec | packages/collections-cloudflare/src/synced-sql.ts:87-101 | a row written, the entry a trigger logs for one (a delete marker for the old key only where its collation tells it from the new one), or a schema step; or a refusal that changes nothing |
| SyncedSql.SyncedSql.Sync | packages/collections-cloudflare/src/synced-sql.ts:150-168 | the loops drop stale triggers, forget lost tables, install what is missing and backfill, and report a broken history exactly if a tracked table was lost |
| SyncedSql.SyncedSql.Changes | packages/collections-cloudflare/src/synced-sql.ts:190-203 | the loops list exactly what is due since a clock, once each: every key logged deleted after it, and every key logged put after it whose row is there, with the row as it is |
| SyncedSql.SyncedSql.ChangesSince | packages/collections-cloudflare/src/synced-sql.ts:294-302 | wipes, and then lists nothing, exactly before the history, after the clock or with more keys logged since than the pull limit, the three bounds written out; otherwise lists exactly what is due and, on a complete log, replays the rows at that clock to the current ones |
| SyncedSql.SyncedSql.Prune | packages/collections-cloudflare/src/synced-sql.ts:206-212 | the markers left are within the cap, only the oldest go and never part of a clock, and no answer from the new start of the history on changes |
| SyncedSql.SyncedSql.Commit | packages/collections-cloudflare/src/synced-sql.ts:215-227 | announces exactly the batches that moved the clock, with their changes, all that is due and nothing else, exactly if few enough and after the history's start |
| SyncedSql.SyncedSql.Query | packages/collections-cloudflare/src/synced-sql.ts:250-277 | a failed or read-only batch changes nothing and names the first statement that was refused or wrote; any other commits whole, keeps the log complete unless it hides something, and pushes exactly if the clock moved |
| Replication.ReplicaSafety | packages/collections-cloudflare/src/remote-rows.ts:112-165 | in every state of every run with pushes lost, duplicated, late and reordered and pulls overtaken by batches, an unwiped subscriber holds the source's rows at the node's clock once that reaches its snapshot's, and before that each row is the snapshot's or the node's |
| Replication.FromTheStart | packages/collections-cloudflare/src/remote-rows.ts:121-139 | one whose snapshot is of the clock it registered at never differs from the source at the node's clock |
| Replication.StepForward | packages/collections-cloudflare/src/remote-rows.ts:121-137 | no step takes the node to an older epoch or clock, and a new epoch wipes every subscriber |
| Replication.RunForward | packages/collections-cloudflare/src/remote-rows.ts:121-137 | so over any stretch of a run an epoch once left is never returned to |
| Replication.StepKeepsSeeded | packages/collections-cloudflare/src/remote-rows.ts:105-110 | a subscriber that outlives a step keeps its snapshot and everything it heard |
| Replication.PullCatchesUp | packages/collections-cloudflare/src/remote-rows.ts:121-127 | a pull that ends without a wipe leaves every subscriber at what the source held when it answered |
| Replication.DeliveredIsReached | packages/collections-cloudflare/src/remote-rows.ts:129-137 | no push is passed over for good: in any run, from the step that delivers it to a node with a clock on, the node is at the push's clock or past it, or asking, and any answer it is given is |
| Replication.ClosedOnlyByWipe | packages/collections-cloudflare/src/remote-rows.ts:121-127 | a subscriber is closed only where it leaves, or by an answer that wipes or is of another epoch than the one stored |
| RemoteRows.RemoteNode.Resume | packages/collections-cloudflare/src/remote-rows.ts:149-152 | queues one catch-up for each source given, or each one with a clock, and nothing else |
| RemoteRows.RemoteNode.Emit | packages/collections-cloudflare/src/remote-rows.ts:105-110 | every listener hears every change, in order |
| RemoteRows.RemoteNode.Step | packages/collections-cloudflare/src/remote-rows.ts:129-139 | a catch-up asks from the stored clock, or from past all clocks; a push of the stored epoch at the next clock with changes is stored and told without asking; after any other push of a source with a clock stored, the node asks from that clock or was at the push's epoch and clock or past them already; nothing is done for a stale push or one of a source never seen, and no other source's clock, queue or pull changes |
| RemoteRows.RemoteNode.Answer | packages/collections-cloudflare/src/remote-rows.ts:121-127 | an answer is stored; to a first pull nothing is told, one that wipes or is of another epoch closes the source's subscribers, and any other tells its changes, what was seen when asking still being what is stored |
| RemoteKeys.SplitKeyInverts | packages/collections-cloudflare/src/remote-rows.ts:64-69 | splitting undoes joining for colon-free store and table names |
| RemoteKeys.JoinKeyInverts | packages/collections-cloudflare/src/remote-rows.ts:64-69 | whatever splits joins back, with the first two parts colon-free |
| RemoteKeys.SplitKeyIff | packages/collections-cloudflare/src/remote-rows.ts:64-69 | splitting gives a store, table and id back if and only if neither the store nor the table holds a colon |
| RemoteKeys.ColonInStoreExample | packages/collections-cloudflare/src/remote-rows.ts:95 | with a colon in a store's name two rows share a key |
| RemoteKeys.KeyFixes | packages/collections-cloudflare/src/remote-rows.ts:59-60 | two versions of a row with one key agree on its store and table |
| RemoteKeys.RowShows | packages/collections-cloudflare/src/remote-rows.ts:95-96 | what a filter or reader sees of a row: its key, store, table and id as texts, and under `data` every column the source has, null, number and text as they are and a blob under `blob`, and nothing for a column it has not |
| RemoteKeys.RowInjective | packages/collections-cloudflare/src/remote-rows.ts:95-96 | two rows are shown alike only where store, key and every column are the same |
| RemoteKeys.ChangeShows | packages/collections-cloudflare/src/remote-rows.ts:98-103 | a listener hears a change under the row's id and source, as the row it now is or as gone |
| RemoteSnapshot.SourceSnapshot | packages/collections-cloudflare/src/synced-sql.ts:278-287 | the loop over tables returns the first rows up to the limit of everything asked for |
| RemoteSnapshot.ListedParts | packages/collections-cloudflare/src/synced-sql.ts:278-287 | what is asked for is every row of each table that has ids and is asked for, in order, table after table |
| RemoteSnapshot.PartsMean | packages/collections-cloudflare/src/remote-rows.ts:51-52 | a filter is the conjunction of its parts, none of which is an `and` itself |
| RemoteSnapshot.FindPin | packages/collections-cloudflare/src/remote-rows.ts:54-57 | the loop finds the value of the first equality on the field, or nothing exactly where there is none |
| RemoteSnapshot.PinsNarrow | packages/collections-cloudflare/src/remote-rows.ts:153-163 | no row of another store or table than the pinned one passes the filter |
| RemoteSnapshot.WindowOfFirst | packages/collections-cloudflare/src/remote-rows.ts:160-162 | where the pins alone decide, stopping at the window loses nothing |
| RemoteSnapshot.Snapshot | packages/collections-cloudflare/src/remote-rows.ts:153-165 | a validation error exactly where store or table is not pinned by name; else, where the rows needed fit one read, the evaluator's answer on all rows of all stores |
| RemoteSnapshot.Read | packages/collections-cloudflare/src/remote-rows.ts:166-172 | the row a key names, shown field by field and column by column as its source has it, or nothing exactly where no store lists one under it |
| Routing.ExcludedNeverMatches | packages/core/src/query.ts:171-187 | a row skipped on its fixed fields was never, in any version, one the filter admits |
| Routing.RuledOutIsSilent | packages/core/src/query.ts:171-187 | a subscriber whose filter asks for other stores or tables, through any nesting of `and` and `or`, is sent nothing of a put |
| Routing.RouteKeeps | packages/server/src/collections/rows.ts:333-347 | a view that is exactly the rows its filter admits is so after any change without a prior row, sent, skipped or turned into a removal |
| Routing.RoutedRun | packages/server/src/collections/rows.ts:318-349 | the same over any run of changes of any stores |
| Routing.ReplicaIsReplay | packages/collections-cloudflare/src/remote-rows.ts:98-110 | the rows the views follow are, store by store, the replay of what was emitted |
| SeededViews.RoutedKeeps | packages/server/src/collections/rows.ts:318-349 | a view that is exactly the admitted rows of a source is, after any changes routed to it, exactly the admitted rows of their replay |
| SeededViews.SnapshotSeeds | packages/collections-cloudflare/src/remote-rows.ts:153-165 | a view seeded with an unwindowed snapshot that fits one read is exactly the admitted rows of the source pinned |
| EndToEnd.ResponseIsSound | packages/collections-cloudflare/src/synced-sql.ts:294-302 | an answer of a source whose log is complete is the whole story since the clock asked from, and a wipe to a first pull, whose clock is past any the source reaches |
| EndToEnd.StepRefines | packages/collections-cloudflare/src/remote-rows.ts:112-165 | every step of source, network, node and subscribers together, whose batch if any hides nothing, is a step of the replication state machine or changes nothing it sees |
| EndToEnd.RunRefines | packages/collections-cloudflare/src/remote-rows.ts:112-165 | so every run of the whole is one of its runs |
| EndToEnd.SubscriberSeesSource | packages/collections-cloudflare/src/remote-rows.ts:71-86 | in any run of the whole, a subscriber whose unwindowed snapshot fit one read holds exactly the rows its filter admits of what the source held at the node's clock, once that reaches the snapshot's, resets wiped and pushes lost, late and reordered as they may |
| EndToEnd.CaughtUpSeesTables | packages/collections-cloudflare/src/remote-rows.ts:71-86 | and, when the node has caught up, exactly the rows it admits of the source's tables as they are |
| Query.GetField | packages/core/src/query.ts:83-93 | the loop over segments reads the walk through own fields, array elements and lengths, nothing beyond a scalar |
| QueryLaws.PathStep | packages/core/src/query.ts:83-93 | a path with one more segment reads that property of what the path reads |
| QueryLaws.ArrayIndexIff | packages/core/src/query.ts:83-93 | a segment is an array index if and only if it is a number's decimal writing |
| QueryLaws.ArrayReads | packages/core/src/query.ts:83-93 | under a path to an array are its elements by place, its length by name, and nothing else |
| Query.ExclusionSound | packages/core/src/query.ts:171-187 | a filter excluded on some fields is false on every row that agrees on them |
| Query.AnswerRows | packages/core/src/query.ts:242-255 | row i of an answer is row offset + i of the passing rows in their order, and there are as many as the limit allows of those the offset leaves |
| Query.Pages | packages/core/src/query.ts:253-254 | consecutive pages put together are the page of both limits |
| QueryLaws.SortPlaces | packages/core/src/query.ts:232-239 | absent and null sort last and tie, numbers go by size, texts by code point, and all else ties |
| QueryLaws.FirstKeyDecides | packages/core/src/query.ts:245-251 | the first sort key that tells two rows apart decides, turned round where descending; none, and they tie |
| QueryLaws.SortsIff | packages/core/src/query.ts:232-239 | the sort comparison is a total preorder of some values if and only if it tells no two of them apart beside one of another kind |
| QueryLaws.MixedSortExample | packages/core/src/query.ts:232-239 | two ties with a text, that text with one, and two is above one |
| Query.CountValues | packages/core/src/query.ts:203-215 | the counts hold exactly the values some row is counted under, each with how many rows are, an array's repeats once |
| Query.CompareValueTotal | packages/core/src/query.ts:217-224 | the order of grouped values is total, with ties only between equal values |
| Query.OrderIsCanonical | packages/core/src/query.ts:226-230 | however the groups come, their ordered and trimmed listing is the same |
| QueryLaws.CountsListed | packages/core/src/query.ts:217-230 | a listing of grouped counts has as many as its limit allows, the larger counts first unless asked by value, booleans before numbers before texts before null between equal ones, and whatever is cut off belongs after all of them |
| TextOrder.CompareText | packages/core/src/query.ts:97-112 | the loop on code units with surrogates lifted is the lexicographic order of the lifted units |
| TextOrder.CompareTotal | packages/core/src/query.ts:97-112 | that is a total order on all unit sequences, well-formed or not |
| TextOrder.OrdersAgree | packages/core/src/query.ts:97-112 | on well-formed text it is code point order (section 2.1 of RFC 2781), and so is the order of UTF-8 bytes (section 3 of RFC 3629) |
| TextOrder.Utf16Injective | packages/core/src/query.ts:97-112 | well-formed texts with the same code units are the same |
| Patterns.LikeSql | packages/collections-sqlite/src/sql.ts:118-140 | the loop over a pattern's characters builds the translation and its exact flag |
| Patterns.LikeSuperset | packages/collections-sqlite/src/sql.ts:118-140 | whatever the evaluator's LIKE matches, the translated pattern matches under GLOB or LIKE |
| Patterns.LikeExact | packages/collections-sqlite/src/sql.ts:118-140 | an exact translation matches nothing else, literal `*`, `?` and `[` included |
| Patterns.ExactIff | packages/collections-sqlite/src/sql.ts:118-140 | the exact flag is set if and only if the two match the same texts |
| PatternPieces.LikesIff | packages/core/src/query.ts:122-131 | the evaluator's LIKE matches exactly the texts that can be cut into one piece per character of the pattern: anything for `%`, one code unit for `_`, the character's own units, case folded or not, for any other |
| Sorting.SortedAgree | packages/core/src/query.ts:242-255 | two sorted orders of the same rows agree place by place, up to ties |
| Sorting.SortSorts | packages/core/src/query.ts:242-255 | under a total preorder the sort orders its rows and keeps each |
| Sorting.SortStable | packages/core/src/query.ts:242-255 | and leaves those that tie in the order they came |
| Planning.TypesOf | packages/core/src/column-plan.ts:76-91 | the loops collect every type word of every branch |
| Planning.PlanColumns | packages/core/src/column-plan.ts:117-151 | a schema is planned exactly if its names are usable, at most sixty letters, digits and underscores with no digit first and none of the store's own, and its key is a required, non-null text field, and otherwise the error names what is wrong; the layout has a column per property in order and no scalar column that may be both absent and null |
| Planning.ColumnIff | packages/core/src/column-plan.ts:93-104 | a field's column may be absent unless required, may be null exactly if a branch says so, and is of a scalar kind exactly where its branches say that one type and it is not both |
| Planning.FitsIff | packages/core/src/column-plan.ts:93-104 | a column holds every value its field's schema admits if and only if it is JSON or every branch names a type |
| Planning.UntypedBranchExample | packages/core/src/column-plan.ts:93-104 | text or anything is planned as text, and a number does not fit |
| Planning.ConformingRowsFit | packages/core/src/column-plan.ts:130-141 | a row a typed schema lets through is one its layout can hold |
| RowCodec.ReadRow | packages/collections-sqlite/src/sql.ts:369-385 | the loop over columns reads the row, leaving absent fields out |
| RowCodec.InsertStores | packages/collections-sqlite/src/sql.ts:357-362 | an insert's positional values store every column under its name |
| RowCodec.CellRoundTrip | packages/collections-sqlite/src/sql.ts:351-355 | one column keeps its field: absent, null and every value of its kind |
| RowCodec.RowRoundTrip | packages/collections-sqlite/src/sql.ts:357-385 | reading a stored row gives it back, absent apart from null |
| RowCodec.UpdateStores | packages/collections-sqlite/src/sql.ts:364-367 | an update of a stored row leaves what inserting the new row would have |
| Drift.ParseFingerprint | packages/collections-sqlite/src/sql.ts:395-400 | the loop over parts collects the entries by name |
| Drift.ParseInverts | packages/core/src/column-plan.ts:106-114 | parsing a layout's fingerprint gives its shape, key and columns back, in no order |
| Drift.SameFingerprintIff | packages/core/src/column-plan.ts:106-114 | two layouts have one fingerprint if and only if they have one key, one shape and the same columns in any order |
| Drift.DriftOf | packages/collections-sqlite/src/sql.ts:402-423 | the loops refuse exactly a changed shape, a changed or removed field or an added required one, and otherwise list what is new |
| Drift.DriftIff | packages/collections-sqlite/src/sql.ts:402-423 | drift is let through if and only if the layout extends the stored one by columns that may be absent or null |
| Drift.AlterKeepsRows | packages/collections-sqlite/src/sql.ts:414-421 | an altered row is what the new layout would have stored for the old fields with every added one absent or null, and reads back so |
| Drift.AlterKeepsTable | packages/collections-sqlite/src/sql.ts:414-421 | the same for a whole table |
| Drift.Database.RunAlters | packages/collections-sqlite/src/index.ts:30 | one ADD COLUMN after another over a table's rows |
| Drift.Database.Reconcile | packages/collections-sqlite/src/index.ts:20-33 | boot refuses exactly what drift does not let through and then changes nothing; otherwise it records the layout and adds the pending columns |
| Compiler.CompileExpr | packages/collections-sqlite/src/sql.ts:148-261 | the recursion with its argument loop compiles every filter, parameters in placeholder order |
| CompilerSoundness.LookupIsWalk | packages/collections-sqlite/src/sql.ts:74-79 | through identifier segments a JSON path reads what the evaluator reads, but for the length of an array |
| CompilerSoundness.AbsentReadsNothing | packages/collections-sqlite/src/sql.ts:81-89 | a field no column can hold is on no valid row |
| CompilerSoundness.CompileBinds | packages/collections-sqlite/src/sql.ts:148-261 | a compiled filter comes with exactly the parameters its placeholders take |
| CompilerSoundness.CompileMeans | packages/collections-sqlite/src/sql.ts:148-261 | on every valid stored row an exact compilation is true or false, never null, as the evaluator says; any other is true whenever the evaluator is, arrays' lengths through dot paths aside |
| CompilerSoundness.JsonEqualitySafeIff | packages/collections-sqlite/src/sql.ts:74-79 | equality on a JSON path narrows safely for every value if and only if the path does not land on an array's length |
| CompilesWhen.ResolveIff | packages/collections-sqlite/src/sql.ts:81-89 | a field is a scalar column's exactly if it names one, a JSON path exactly under a JSON column through identifiers, and absent exactly where no column or only a scalar one is under its first name |
| CompilesWhen.CompilesIff | packages/collections-sqlite/src/sql.ts:148-261 | which filters compile at all and which exactly, both ways, by where their fields are and what values they are compared with |
| Pushdown.CompileOrderBy | packages/collections-sqlite/src/sql.ts:263-277 | the loop compiles an order or gives it up at the first field SQL cannot order |
| Pushdown.OrderAgrees | packages/collections-sqlite/src/sql.ts:263-277 | on stored rows the emitted ORDER BY, null placement included, compares as the evaluator does |
| Pushdown.OrderPreorder | packages/core/src/query.ts:233-252 | on planned columns the evaluator's sort comparison is a total preorder |
| Pushdown.BoundWindow | packages/collections-sqlite/src/sql.ts:294-297 | an engine that steps over OFFSET rows and then returns LIMIT, a negative one never running out, returns the query's window |
| CompilesWhen.SnapshotIff | packages/collections-sqlite/src/sql.ts:279-300 | SQL answers a snapshot whole if and only if its filter compiles exactly, its sort fields are number or text columns and the parameters fit, and else narrows by the filter wherever that compiles |
| CompilesWhen.CountIff | packages/collections-sqlite/src/sql.ts:302-308 | it counts if and only if the filter compiles exactly and its parameters fit |
| CompilesWhen.CountByIff | packages/collections-sqlite/src/sql.ts:310-345 | it groups if and only if, besides, the field is no path and is a column or no row's |
| Pushdown.SnapshotPushdown | packages/collections-sqlite/src/sql.ts:279-300 | whatever rows the engine answers an exact statement with, ties as it likes, they are rows the filter passes with the sort keys of the evaluator's answer place by place, and unwindowed are the same rows |
| Pushdown.NarrowingPushdown | packages/collections-sqlite/src/index.ts:71-77 | a statement that only narrows, or scans all for want of parameters, leaves the evaluator's answer what it is on all rows |
| Pushdown.CountPushdown | packages/collections-sqlite/src/sql.ts:302-308 | a counting statement counts the rows the evaluator passes |
| GroupedCount.GroupedPushdown | packages/collections-sqlite/src/sql.ts:310-345 | the groups SQL answers, decoded, are the evaluator's grouped counts, one row of the answer per value, for scalar, optional, nullable and JSON fields |
| GroupedCount.ElementCounts | packages/collections-sqlite/src/sql.ts:336-344 | the distinct triples of `json_each` count each row once per distinct scalar |
| SqliteReads.SnapshotServes | packages/collections-sqlite/src/index.ts:71-77 | a filtered snapshot is the rows the filter passes, exact or fallen back |
| SqliteReads.OrderedServes | packages/collections-sqlite/src/index.ts:71-77 | a snapshot ordered by planned columns, windowed or not, exact or fallen back, is rows the filter passes with the sort keys of the evaluator's answer place by place |
| SqliteReads.CountServes | packages/collections-sqlite/src/index.ts:131-136 | `count` is their number either way |
| SqliteReads.CountByServes | packages/collections-sqlite/src/index.ts:137-143 | `countBy` is their grouped count either way |
| Presence.GossipPresence.Set | packages/adapter-libp2p/src/presence.ts:51-55 | the own slice has the connection as given under its id and every other as it was; no other slice changes, and the next number's delta says so |
| Presence.GossipPresence.Del | packages/adapter-libp2p/src/presence.ts:57-61 | the own slice has the connection no more and every other as it was; no other slice changes, and the next number's delta says so even where it was not there |
| Presence.GossipPresence.JoinRoom | packages/adapter-libp2p/src/presence.ts:63-69 | the connection's rooms are those it was in and the room last if it was not in it; every other connection and slice is as it was, and it is announced exactly where the connection is there and was not in the room |
| Presence.GossipPresence.QuitRoom | packages/adapter-libp2p/src/presence.ts:71-77 | the connection's rooms are the old ones other than the room, each as often and in their order; every other connection and slice is as it was, and it is announced exactly where the connection was in the room |
| Presence.GossipPresence.Own | packages/adapter-libp2p/src/presence.ts:150-158 | the own slice, made empty on first use |
| Presence.GossipPresence.ApplyDelta | packages/adapter-libp2p/src/presence.ts:166-181 | the same of a peer's slice: a connection set, gone, in one room more at the end or in all but one, and all else as it was |
| Presence.Values | packages/adapter-libp2p/src/presence.ts:183-188 | the loop lists each connection of a slice once, and the slice rebuilds from the list |
| Presence.GossipPresence.ReceiveMsg | packages/adapter-libp2p/src/presence.ts:92-111 | a delta newer than what was followed, or of a node not followed, changes the sender's slice by its change, a snapshot no older makes it the last connection listed under each id, both becoming what is followed; a stale one and an echo change nothing, and a leave forgets the sender |
| Presence.GossipPresence.SendSnapshot | packages/adapter-libp2p/src/presence.ts:183-188 | a snapshot rebuilds to the own slice at its number, and an empty slice sends none |
| Presence.GossipPresence.Live | packages/adapter-libp2p/src/presence.ts:190-198 | lists exactly the connections of the node itself and of nodes last heard from no longer ago than the limit |
| Presence.PresenceReconciles | packages/adapter-libp2p/src/presence.ts:92-111 | in every run under loss, duplication and reordering a peer follows no further than its owner, and while it missed nothing since a snapshot holds the owner's slice as it was where it has followed to |
| Presence.SnapshotHeals | packages/adapter-libp2p/src/presence.ts:102-107 | a snapshot taken leaves a peer the owner's slice at that number, whatever it missed |
| Presence.RunForward | packages/adapter-libp2p/src/presence.ts:101-110 | what a peer has followed never goes back |
| MemoryStore.MemoryCollections.Apply | packages/collections-memory/src/index.ts:28-64 | a batch applies whole and is told once, or fails with every row as it was and nothing told |
| MemoryStore.MemoryCollections.ConditionalApply | packages/collections-memory/src/index.ts:69-76 | false exactly where a condition no longer holds, and then nothing changes |
| MemoryStore.MemoryCollections.Fail | packages/collections-memory/src/index.ts:57-60 | the loop undoes the log from its end |
| MemoryStore.BatchIff | packages/collections-memory/src/index.ts:28-64 | a batch succeeds if and only if no insert meets a row there is and no update one there is not, as the operations before it leave them, and then leaves each key as its last operation says; else the first such operation names the conflict or the missing row |
| MemoryStore.BatchTells | packages/collections-memory/src/index.ts:37-56 | a batch that succeeds tells one change for each operation but deletions of what is not there, in order, under its origin |
| MemoryStore.DoPlaces | packages/collections-memory/src/index.ts:37-56 | an insert is listed last, an update in its row's place, and a deletion closes the gap |
| MemoryStore.UnwindRestores | packages/collections-memory/src/index.ts:57-60 | unwinding gives each table its rows back, those the batch deleted last, the first deleted last of all |
| MemoryStore.FailedOrderIff | packages/collections-memory/src/index.ts:57-60 | a batch that throws at one operation leaves a table in its order if and only if the rows it asked to delete before it, those there at first, were the table's last ones from the end back |
| MemoryStore.FailureReordersExample | packages/collections-memory/src/index.ts:57-60 | a failed batch that deleted the first of two rows leaves them the other way round |
| MemoryStore.ChangesFollow | packages/collections-memory/src/index.ts:37-56 | a follower that holds the rows before finds each change's prior row in place and ends with the rows after, insert, update and delete chains on one id included |
| MemoryStore.BatchClock | packages/collections-memory/src/index.ts:33-46 | untouched rows keep their entry; touched ones are updated at the batch's clock and keep their creation unless created in it |
| Lattices.FoldBelow | packages/collections-crdt-pglite/src/index.ts:165-170 | a log's fold is the least document above every update in it |
| OpLog.FeedsConverge | packages/collections-crdt-pglite/src/index.ts:230-253 | the same updates in any order, any number of times, leave a document the same |
| OpLog.CrdtCollections.FoldScratch | packages/collections-crdt-pglite/src/index.ts:165-170 | the loop folds a document's rows in order into a fresh copy |
| OpLog.CrdtCollections.FoldFromCentral | packages/collections-crdt-pglite/src/index.ts:176-181 | the copy in memory ends as itself joined with the central log |
| OpLog.CrdtCollections.Apply | packages/collections-crdt-pglite/src/index.ts:316-339 | a write to a missing document or one validation refuses appends nothing; any other adds exactly its update to its document and nothing to others |
| OpLog.CrdtCollections.Create | packages/collections-crdt-pglite/src/index.ts:298-315 | a document and its seed land together, or a conflict changes nothing |
| OpLog.CrdtCollections.Compact | packages/collections-crdt-pglite/src/index.ts:191-207 | uninterrupted, it leaves every document's fold as it was, one baseline row of its own, and fewer than two rows alone |
| OpLog.CrdtCollections.Follow | packages/collections-crdt-pglite/src/index.ts:230-253 | merges every whole row, passes over partial ones and fans out all but baselines, in order |
| OpLog.CrdtCollections.ScheduleCompact | packages/collections-crdt-pglite/src/index.ts:208-229 | starts a compaction at the count, unless one of the document is still running, and begins again from none |
| Compaction.CommitFolds | packages/collections-crdt-pglite/src/index.ts:200-205 | a compaction's commit leaves the log folding to its baseline joined with the rows that stay, and to nothing that was not appended |
| Compaction.ReadPastIff | packages/collections-crdt-pglite/src/index.ts:191-207 | whatever happened between a compaction's read and its commit, it loses nothing if and only if every append it read past, that committed in time to be deleted, is in its baseline or in the rows that stay |
| Compaction.NothingLostIff | packages/collections-crdt-pglite/src/index.ts:183-207 | over every interleaving of appends and several nodes' compactions, the log folds to all appended at every state if and only if every compaction that committed spared what it read past |
| Compaction.CompactionKeepsMeaning | packages/collections-crdt-pglite/src/index.ts:183-207 | where none read past an append still to commit, the log left folds to the join of all appended in every state, and a node that missed trimmed rows reaches it from what is left |
| Compaction.ReadPastExample | packages/collections-crdt-pglite/src/index.ts:191-207 | one append read past and then committed before the deletion: nothing is lost if and only if its update was in the document anyway |

## Left out

Side conditions the models state:

- Numbers are reals: no NaN, no infinities, no signed zero and no rounding; limits and offsets are not negative.
- Texts are sequences of code points, so well-formed; `TextOrder.CompareTotal` alone speaks of all unit sequences. GLOB and
  LIKE are modelled on NUL-free text, and case folding is a parameter that agrees with ASCII folding on ASCII.
- Rows carry declared fields only, as validation leaves them, and no field is a property inherited from a prototype.
- A stored JSON text is kept as the value it stands for; its spelling, and how SQLite would order two of them, is not modelled.
- Where the sort comparison is no order, what a JavaScript engine makes of it is its own; the model sorts by insertion.
- Order between rows that tie under an ORDER BY is whatever the engine makes it; a source scans its tables in one order.
- Row ids are opaque texts and not null: how ids of different SQL types or blobs print alike is not modelled, nor base64.
- A key kept in two SQL types, `PRAGMA`s, byte caps on results and RPC sizes are represented by a statement that is refused.
- A read-only statement is modelled as refused if it takes any step; reads themselves are steps of no statement.

What is not in the models:

- SyncedSql.SyncedSql.Query: statements are the steps they amount to, triggers' and foreign keys' own among them, not SQL text; result rows, `get` and rowids reassigned by VACUUM are left out.
- EndToEnd.SubscriberSeesSource: one source of the node's; that others' steps change nothing of it is `RemoteRows.RemoteNode.Step` and `Answer`. Subscribers are those whose filter pins it; batches that hide something are not among the steps.
- RemoteSnapshot.Read: ids are compared as texts; a numeric id in an untyped key column, which the source's lookup by text does not find, is not told apart.
- OpLog.CrdtCollections.Apply: the source awaits between the existence check, the fold it validates on and the insert; here they are one step.
- Compaction.CompactionKeepsMeaning: its condition speaks of appends still to commit at the read, which the code does not check; `Compaction.NothingLostIff` is about all runs. Deleting a document while it is compacted is left out.
- Presence.PresenceReconciles: runs have no leave and no clearing of a peer, after which late messages are taken again until the liveness limit.
- Presence.GossipPresence.JoinRoom: rooms change on a copy of the descriptor; the source changes the descriptor object in place, which a caller that kept it sees.
- MemoryStore.MemoryCollections.Apply: listeners are one record of calls; a listener that throws, or writes back, is left out.
- OpLog.CrdtCollections.ScheduleCompact: the debounce timer is left out, only the count starts a compaction; updates that do not decode are left out.
- RemoteRows.RemoteNode.Answer: saving the clock and telling the listeners are one step; a crash between them is left out, as are failed calls to a source.
- Drift.Database.Reconcile: indexes and the CREATE TABLE text are left out; a table's columns are what its rows hold.
- RemoteSnapshot.Snapshot: where the rows needed do not fit one read the answer is the evaluator's on the rows read, and nothing is claimed of it.
- The SQLite store's `apply` and `conditionalApply`: one transaction per batch, with the row codec's results and the in-memory store's shape.
- The other adapters' copies of presence, the PGlite rows store, RabbitMQ, Redis, ZeroMQ, transports, React, tooling and examples: I/O, wiring or weaker copies of what is here.
- `contract.ts` merging, `removeAtPath`, `backoff.ts`, frame codecs: they would add easy members only.
