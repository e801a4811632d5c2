# Persistence protocols of the ODK Tables sync server

This project models how the server keeps tables, their rows and their attached files in a
datastore in which only single puts and deletes are atomic, and proves what holds when the
server stops between any two of them.

A protocol is written as the list of single writes it issues.  A crash keeps a prefix of the
list (`Journal.dfy`); a run is a sequence of operations of which each may be cut off.  The classes carry out
the same protocols step by step, and their contracts tie what they wrote (a ghost journal)
to these lists, so the results on runs speak about the methods.

* **Row log** (`RowLog*.dfy`, `RowStore.dfy`, `RowEntities.dfy`, `RowAttempts.dfy`,
  `BulkRows.dfy`, `DataManager.dfy`, `RowContents.dfy`).  A write marks the table entry as pending, writes log
  rows, then data rows, and commits in one put of the entry.  Every access first undoes an
  unfinished change set.  The stored state stands for an atomic table; runs refine it, recovery is re-entrant, and
  the sync queries converge.
* **Blob store** (`Blob*.dfy`, `DeleteHelper.dfy`, `BinaryContentManipulator.dfy`,
  `InstanceFiles.dfy`).  A file is cut into numbered parts; its record has a null hash while
  the parts are being replaced.
* **Table life cycle** (`TableState.dfy`, `TableDeletion.dfy`, `TableRefusals.dfy`,
  `TableCreation.dfy`, `TableRuns.dfy`, `TableOrder.dfy`, `TableCases.dfy`, `AclPaging.dfy`,
  `TableManager.dfy`).  A recursive, restartable clean-up over pending, live and stale schemas,
  and the creation that starts with it.  Opening a relation fails for a refused name, for
  refused fields, or if it is there without one of the fields; the operation then ends where it
  is.  The order in which queries return rows is left open (`Sound`); `SoundQueries` gives
  queries of the kind that is assumed.
* **Small parts they rest on**: sequence values (`Sequencer.dfy`, `SequencerBase.dfy`,
  `Strings.dfy`), the comparison of values (`DeepComparator.dfy`) and names and fields of
  relations (`BackingNames.dfy`).

## Where the code does not do what it is for

Each of these has a lemma or a contract with the exact condition, and most have a lemma at a concrete input.

* An insert takes the previous ETag from the request.  If a client sends one, a crash between
  the log row and the data row leaves a state that recovery cannot undo
  (`UpsertRecoverableIff`, `RecoverableAtIff`, `RecoverableIffInsertsSendNoETag`,
  `InsertWithETagLocksTable`).  Once it is committed, all but the links between previous ETags
  holds as before (`RunsAreAtomic`, `RunKeepsHistoryIff`).
* Log rows are never given the device and the office of a row, so a recovery sets both to
  null (`RecoveryIsExactIff`, `DeviceIsForgotten`).
* A batch that changes one row twice is atomic and is synchronized like any other, but the
  chain of previous ETags then skips a log row (`RunKeepsHistoryIff`, `BatchKeepsHistoryIff`,
  `TwoUpdatesSkipOne`).
* An empty batch commits a new data tag and then divides by the number of rows
  (`EmptyBatchCommits`); no other batch does (`BatchCommitsIff`).
* A row of a batch that is turned down at its look-up gets two outcomes, and no other row does
  (`OutcomeCount`).
* The access control list is deleted page by page, but the next page is looked up by a row
  that has just been deleted (`OnlyOwnerIff`, `AclsGoneIff`, `OneReaderTooMany`).
* The check for a table name that is taken asks for a name without its prefix, so two table
  ids that convert to the same name share a data relation (`CollisionCheckIsBlind`,
  `TablesShareRelationIff`, `TwoTablesOneRelation`), and the deletion of one takes it from the
  other (`DeletingSharedRelation`).
* A creation stores the table before it opens the relations, and every later creation or
  deletion opens them again.  An id whose data relations have a refused name is stuck after the
  first creation (`FirstAttemptSticks`, `StuckForEver`, `RefusedNamesNeverLive`,
  `TwoHyphensStick`), and the exact conditions are `CreationFinishesIff`, `DeletionFinishesIff`
  and, on the id alone, `CreatableIff`.
* Two more names are made from the id by upper case alone, so a table whose id has a hyphen or
  begins with a digit can be created but not deleted, and trying to loses its data
  (`DeletableIff`, `HyphenTableIsLost`).  One of these names may also be that of the data of
  another table (`ManifestTaken`).
* The columns of a schema are read again before they are deleted.  A creation that stops between
  a column and another one that it needs leaves a table that is stuck
  (`HalfWrittenColumnsStick`).
* The datastore goes on after a failed deletion in one call, so the order of the list protects
  the references only against a stop, not against a failure (`FailuresLeaveReferencesIff`,
  `GivenUpDeletionIff`, `ReferenceWithoutBlob`).
* A deletion of attachments that stopped inside a complete file is not completed by a second
  one, which does not find what has lost its record (`DeletingAgainCompletesIff`,
  `PartIsStranded`).
* An upload of an instance file that stopped half-way is never repaired (`PresentIff`,
  `NeverRepaired`, `StoppedUploadIsStuck`).
* A table with two columns of one key that differ cannot be created a second time
  (`CreatedAgain`), and offices with a comma in them cannot be told apart afterwards
  (`CreatedEntry`, `JoinedSplitsIff`).
* Numbers that compare as equal are not an equivalence (`EqualityCarriesIff`,
  `EqualityCarriesInside`, `EqualityIsNotTransitive`), and the comparison is one-sided if only
  one value lacks a column name (`ComparisonFlipsIff`, `OneUnnamedFails`).

## Model

| member | source | states |
|---|---|---|
| `RowLogRuns.RunsAreAtomic` | src/main/java/org/opendatakit/odktables/DataManager.java:157-222 | After any run of reads, single writes, batches and deletes, each stopped after any of its writes, the stored state stands for the table that the committed change sets alone make, in order, on an atomic table; the invariants hold in between. A committed insert may carry a row ETag; a stopped one may not have logged it |
| `RowLogRuns.AttemptIsAtomic` | src/main/java/org/opendatakit/odktables/DataManager.java:1033-1144 | One holder of the lock, stopped anywhere during recovery or writing, leaves the table as it was, or with its whole change set if it got to the last write of the entry |
| `RowLogRuns.ValidWhereverCutIff` | src/main/java/org/opendatakit/odktables/DataManager.java:1084-1144 | An attempt to which the results on runs apply is one wherever it is cut off just when no insert of its change set was sent with a row ETag |
| `RowLogWrites.MidKeeps` | src/main/java/org/opendatakit/odktables/DataManager.java:1126-1139 | Any part of the log rows of a change set with any of the data rows that follow them leaves the committed table unchanged and makes exactly those log rows pending, if none of these log rows is an insert sent with a row ETag |
| `RowLogWrites.CommitKeeps` | src/main/java/org/opendatakit/odktables/DataManager.java:1141-1144 | Moving the pending tag to the data tag in one write makes the whole change set part of the table, and keeps all invariants, whatever ETags its inserts carry |
| `RowLogRecovery.RevertReaches` | src/main/java/org/opendatakit/odktables/DataManager.java:171-221 | In whatever order the pending log rows are met, every look-up of the recovery succeeds and it ends in the state that is described without its steps |
| `RowLogRecovery.RevertPrefixKeeps` | src/main/java/org/opendatakit/odktables/DataManager.java:176-221 | Recovery stopped after any of its puts and deletes keeps the invariants, the table, and the state that a full recovery reaches |
| `RowLogRecovery.RecoveryIsReentrant` | src/main/java/org/opendatakit/odktables/DataManager.java:161-221 | Recovery interrupted any number of times, with the log rows met in any order each time, and then rerun, reaches the state that one recovery would have reached |
| `RowLogRecovery.RevertAgainIsEmpty` | src/main/java/org/opendatakit/odktables/DataManager.java:161-175 | A further recovery, with the pending tag still set, issues no write |
| `RowAttempts.AfterRecoveryIsRecovered` | src/main/java/org/opendatakit/odktables/DataManager.java:157-222 | What every access sees after its recovery is the one state that all recoveries reach |
| `RowLogRecovery.RecoveredShowsTable` | src/main/java/org/opendatakit/odktables/DataManager.java:200-219 | After recovery the stored rows are those of the committed table, each with its ETag and with the contents of the log row that the ETag names |
| `RowLogLimits.RecoverableIffInsertsSendNoETag` | src/main/java/org/opendatakit/odktables/DataManager.java:1100-1101 | A change set can be undone from every crash point if and only if no insert carries a row ETag; the code takes the ETag of an insert from the request unchecked |
| `RowLogLimits.RecoverableAtIff` | src/main/java/org/opendatakit/odktables/DataManager.java:1100-1101 | From a given crash point every recovery succeeds and restores the table if and only if none of the log rows stored by then is an insert that was sent with a row ETag |
| `RowLogLimits.ETagOnInsertBlocksRecovery` | src/main/java/org/opendatakit/odktables/DataManager.java:194-199 | With the log row of an insert that was sent with a row ETag stored, some order of the pending log rows makes the recovery fail at a look-up, or leaves the row that was inserted |
| `RowLogLimits.InsertWithETagLocksTable` | src/main/java/org/opendatakit/odktables/DataManager.java:194-199 | A concrete insert of row 5 with the ETag 9, cut off after its log row: in whatever order the log rows are met, recovery fails and writes nothing, so no later access gets past it |
| `RowLogLimits.RecoveryIsExactIff` | src/main/java/org/opendatakit/odktables/relation/EntityCreator.java:298-334 | From a crash point recovery restores the stored state itself, and not only the table, just when no row whose log row was written held a device, an office, or after a delete an older tag; log rows never carry device and office |
| `RowLogLimits.DeviceIsForgotten` | src/main/java/org/opendatakit/odktables/relation/EntityCreator.java:309-333 | A concrete update of a row that records a device, cut off after its log row, after whose recovery the row has no device |
| `RowLogChains.ChainIsFull` | src/main/java/org/opendatakit/odktables/DataManager.java:181-199 | Where the previous ETags are linked and leave no gaps, the chain from any log row also meets every older log row of its row |
| `RowLogChains.ChainDescends` | src/main/java/org/opendatakit/odktables/DataManager.java:181-199 | Where the previous ETags are linked, following them from any log row goes down in sequence value, stays on the row and ends at an entry without a previous ETag |
| `RowLogChains.HistoryOfRow` | src/main/java/org/opendatakit/odktables/DataManager.java:1084-1116 | In a committed table with linked previous ETags and no gaps the chain of a row ETag is the whole history of that row |
| `RowLogChains.RunKeepsHistoryIff` | src/main/java/org/opendatakit/odktables/DataManager.java:1084-1121 | After any run the previous ETags are linked just when they were before and no committed insert was sent with a row ETag, and besides without gaps just when they were and no committed change set logged a row twice; clients send no ETag before it is issued |
| `RowLogChains.TwoUpdatesSkipOne` | src/main/java/org/opendatakit/odktables/DataManager.java:1100-1109 | A concrete change set that updates one row twice and can be undone from everywhere: after its commit the chain of the row does not meet the first of its two log rows |
| `RowLogSync.DiffKeepsNewest` | src/main/java/org/opendatakit/odktables/DataManager.java:779-799 | Of the log rows that a query returned, the difference holds for each data row the one with the largest sequence value, and no row is missing |
| `RowLogSync.SyncConverges` | src/main/java/org/opendatakit/odktables/DataManager.java:383-424 | The answer since a commit, applied to the rows of that commit, gives the current rows, also when the commit has no log row and the query starts from the beginning |
| `RowLogSync.SyncConvergesOverRuns` | src/main/java/org/opendatakit/odktables/DataManager.java:716-751 | The same from the commit a client last saw to the table after any run |
| `RowLogPaging.PagedSyncConverges` | src/main/java/org/opendatakit/odktables/DataManager.java:407-449 | A client that pages until there is no more, applying the difference of each page, ends with the rows current at its last page, even if others write and crash between pages |
| `RowLogPaging.PollingMissesNothing` | src/main/java/org/opendatakit/odktables/DataManager.java:1656-1715 | Polling with the sequence value returned before gives exactly the change sets committed since then that wrote a log row; adding an older data tag changes nothing |
| `RowEntities.RestoreBySetRowFields` | src/main/java/org/opendatakit/odktables/relation/EntityCreator.java:207-296 | Setting the fields of a row from a log row, column by column, leaves the row with exactly the contents of the log row |
| `RowEntities.SetValuesFailsOnColumn` | src/main/java/org/opendatakit/odktables/relation/EntityCreator.java:237-264 | Setting values fails just when some sent column is neither one of the table nor folded into one, and the error names the first of these |
| `RowStore.Store.QueryLogAscending` | src/main/java/org/opendatakit/odktables/DataManager.java:734-751 | The log rows of a query by ascending sequence value, each once |
| `DataManager.Manager.RevertPendingChanges` | src/main/java/org/opendatakit/odktables/DataManager.java:157-222 | Carries out the writes of the recovery for some order of the pending log rows, and fails just when one of its look-ups does |
| `DataManager.Manager.InsertOrUpdateRow` | src/main/java/org/opendatakit/odktables/DataManager.java:1310-1395 | Answers with the error that stops the request, or with the stored row; what it wrote is one valid attempt of one log row, whose previous ETag is the one of the request, and of the data row that `UpsertHolds` describes; it may be cut off anywhere unless an insert carries an ETag |
| `RowContents.UpsertHolds` | src/main/java/org/opendatakit/odktables/relation/EntityCreator.java:207-264 | A committed insert or update leaves each column with the last value that was sent for it, null or not, and with what was stored if none was sent; user and metadata are those of the request, so is the scope if it sends one and else the stored one stays; the creator stays, and all other rows are as they were |
| `RowContents.UpsertAnswers` | src/main/java/org/opendatakit/odktables/DataManager.java:1310-1357 | Which error stops an insert or update; a stale ETag is answered with the stored row just when the request matches it everywhere else, and then nothing is written; a request that may go through commits just when all its columns are known |
| `RowEntities.SetValuesHolds` | src/main/java/org/opendatakit/odktables/relation/EntityCreator.java:234-264 | Setting values leaves each column of the table with the last value sent for it, and touches nothing else |
| `DataManager.Manager.UpsertRecoverableIff` | src/main/java/org/opendatakit/odktables/DataManager.java:1370-1395 | The change that a request makes can be undone from every crash point just when the request does not insert a row with an ETag |
| `DataManager.Manager.DeleteRow` | src/main/java/org/opendatakit/odktables/DataManager.java:1500-1578 | Answers with the error that stops the delete, or with the new data tag; what it wrote is one attempt, valid wherever it is cut off, that marks the row as deleted under a new ETag |
| `RowContents.DeleteHolds` | src/main/java/org/opendatakit/odktables/DataManager.java:1541-1578 | A committed delete marks the row as deleted under a new ETag and keeps its contents, its creator, its own tag, its device and its office; all other rows are as they were |
| `RowContents.DeleteAnswers` | src/main/java/org/opendatakit/odktables/DataManager.java:1467-1545 | Which error stops a delete: missing rights, no schema, no row, no ETag or another one than the stored |
| `DataManager.Manager.GetRow` | src/main/java/org/opendatakit/odktables/DataManager.java:801-885 | Recovers first; a row is found just when the committed table has it, and it shows its log row |
| `DataManager.Manager.GetSequenceValueForDataETag` | src/main/java/org/opendatakit/odktables/DataManager.java:586-629 | The sequence value of the last log row of a change set, none if it has no log row |
| `DataManager.Manager.ComputeDiff` | src/main/java/org/opendatakit/odktables/DataManager.java:779-799 | The map filled in one pass over the log rows is the difference of the answer |
| `DataManager.Manager.GetRowsSince` | src/main/java/org/opendatakit/odktables/DataManager.java:348-450 | Recovers first; the rows are the readable part of the difference of the page that follows the cursor, and the cursor and the flag for more are those of the page; what a page holds is in `PageIs` and `GoneCursor` |
| `RowLogPaging.PageIs` | src/main/java/org/opendatakit/persistence/engine/pgres/QueryImpl.java:336-361 | After the first n rows a page holds the next ones, as many as the limit allows, all of them without a limit; there are more just when rows are left, and the resume point is the last row of the page |
| `RowLogPaging.GoneCursor` | src/main/java/org/opendatakit/persistence/engine/pgres/QueryImpl.java:342-361 | After a row that the query does not find there are no rows and no more, and the resume point stays |
| `RowLogPaging.PagingEnds` | src/main/java/org/opendatakit/odktables/DataManager.java:374-401 | Whatever was written since a client had everything, paging without writes in between ends after the number of pages that the new rows take, at least one, and then the client has the current rows |
| `RowLogPaging.QuietFinishesIff` | src/main/java/org/opendatakit/odktables/DataManager.java:407-409 | Any client that pages without writes in between is done just when its pages hold as many rows as were left |
| `RowLogPaging.AnswersAre` | src/main/java/org/opendatakit/odktables/DataManager.java:374-400 | A query for the rows since a change set finds, oldest first and once each, the log rows that come after all of its log rows |
| `DataManager.Manager.ReadableDiff` | src/main/java/org/opendatakit/odktables/DataManager.java:413-426 | The difference of the log rows that may be read is the part of the whole difference that may be read, so it holds the newest log row of each of its rows |
| `DataManager.Manager.GetChangeSetsSince` | src/main/java/org/opendatakit/odktables/DataManager.java:1640-1715 | Recovers first; the tags are exactly those of the log rows from the later of the two starting points on, with the sequence value to poll with next |
| `DataManager.PolledAre` | src/main/java/org/opendatakit/odktables/DataManager.java:1676-1698 | A poll finds the change sets with a log row that comes after the given sequence value and after all log rows of the given change set, whichever of the two is later |
| `DataManager.Manager.PrepareRowForInsertUpdateOrDelete` | src/main/java/org/opendatakit/odktables/DataManager.java:887-979 | Sets the outcome that turns the row down, or none if it may be changed: a stored row only if the sent ETag is the stored one, and the user may change it |
| `DataManager.Manager.ProcessRows` | src/main/java/org/opendatakit/odktables/DataManager.java:1040-1124 | The lists of inserts, updates, log rows and wrappers after judging every row of the batch in order; it fails at the first row that is to be changed and sends an unknown column, with the rows before it judged |
| `DataManager.Manager.InsertOrUpdateRows` | src/main/java/org/opendatakit/odktables/DataManager.java:981-1175 | The outcomes of a batch and what it wrote; a committed batch is one valid attempt, which may be cut off anywhere unless an insert carries an ETag; a batch that inserts one row twice fails at the second insert, and one with an unknown column when it has only been marked. `BatchHolds` describes the rows and `BatchTells` the outcomes |
| `RowContents.BatchHolds` | src/main/java/org/opendatakit/odktables/DataManager.java:1087-1139 | After a committed batch a row is as the last request that alters it asks: deleted just when that one is a delete, with contents, creator and own tag kept, and else with what was sent over the row before the batch, and with the device and the office of the batch; a row that no request alters is as it was |
| `RowContents.BatchTells` | src/main/java/org/opendatakit/odktables/DataManager.java:1146-1154 | What the client is told about each request, in order: turned down at its look-up, twice; denied; the row on the server, as a success just when only the ETag differs, and else as a conflict; or the row as it was changed |
| `RowContents.BatchFails` | src/main/java/org/opendatakit/odktables/DataManager.java:1102-1108 | A batch that does not commit names the first unknown column of the first request that alters its row and sends one, or, without such a request, a row that is inserted twice |
| `DataManager.Manager.BatchCommitsIff` | src/main/java/org/opendatakit/odktables/DataManager.java:1040-1144 | A batch commits just when no row that it changes sends an unknown column and no two of its rows insert the same one; it is answered with its outcomes just then, unless it is empty |
| `DataManager.Manager.EmptyBatchCommits` | src/main/java/org/opendatakit/odktables/DataManager.java:1126-1175 | An empty batch gives the table a new data tag without a log row, and then fails with a division by zero |
| `DataManager.Manager.JudgedAllSound` | src/main/java/org/opendatakit/odktables/DataManager.java:944-964 | Optimistic concurrency: a stored row is changed only if the ETag of its request is the stored one, and an insert logs the ETag of its request |
| `DataManager.Manager.BatchAttemptValid` | src/main/java/org/opendatakit/odktables/DataManager.java:1084-1116 | The attempt of a committed batch is valid, even if it names a row twice or inserts one with an ETag; without such an insert it is valid wherever it is cut off, so the results on runs apply to it |
| `DataManager.Manager.BatchKeepsHistoryIff` | src/main/java/org/opendatakit/odktables/DataManager.java:1084-1116 | After a committed batch the previous ETags are linked and without gaps just when they were before, it changes no row twice and inserts none with an ETag |
| `BulkRows.Conservation` | src/main/java/org/opendatakit/odktables/DataManager.java:1113-1121 | A batch writes as many log rows as updates and inserts together, one for each row that no outcome turned down |
| `BulkRows.OutcomeCount` | src/main/java/org/opendatakit/odktables/DataManager.java:1045-1068 | A row turned down at its look-up is in the list twice, so it has two outcomes, and every other row one |
| `BulkRows.BatchValid` | src/main/java/org/opendatakit/odktables/DataManager.java:1126-1139 | The log rows and data rows of a batch fit the committed table; of a row that is named twice the last change is the one that is written and the newest in the log; its log rows are sent without an ETag just when its inserts are |
| `BulkRows.CollectOutcomes` | src/main/java/org/opendatakit/odktables/DataManager.java:1146-1154 | Each wrapper without an outcome gets success with the stored row, and all outcomes are listed in order |
| `BulkRows.BulkRowObjWrapper.SetOutcome` | src/main/java/org/opendatakit/odktables/BulkRowObjWrapper.java:49-63 | An outcome other than success restores the row id and the scope that the request did not have |
| `Sequencer.CountersIncrease` | src/main/java/org/opendatakit/odktables/Sequencer.java:47-75 | For any two counters of one lock holding up to the largest Java int, the values compare as strings like the counters |
| `Sequencer.BasesIncrease` | src/main/java/org/opendatakit/odktables/Sequencer.java:47-75 | For bases of the same width the values compare like the bases, whatever the counters are |
| `Sequencer.ValuesFollowIssue` | src/main/java/org/opendatakit/odktables/Sequencer.java:25-44 | Values compare as strings in the order in which they were issued, within a lock holding and across holdings |
| `SequencerBase.ValuesAlwaysIncrease` | src/main/java/org/opendatakit/persistence/table/ServerPreferencesPropertiesTable.java:147-170 | However the clock is set between the holdings of the lock, none fails for want of a base, and every value of a later one compares as greater than every value of an earlier one, up to the year 9999 and the largest Java int |
| `SequencerBase.BasesAlwaysIncrease` | src/main/java/org/opendatakit/persistence/table/ServerPreferencesPropertiesTable.java:147-170 | The bases that holdings get increase as strings, whatever the clock and the parser of dates do |
| `SequencerBase.NextBaseIs` | src/main/java/org/opendatakit/persistence/table/ServerPreferencesPropertiesTable.java:147-170 | The next base is the time of the clock, or one millisecond after the saved base if the clock is not past it, and the second comparison never fails |
| `SequencerBase.TimesIncrease` | src/main/java/org/opendatakit/utils/WebUtils.java:387-401 | Up to the year 9999 the strings of two times have one width and compare like the times |
| `SequencerBase.DateIsDay` | src/main/java/org/opendatakit/utils/WebUtils.java:387-401 | The year, month and day of a time are those of the calendar: as many days come before them as have passed since 1970 |
| `SequencerBase.Preferences.IncOdkTablesSequencerBase` | src/main/java/org/opendatakit/persistence/table/ServerPreferencesPropertiesTable.java:147-170 | Takes the next base and saves it, greater than the saved one; an error leaves what is saved |
| `Sequencer.NextIncreasesIff` | src/main/java/org/opendatakit/odktables/Sequencer.java:72-75 | The next value is greater just when the counter does not overflow |
| `Sequencer.Sequencer.GetNextSequenceValue` | src/main/java/org/opendatakit/odktables/Sequencer.java:72-75 | Counts on and returns the value of the new counter, greater than the last one unless the counter overflowed |
| `Sequencer.PaddedIsFixed` | src/main/java/org/opendatakit/odktables/Sequencer.java:72-75 | Padding on the left with zeros gives the fixed number of digits of the counter |
| `BlobUploads.ConcatChunks` | src/main/java/org/opendatakit/datamodel/BinaryContentManipulator.java:101-117 | The parts of an upload join to its bytes, for every length and every positive part limit |
| `BlobUploads.ChunkSizes` | src/main/java/org/opendatakit/datamodel/BinaryContentManipulator.java:105-109 | No part is empty or over the limit, and all but the last are full |
| `BlobUploads.UploadStopsSafely` | src/main/java/org/opendatakit/datamodel/BinaryContentManipulator.java:489-526 | An upload or overwrite stopped after any write: the references of every content are numbered 1 to k and resolve, a content with a hash carries bytes of that digest and length, other contents are as they were, the hash is set only at the end, and then the bytes are those sent |
| `BlobRuns.RunsKeepAll` | src/main/java/org/opendatakit/datamodel/BinaryContentManipulator.java:428-569 | After any run of uploads, placeholders and renames, each stopped anywhere, all contents are sound and the ordinals of every parent are 1 to n with distinct paths |
| `BlobRuns.SaveIsRead` | src/main/java/org/opendatakit/datamodel/BinaryContentManipulator.java:477-565 | The answer of a save by what is stored at the path, and what is stored afterwards: exactly the bytes sent, unless the same digest was there or overwriting was not allowed |
| `BlobRuns.SaveRecords` | src/main/java/org/opendatakit/datamodel/BinaryContentManipulator.java:489-565 | A save that writes leaves a record with the content type, the length and the digest of what was sent, under its path; an old record keeps its ordinal, and a new one is the last |
| `BlobRuns.SaveFailsIff` | src/main/java/org/opendatakit/datamodel/BinaryContentManipulator.java:450-568 | A save fails just when only one of bytes and content type is given, or when what it would write is too long; nothing is written then |
| `BlobRuns.PlaceholderIs` | src/main/java/org/opendatakit/datamodel/BinaryContentManipulator.java:450-472 | Without bytes and content type, a save adds a record without a hash in the last place, and does nothing if its path has one |
| `BlobRuns.RenameMoves` | src/main/java/org/opendatakit/datamodel/BinaryContentManipulator.java:371-413 | A rename is refused just when both paths are taken and does nothing if the old one is not; otherwise the record with its bytes is at once under the new path and nothing under the old one |
| `BlobRuns.RenameFailsIff` | src/main/java/org/opendatakit/datamodel/BinaryContentManipulator.java:371-413 | A rename fails just when it would move a record to a path that is too long; nothing is written then |
| `BlobRuns.RetrySucceeds` | src/main/java/org/opendatakit/datamodel/BinaryContentManipulator.java:477-565 | After any number of stopped attempts to save bytes at one path, among operations on other paths, a save of these bytes succeeds and reading gives exactly these bytes; also over an older version with another digest, if overwriting is allowed |
| `BlobAttachments.PlanStops` | src/main/java/org/opendatakit/datamodel/BinaryContentManipulator.java:371-413 | One operation stopped after any of its writes: the records it leaves and the identifiers it has used |
| `BlobAttachments.JoinedSet` | src/main/java/org/opendatakit/datamodel/BinaryContentManipulator.java:491-509 | A record with the next ordinal and a path of its own, or in place of its former version, keeps the ordinals 1 to n and the paths distinct |
| `BinaryContentManipulator.BlobManipulator.Write` | src/main/java/org/opendatakit/datamodel/BinaryContentManipulator.java:96-123 | The loop writes each part as a blob and then a reference with the next part number, and nothing else |
| `BinaryContentManipulator.BlobManipulator.Read` | src/main/java/org/opendatakit/datamodel/BinaryContentManipulator.java:125-158 | Succeeds just when the part numbers are 1 to k and every blob is there, with the parts in order; otherwise which of the two errors it is |
| `BinaryContentManipulator.BlobManipulator.RecursivelyAddEntityKeysForDeletion` | src/main/java/org/opendatakit/datamodel/BinaryContentManipulator.java:194-213 | Adds for each part the key of the blob before the key of its reference |
| `BinaryContentManipulator.PartKeysDrop` | src/main/java/org/opendatakit/datamodel/BinaryContentManipulator.java:194-213 | Deleting these keys in reverse order drops the last part first, and of each part the reference before the blob |
| `BinaryContentManipulator.Manipulator.UpdateAttachments` | src/main/java/org/opendatakit/datamodel/BinaryContentManipulator.java:571-610 | Reads the records again if need be; it is an error just when the ordinals are not 1 to n; in a sound state the map then agrees with the stored rows |
| `BinaryContentManipulator.Manipulator.FindEntity` | src/main/java/org/opendatakit/datamodel/BinaryContentManipulator.java:435-447 | The search through the map finds the record with the path if there is one |
| `BinaryContentManipulator.Manipulator.SetValueFromByteArray` | src/main/java/org/opendatakit/datamodel/BinaryContentManipulator.java:428-569 | Leaves what the writes planned for the stored state leave and answers accordingly; these are what it wrote if no deletion of old parts fails; the state stays sound, and after a call that is not refused the map agrees with the stored rows; if the deletion of old parts is given up, what is stored then |
| `BinaryContentManipulator.Manipulator.RenameFilePath` | src/main/java/org/opendatakit/datamodel/BinaryContentManipulator.java:371-413 | Renames unless the new path is taken; no write if the paths are equal or the old one is not there; the map then agrees with the stored rows |
| `BinaryContentManipulator.Manipulator.GetBlob` | src/main/java/org/opendatakit/datamodel/BinaryContentManipulator.java:350-359 | The joined bytes of the attachment, which have the recorded digest and length if the hash is set; an error just when there is no such ordinal |
| `BinaryContentManipulator.Manipulator.DeleteAll` | src/main/java/org/opendatakit/datamodel/BinaryContentManipulator.java:627-650 | Deletes the records of the set in descending order, whatever their ordinals are, and leaves an empty map; if the deletion is given up, what is stored then, and the records are read again before the next use |
| `BlobDeletion.DeleteAllStopsSafely` | src/main/java/org/opendatakit/datamodel/BinaryContentManipulator.java:627-690 | The deletion of a set stopped after any write leaves no reference without its blob, no hashed record without its parts, and ordinals 1 to m |
| `BlobDeletion.DeletionLeaves` | src/main/java/org/opendatakit/datamodel/BinaryContentManipulator.java:679-690 | A finished deletion has removed exactly the records of the set and, of those with a hash, the references and the blobs they name |
| `BlobDeletion.NothingRemainsIff` | src/main/java/org/opendatakit/datamodel/BinaryContentManipulator.java:683-689 | No reference of the set remains just when every record without a hash had no parts |
| `BlobDeletion.DeletingAgainCompletesIff` | src/main/java/org/opendatakit/datamodel/BinaryContentManipulator.java:627-690 | After a stop anywhere, deleting again leaves what one whole deletion would have left just when no reference has lost its record and no part its reference |
| `BlobDeletion.PartIsStranded` | src/main/java/org/opendatakit/datamodel/BinaryContentManipulator.java:683-689 | A concrete set of one part: stopped after its record, the deletion leaves the reference and the part, and a second one does not find them |
| `BlobDeletion.FailuresLeaveReferencesIff` | src/main/java/org/opendatakit/persistence/engine/pgres/DatastoreImpl.java:1189-1203 | The datastore goes on after a failed deletion; after that one call every reference has its blob just when each failed deletion of a reference comes with a failed one of its blob |
| `BlobDeletion.ReferenceWithoutBlob` | src/main/java/org/opendatakit/persistence/engine/pgres/DatastoreImpl.java:1189-1203 | A concrete set of one part of which only the deletion of the reference fails: the reference is left and its blob is gone |
| `BlobDeletion.GivenUpDeletionIff` | src/main/java/org/opendatakit/datamodel/DeleteHelper.java:70-115 | What a deletion that was given up half-way leaves: the references that failed in one call and were not reached one by one, and each of them has its blob just when the deletion of the blob failed too |
| `BlobDeletion.FallbackFinishes` | src/main/java/org/opendatakit/datamodel/DeleteHelper.java:70-115 | Deleting one by one after a call that failed for some keys leaves what the call alone should have left |
| `DeleteHelper.Reverse` | src/main/java/org/opendatakit/datamodel/DeleteHelper.java:51-53 | The list of keys in reverse order |
| `DeleteHelper.DeleteEntities` | src/main/java/org/opendatakit/datamodel/DeleteHelper.java:49-116 | Deletes in reverse order in one call; if that fails, one by one without the missing ones, up to the first key that fails again, and what is stored then |
| `InstanceFiles.WriteOnce` | src/main/java/org/opendatakit/odktables/InstanceFileManager.java:211-238 | No run of requests with one file or with many, each stopped anywhere, changes the path, ordinal, hash or bytes of a record that was there before |
| `InstanceFiles.NeverRepaired` | src/main/java/org/opendatakit/odktables/InstanceFileManager.java:214-225 | A record left without a hash stays so: every file sent to its path in any run is answered as incompatible, and nothing is written |
| `InstanceFiles.StoppedUploadIsStuck` | src/main/java/org/opendatakit/odktables/InstanceFileManager.java:214-225 | The first upload of all, of one byte, stopped after its first write: sent once more, the same file is refused and nothing is written |
| `InstanceFiles.PresentIff` | src/main/java/org/opendatakit/odktables/InstanceFileManager.java:214-238 | A file is answered as present just when the state that is left has a record at its path with the stated digest, or, if the path was new, with the digest of its bytes, which can then be read |
| `InstanceFiles.PostStops` | src/main/java/org/opendatakit/odktables/InstanceFileManager.java:367-456 | A request with any number of parts, stopped between or inside its parts, leaves a sound state and changes no record that was there before it |
| `InstanceFiles.InstanceFileManager.PutFile` | src/main/java/org/opendatakit/odktables/InstanceFileManager.java:177-238 | Writes what is planned for its path; answers that the file is present just when the state it leaves has it as expected, and with an error, nothing written, just when its path has no record and the file cannot be stored |
| `InstanceFiles.InstanceFileManager.PostFiles` | src/main/java/org/opendatakit/odktables/InstanceFileManager.java:345-460 | Writes what is planned for its parts, one after the other. It is done just when each part names a file and the state it leaves has a record at its path with the digest of its content; it is refused just when some part that cannot be stored is the first to name a path without a record |
| `InstanceFiles.PostShown` | src/main/java/org/opendatakit/odktables/InstanceFileManager.java:378-452 | What a request answers, by the state it leaves: the error of the first part whose path has no record; else the complaint about the last part that names no file or whose stored digest differs; else nothing |
| `InstanceFiles.PostRefusedIff` | src/main/java/org/opendatakit/odktables/InstanceFileManager.java:449-457 | When a request ends with an error, by the state it starts from: some part is the first to name its path, the path has no record, and the part has no content type or something too long |
| `TableRuns.RunsLeaveNoOrphans` | src/main/java/org/opendatakit/odktables/TableManager.java:376-517 | After any run of creations and deletions, each stopped anywhere or ended by a relation that is refused: every definition is named by the pending, live or stale ETag of the entry, every column has its definition, an entry has an owner, and a schema in use has its definition and both relations |
| `TableRuns.RunThenFinish` | src/main/java/org/opendatakit/odktables/TableManager.java:420-517 | From whatever a run leaves, a full creation finishes just when what is left can be cleared and the data relation and its log can be opened, and then leaves exactly the schema asked for; a full deletion finishes just when every relation of the definition that is left can be opened, and then leaves nothing; if it cannot now, it never can |
| `TableOrder.EveryRunCanFinish` | src/main/java/org/opendatakit/odktables/TableManager.java:351-710 | Where the names made from the id are accepted and the fields of the requested columns and of any part of them are, and no other relation has these names: from whatever any run leaves, a full creation and a full deletion finish |
| `TableRuns.StuckForEver` | src/main/java/org/opendatakit/odktables/TableManager.java:545-562 | Once a definition has a relation that is refused, no deletion finishes after any later run, no creation does unless the schema is still in use, and a table not in use never comes into use |
| `TableRuns.FirstAttemptSticks` | src/main/java/org/opendatakit/odktables/TableManager.java:462-503 | A creation whose data relation or log is refused leaves the owner, the entry, the definition and the columns, and with them a table that is stuck |
| `TableRuns.RefusedNamesNeverLive` | src/main/java/org/opendatakit/ermodel/Relation.java:115-135 | Where the name of the data relation or of its log is refused, no run brings the table into use |
| `TableCases.TwoHyphensStick` | src/main/java/org/opendatakit/odktables/relation/RUtil.java:30-33 | The table a--b, whose name becomes TABLE_A__B: its first creation is refused after its columns are stored, and no later creation or deletion finishes |
| `TableCases.HyphenTableIsLost` | src/main/java/org/opendatakit/odktables/relation/DbTableInstanceManifestETags.java:93-97 | The table a-b is created, but its deletion drops its data and is refused at the relation A-B_MFE; it is out of use and no later deletion or creation finishes |
| `TableCases.HalfWrittenColumnsStick` | src/main/java/org/opendatakit/odktables/relation/DbColumnDefinitions.java:278-300 | A creation stopped between two columns of which the first needs the second leaves a table that is stuck, though the whole request is accepted |
| `TableCases.DeletingSharedRelation` | src/main/java/org/opendatakit/odktables/TableManager.java:545-556 | The deletion of one of two tables with alike ids drops the data relation and the log of the other one, which is still in use |
| `TableCases.ManifestTaken` | src/main/java/org/opendatakit/odktables/relation/DbTableInstanceManifestETags.java:93-97 | The table table_a cannot be deleted while the data relation of the table a_mfe is there, which has the name of its manifests |
| `TableCreation.CreationStops` | src/main/java/org/opendatakit/odktables/TableManager.java:420-517 | A creation stopped after any of its writes, clean-up included, keeps the invariant |
| `TableCreation.CreationDone` | src/main/java/org/opendatakit/odktables/TableManager.java:431-517 | A creation that finishes leaves exactly the definition and the columns asked for, the entry with that schema in use, the new owner and both relations, with nothing else changed |
| `TableCreation.CreationFinishesIff` | src/main/java/org/opendatakit/odktables/TableManager.java:420-503 | From any state a creation finishes just when what was left of the table can be cleared and its two relations can be opened |
| `TableCreation.ColsFromAre` | src/main/java/org/opendatakit/odktables/TableManager.java:491-497 | As many column rows as the request has columns, number i under the i-th identifier |
| `TableCreation.MatchesIff` | src/main/java/org/opendatakit/odktables/TableManager.java:392-415 | A table whose stored columns have distinct keys accepts a request just when it names the same columns |
| `TableCreation.JoinedSplitsIff` | src/main/java/org/opendatakit/odktables/TableManager.java:717-729 | The offices of the entry can be told apart again at the commas just when none of the requested offices has a comma in it |
| `TableCreation.JoinedIsTerminated` | src/main/java/org/opendatakit/odktables/TableManager.java:717-729 | The offices of the entry are the requested ones with a comma after each, without the last comma |
| `TableCreation.OnlyOwnerIff` | src/main/java/org/opendatakit/odktables/TableManager.java:450-465 | The new owner is alone on the access control list just when what was left of it fits one page, because the next page starts after a deleted row |
| `TableDeletion.DeletionStops` | src/main/java/org/opendatakit/odktables/TableManager.java:536-680 | The recursive deletion stopped after any of its writes keeps the invariant, so an entry that is still stored has an owner |
| `TableDeletion.DeletionDone` | src/main/java/org/opendatakit/odktables/TableManager.java:536-680 | A deletion that finishes leaves no entry, definition or column; if there was a definition, its data relation, log, manifests and blob store, the tag of the manifest and the files are gone too, and nothing else |
| `TableDeletion.CleanUpDone` | src/main/java/org/opendatakit/odktables/TableManager.java:526-652 | Without `deleteCurrent`, a deletion that finishes removes what is pending or stale, and that only: a schema in use stays with its relations and files, the entry and its access control list stay, and without a schema in use no definition is left |
| `TableRefusals.DeletionFinishesIff` | src/main/java/org/opendatakit/odktables/TableManager.java:545-590 | From any state a deletion finishes just when the relations that go with the definition that is left, if any, can all be opened: the data relation, its log, the manifests and the blob store |
| `TableDeletion.AclsGoneIff` | src/main/java/org/opendatakit/odktables/TableManager.java:651-677 | The access control list is gone after a deletion just when each page but the last ends with an owner |
| `TableCreation.OneReaderTooMany` | src/main/java/org/opendatakit/odktables/TableManager.java:449-468 | A table in use with one owner and readers for two pages: its deletion leaves some of them; with a reader more than a page left behind, the creation leaves one beside the new owner |
| `AclPaging.AllVisitedIff` | src/main/java/org/opendatakit/persistence/engine/pgres/QueryImpl.java:336-361 | A query by pages whose next page starts after the last row read sees all rows just when the last row of each page but the last is still there |
| `TableManager.TableStore.QueryAcls` | src/main/java/org/opendatakit/persistence/engine/pgres/QueryImpl.java:336-361 | One page: the rows after the resume row up to the limit, and whether there are more; nothing if the resume row is gone |
| `TableManager.Manager.DeleteOthers` | src/main/java/org/opendatakit/odktables/TableManager.java:651-670 | Deletes the rows read that are not owners and holds the owners back, over all pages |
| `TableManager.Manager.DeleteVersionedTable` | src/main/java/org/opendatakit/odktables/TableManager.java:536-680 | Carries out the writes of the recursive deletion, for any combination of pending, live and stale schema, up to a relation that is refused |
| `TableManager.Manager.DeleteTable` | src/main/java/org/opendatakit/odktables/TableManager.java:691-709 | No such table just when there is no entry; otherwise it gets through just when every relation of the table can be opened, and then nothing is left but the rows of the list that were not read; if not, the table is stuck |
| `TableManager.Manager.MatchesSchema` | src/main/java/org/opendatakit/odktables/TableManager.java:392-415 | The nested loops accept just when each stored column is in the request and all of the request with its key are equal to it |
| `TableManager.Manager.ClearAcls` | src/main/java/org/opendatakit/odktables/TableManager.java:450-461 | The loop over pages deletes the first page of the list and finds no other |
| `TableManager.Manager.CreateTable` | src/main/java/org/opendatakit/odktables/TableManager.java:351-524 | Carries out the writes of the creation up to a relation that is refused. For a table in use it writes nothing and answers with the stored entry just when each stored column is asked for and none under its key but different, with distinct keys just when the columns are the same; any other table is created unless its rest cannot be cleared, its list of offices is empty or a relation of its data is refused |
| `TableManager.CreatedEntry` | src/main/java/org/opendatakit/odktables/TableManager.java:436-524 | A finished creation leaves an entry with the new schema in use and nothing pending; its offices are the requested ones joined with commas, and can be told apart again just when none of them has a comma in it |
| `TableManager.CreatedAgain` | src/main/java/org/opendatakit/odktables/TableManager.java:376-415 | Creating is idempotent: a table that was created is found again, and nothing is written, with the same columns in any order, unless two of them have one key and differ; with distinct keys any other columns fail |
| `DeepComparator.Near` | src/main/java/org/opendatakit/odktables/DataKeyValueDeepComparator.java:129-140 | The loop of at most two steps towards the other value reaches it just when they are at most two representable steps apart |
| `DeepComparator.CompareNumbers` | src/main/java/org/opendatakit/odktables/DataKeyValueDeepComparator.java:88-142 | The cases together place the values on one line on which NaN, the infinities and the finite values are more than two steps apart |
| `DeepComparator.SpacedIsZeroIff` | src/main/java/org/opendatakit/odktables/DataKeyValueDeepComparator.java:91-140 | Two numbers compare as equal just when both are NaN, or the same infinity, or finite and at most two steps apart |
| `DeepComparator.SpacedIsAntisymmetric` | src/main/java/org/opendatakit/odktables/DataKeyValueDeepComparator.java:91-141 | Swapping two numbers swaps the sign |
| `DeepComparator.EqualityIsNotTransitive` | src/main/java/org/opendatakit/odktables/DataKeyValueDeepComparator.java:123-140 | Three numbers of which neighbours compare as equal and the outer two do not |
| `DeepComparator.EqualityCarriesIff` | src/main/java/org/opendatakit/odktables/DataKeyValueDeepComparator.java:123-140 | Of two values that compare as equal, the first takes over all that equals the second just when they are not finite, or the same number, or within two steps of the largest number on the side of the second |
| `DeepComparator.EqualityCarriesInside` | src/main/java/org/opendatakit/odktables/DataKeyValueDeepComparator.java:123-140 | Away from both ends of the line only the same number takes over all that equals another |
| `DeepComparator.StrictIsTransitive` | src/main/java/org/opendatakit/odktables/DataKeyValueDeepComparator.java:91-141 | Less than is transitive |
| `DeepComparator.ComparisonFlipsIff` | src/main/java/org/opendatakit/odktables/DataKeyValueDeepComparator.java:44-146 | Swapping two values swaps the sign, or gives the same error, just when it is not that only one of them lacks a column name |
| `DeepComparator.DataKeyValueDeepComparator.Compare` | src/main/java/org/opendatakit/odktables/DataKeyValueDeepComparator.java:44-146 | Missing values, then column names, then strings, then numbers; fails on a missing column name on the right and on a malformed number |
| `DeepComparator.NumbersCompare` | src/main/java/org/opendatakit/odktables/DataKeyValueDeepComparator.java:85-143 | Two different strings of a number column both have to be numbers; they are equal just when both are NaN, the same infinity, or finite and at most two steps apart, and else NaN is least, then come the negative infinity, the numbers and the other infinity |
| `DeepComparator.StringsCompare` | src/main/java/org/opendatakit/odktables/DataKeyValueDeepComparator.java:75-145 | The same string is equal to itself even if it is not a number; in any other column the strings decide |
| `DeepComparator.MissingIsLeast` | src/main/java/org/opendatakit/odktables/DataKeyValueDeepComparator.java:47-73 | A missing pair, column name or value comes first, and different column names decide before the values |
| `BackingNames.CheckName` | src/main/java/org/opendatakit/ermodel/Relation.java:80-84 | Accepts exactly the upper-case names that begin with a letter and have no two underscores in a row |
| `BackingNames.StaticName` | src/main/java/org/opendatakit/ermodel/Relation.java:78-92 | The name with three underscores in front, or which check fails |
| `BackingNames.PlacedName` | src/main/java/org/opendatakit/ermodel/Relation.java:115-135 | The name with its namespace, or which check fails |
| `BackingNames.CheckFields` | src/main/java/org/opendatakit/ermodel/Relation.java:752-778 | Accepts exactly the fields with upper-case names of at most 63 characters, each once and none of the five reserved ones |
| `BackingNames.PlacedIsInjective` | src/main/java/org/opendatakit/ermodel/Relation.java:115-135 | Different namespaces or tables have different names |
| `BackingNames.StaticIsApart` | src/main/java/org/opendatakit/ermodel/Relation.java:85-129 | No name in a namespace is the name of a relation of the application itself |
| `BackingNames.BlobNamesAreApart` | src/main/java/org/opendatakit/ermodel/AbstractBlobRelationSet.java:422-424 | The relations of blob stores differ by base name and purpose, also in lower case, and are at most 63 characters long |
| `BackingNames.TablesShareRelationIff` | src/main/java/org/opendatakit/odktables/relation/RUtil.java:30-33 | Two tables get the same data relation just when their ids differ in nothing but hyphens, colons, underscores and the case of letters and its name is accepted |
| `BackingNames.TwoTablesOneRelation` | src/main/java/org/opendatakit/odktables/relation/RUtil.java:30-33 | The tables a-b and a_B are given one data relation, whose name is accepted |
| `BackingNames.CreatableIff` | src/main/java/org/opendatakit/ermodel/Relation.java:115-135 | The names of the data relation and its log are accepted just when the id has at most 40 characters, all of them letters, digits, hyphens, colons or underscores, and none of the last three at an end or next to each other |
| `BackingNames.DeletableIff` | src/main/java/org/opendatakit/odktables/relation/DbTableInstanceManifestETags.java:93-97 | Of the tables whose data relations are accepted, the manifests and the blob store are too just when the id begins with a letter and has no hyphen and no colon |
| `BackingNames.CollisionCheckIsBlind` | src/main/java/org/opendatakit/odktables/TableManager.java:474-480 | The look-up for a name that is taken asks for a name that no relation ever has |

## Left out

- Lock expiry and the read of the table entry before the lock in `deleteTable`: there is one lock holder at a time, and operations follow each other.
- Failing queries: a query answers from the stored state; the entity layer turns a datastore error into an empty answer.
- Identifiers are natural numbers handed out by a counter, in place of random UUIDs; that they are new is the only property used.
- A sequence value in the row log is a natural number in the order of issue; `SequencerBase.ValuesAlwaysIncrease` shows that the strings sort in that order. A database collation that differs from the order of characters is not part of the model, nor are years of five digits.
- SequencerBase.NextBaseIs: the parser of dates is a parameter; that it reads back what the formatter writes is assumed there, and not in `BasesAlwaysIncrease`.
- DataManager.Manager.BatchAttemptValid: a batch that sends an ETag with an insert and stops before its commit is written as the code does, but the results on runs do not apply to it; `RecoverableAtIff` says what fails.
- RowLogChains.RunKeepsHistoryIff: a client that sends an ETag before it is issued is left out of this result, not of the results on atomicity.
- RowStore.Store.BulkInsertRows: a batch of inserts that meets a row which is already there ends at that row; how much of such a batch a database keeps is left to the results on runs, which allow any part.
- RowEntities.SetValuesFailsOnColumn: values of a column are strings and types other than strings are not converted; row filter scopes are values, and the group and permission rules behind them are predicates on the row id. Names that a client may not send are refused like any other name that no column has; the list of these names is not part of this model.
- DataManager.Manager.GetRowsSince: cursors that go backwards or fetch a page again are not modelled; a page starts after the last row of the page before it.
- Queries by time range, sorting by a column and the list of the rows of one change set.
- Equality of a sent row and the stored row on all significant fields is a parameter of `DataManager.Manager`; the comparison of one value is `DeepComparator.dfy`.
- Entities held by several lists at once: rows, records and entries in memory are values, and a method replaces them instead of changing them in place.
- Records in memory after a call that fails between two writes: a manipulator is discarded then, as its callers do.
- The digest of a content is a parameter, a function of the bytes; nothing is assumed about it, so a save of other bytes with the digest of the stored ones is answered as unchanged.
- BinaryContentManipulator.Manipulator.DeleteAll: the records are deleted by descending ordinal; the order of a hash map with more than some ten thousand entries is not modelled.
- A content hash that is longer than its column.
- Blobs written before their reference, and parts of a record without a hash, are not collected by the code; only their number is stated (`NothingRemainsIff`).
- The cached ETag of the manifest of a row and the parsing of multi-part requests in `InstanceFileManager`.
- TableManager.Manager.CreateTable: the loop that looks for another name is left out, as it never finds the first one taken (`CollisionCheckIsBlind`). The first sequence value of the table is not part of its life cycle.
- TableState.Accepted: the lengths of string fields and whether they may be null are left out of the comparison with a relation that is there, and so is the greatest number of fields; which columns are kept in the data relation, and the types of the fields, are parameters.
- TableDeletion.DeletionDone: the rows in the blob store of the attachments and the parts of a table file go with it here; how they are deleted one by one is `BlobDeletion.dfy`.
- BackingNames.TablesShareRelationIff: letters outside ASCII, which Java also converts to upper case, are left as they are.
- DeepComparator.CompareNumbers: the text of a number is read by a parameter; a number is given by its sign and the rank of its magnitude.
- REST services, security filters, configuration, and import and export.
