# solidDB engine: a Dafny model of its stateful core

This project models the self-contained algorithms and protocols in the top layer of the solidDB
engine and proves what they promise over every run. Each part has the state the C code changes in
place, the outcome of each operation as a function of that state, theorems over all runs of those
operations and, in the same or a neighbouring module, a class whose methods change fields, arrays
and lists the way the code does and are proved to have exactly those outcomes. Calls into the
cache, the log, the page allocator, the lock manager and the like appear as parameters, so that
every answer they may give is covered.

| files | part of the engine |
|---|---|
| `Sequence*.dfy` | dense and sparse sequences, their transaction side, checkpoint and roll-forward |
| `Blob.dfy`, `BlobPage.dfy`, `BlobWriter.dfy`, `BlobReader.dfy`, `BlobStream.dfy` | BLOB G2 streams, page and reference formats |
| `LogData.dfy`, `LogIterator.dfy`, `LogLinks.dfy`, `LogPos.dfy` | scattered log records, their iterator, shared log buffers, log positions |
| `MmeCheckpoint.dfy`, `MmeLoad.dfy` | main-memory checkpoint step and the prefetching load |
| `Cardinality.dfy` | nested cardinality accounting |
| `PageStore.dfy`, `Modes.dfy` | multi-page allocation and the checkpoint/backup/merge flags |
| `SpaceManager.dfy`, `BlobRefs.dfy`, `TrxRing.dfy` (and `Options.dfy`, shared) | HSB space manager, BLOB reference buffer, wrap-around transaction ids |

`dafny verify dfyconfig.toml` checks everything.

## Where the code does not do what one would expect

Each of these has a lemma with a concrete run and a theorem with the exact condition. Only for the
order of logged SETs the condition is sufficient: calls that break it may still be logged in order, and
numbers may agree by accident.

- A dense increment whose `dbe_trx_markseqwrite` fails stays in the committed view
  (`dbe/dbe0seq.c:785-827`). `SequenceDense.FailedMarkLeaks` gives the run,
  `SequenceDense.RollbackRestoresIff` the condition under which a rollback restores the view.
- `dbe_seq_create` does not free the new object when the id exists (`dbe/dbe0seq.c:379-405`).
  `SequenceLinks.CreateLeaks` gives the run; `SequenceLinks.LinksExactIff` shows that all link counts
  are exact if and only if no create of the run met an id that was taken.
- A sequence dropped under a running transaction leaves a value record that finds no sequence, and
  roll-forward stops there (`dbe/dbe4rfwd.c:2948-2976`). `SequenceRecovery.DropHaltsReplay` gives the
  run; `SequenceRecovery.RecoveryRebuilds` shows that roll-forward completes exactly when every record
  finds its sequence.
- Two values set in a sparse sequence can reach the log in the opposite order, because the log is
  written outside the mutex (`dbe/dbe0seq.c:874-894`); recovery then brings the earlier value back.
  `SequenceRecovery.SetOrderLost` gives the run. `SequenceRecovery.CrashRecovery` holds of every sparse
  sequence on which no SET was at work together with another call (`SequenceAlone.RanAlone`), a guard
  that run breaks and every sequence that was only incremented keeps.
- A client that goes on writing a BLOB after an error loses the bytes of that page and may still get
  a completion mark (`dbe/dbe0blobg2.c:1106-1149`). `BlobWriter.LostYetComplete` gives the run,
  `BlobWriter.ClosedContent` the exact condition.
- Deleting a row of size zero counts as inserting one (`dbe/dbe0trut.c:4356-4398`).
  `Cardinality.EmptyDeleteCountsUp` gives the run, `Cardinality.TellsTheTruth` the exact condition.
- Freeing the cardinality object forgets a group list with its relation handles
  (`dbe/dbe0trut.c:3896-3912`). `Cardinality.GroupLeaks` gives the run; `Cardinality.LinksGivenBack`
  shows that all links come back if and only if the object is never freed while a row change waits in
  a statement group.
- An allocation of several pages that fails ignores the errors of giving back those it got
  (`dbe/dbe0db.c:10558-10563`), and a page the free list did not take stays in use without an owner.
  `PageStore.UndoLeaks` gives the input; `PageStore.FailureRestores` shows that the pages in use are as
  before if and only if every free succeeded.
- Adding n to a transaction id at once is not n single steps when the jump passes the gap
  (`dbe/dbe0type.c:90-150`). `TrxRing.JumpPassesGap` gives a jump; `TrxRing.JumpIsSteps` says exactly
  when the two agree.
- A log position outside any log file (number 0), or with numbers whose signed form is negative, prints
  but does not read back (`dbe/dbe0catchup.c:293-348`). `LogPos.NoFileLost` gives a position;
  `LogPos.TextRoundTrip` says exactly which positions do.

## Model

| member | source | states |
|---|---|---|
| `SequenceDense.CommittedView` | dbe/dbe0seq.c:785-800 | in every reachable state the committed view of a dense sequence (rollback value if flagged, else value) is the fold, in commit order, of the operations settled for good, and each of their callers got the value of that serial execution |
| `SequenceDense.SettledIsCommitted` | dbe/dbe0trut.c:3537-3564 | what is settled for good belongs to transactions with a commit mark in the log, if every mark reached its transaction |
| `SequenceDense.CommittedIsSettled` | dbe/dbe0trut.c:3484-3512 | the other half: every marked dense write of a transaction that later commits is among the settled operations |
| `SequenceDense.NoHoles` | dbe/dbe0seq.c:776-800 | settled NEXT operations got start+1..start+n without a hole, whatever rolls back in between |
| `SequenceDense.FirstValues` | dbe/dbe0seq.c:379-405 | the value every object starts from is that of the restored table, or 0 for one created since |
| `SequenceDense.RollbackRestoresIff` | dbe/dbe0seq.c:1369-1386 | in every reachable state a rollback restores the committed view of before a dense operation if and only if the mark succeeds, the transaction had written the sequence before, or the value does not change |
| `SequenceDense.FailedMarkLeaks` | dbe/dbe0seq.c:785-827 | a concrete run in which a failed mark leaves an uncommitted increment in the committed view |
| `SequenceDense.DenseKeptInv` | dbe/dbe0trut.c:3621-3670 | every event keeps the correspondence of values, rollback values, registrations and the ledger of operations |
| `SequenceSparse.ValuesDistinct` | dbe/dbe0seq.c:776-827 | over every interleaving of the sections of a call (change, log answer, undo, unlink) two calls that hold a value of one sequence that was never set, in flight or logged, hold different values |
| `SequenceAlone.DistinctSince` | dbe/dbe0seq.c:776-910 | the same from any point of a run at which no call is at work on the sequence, as long as it is not set again, whatever SETs came before: calls that begin later hold different values |
| `SequenceSparse.IncrementsAddUp` | dbe/dbe0seq.c:805-827 | held values never exceed the current value, and value minus start is exactly the logged increments, those between change and settlement, and those the log refused and nobody could take back |
| `SequenceLinks.LinkCounts` | dbe/dbe0seq.c:168-197 | a sequence value's link count is tree membership plus registered transactions plus calls in flight (CURRENT and sparse NEXT and SET, from link to unlink), in every reachable state; an object lives exactly as long as somebody refers to it, except orphans of failed creates |
| `SequenceLinks.LinksExactIff` | dbe/dbe0seq.c:379-405 | every live object has exactly as many links as references, in a run from the start of the engine, if and only if no create of the run met an id that was taken |
| `SequenceLinks.CreateLeaks` | dbe/dbe0seq.c:379-405 | a concrete create that leaves an object with a link nobody holds |
| `SequenceLinks.LinksKept` | dbe/dbe0seq.c:742-950 | every operation keeps that count on every exit path: refused writes, pending drops, values of the wrong type, refused logs, and whatever comes between the sections of a call |
| `SequenceRecovery.CheckpointIsRollback` | dbe/dbe0seq.c:1474-1527 | saving at any action-consistent point and restoring gives the table one gets by rolling back every open transaction and pending drop, in any order |
| `SequenceAlone.RunAlone` | dbe/dbe0seq.c:829-910 | in every run that keeps the guard, a SET that is neither logged nor dealt with after a refusal is the only such call on its object, and its value stands |
| `SequenceAlone.NextsRunAlone` | dbe/dbe0seq.c:776-827 | a sequence that is never set keeps the guard |
| `SequenceRecovery.RecoveryRebuilds` | dbe/dbe4rfwd.c:2948-3015 | replaying the log written since on the saved table completes if and only if every record finds its sequence, and then agrees with the live committed view of every dense sequence, and of every sparse one whose SETs ran alone up to exactly what the log does not know: calls at work and refusals left in place |
| `SequenceRecovery.CrashRecovery` | dbe/dbe0seq.c:985-1055 | checkpoint, run on, crash: recovery gives the live committed view of every dense sequence, and of every sparse one, set or not, whose SETs ran alone and on which no call is at work and no refusal was left in place |
| `SequenceRecovery.DropHaltsReplay` | dbe/dbe4rfwd.c:2948-2976 | a concrete run in which a drop under a running transaction stops roll-forward |
| `SequenceRecovery.SetOrderLost` | dbe/dbe0seq.c:874-894 | a concrete run that breaks the guard: two values set in a sparse sequence are logged in the opposite order and recovery brings the earlier one back, with nothing at work and nothing refused |
| `SequenceDrops.DropsPending` | dbe/dbe0seq.c:437-766 | in every run a sequence is in the table exactly when its history of creates and drops says so, with as many pending drops as were marked and not unmarked since its creation; it can be used exactly when there are none, and otherwise NEXT, SET and CURRENT change nothing but the lock of a dense sequence |
| `SequenceDrops.LocksTold` | dbe/dbe0seq.c:565-640 | in every run the lock of a sequence is with the first transaction that asked for it since it was free and has not ended |
| `SequenceDrops.CallsTold` | dbe/dbe0seq.c:742-946 | in every run a call is in flight exactly from its begin, if the sequence could be used and nobody else had its lock, to its end |
| `SequenceTable.Table.DenseOper` | dbe/dbe0seq.c:712-950 | a dense NEXT or SET in place: NEXT leaves and returns the old value plus one, SET the value asked for; lock, write permission, link, mark, keep or give back the link on each path, including values of the wrong type and attributes that do not take the value; whole new state and return code |
| `SequenceTable.Table.WriteLinked` | dbe/dbe0seq.c:776-946 | the write itself: new value, first registration saves the rollback value and keeps the link whatever comes after, any other outcome gives the link back |
| `SequenceTable.Table.MarkSeqWrite` | dbe/dbe0trut.c:3621-3670 | registers a sequence once per transaction and answers success, found or error |
| `SequenceTable.Table.TransEnd` | dbe/dbe0trut.c:3537-3564 | ends every registered value of a transaction, then its locks, and no other lock; whole new state |
| `SequenceTable.Table.EndOne` | dbe/dbe0seq.c:1369-1386 | one value: flag cleared, rollback value restored on abort, link given back |
| `SequenceTable.Table.SparseBegin` | dbe/dbe0seq.c:727-874 | a sparse NEXT or SET under the mutex, with its refusals; the sequence has the old value plus one, or the value asked for, and the call leaves with the link, its kind, and the old and new value |
| `SequenceTable.Table.SparseUndo` | dbe/dbe0seq.c:808-819 | a refused value is taken back if nobody moved it on; no other object changes |
| `SequenceTable.Table.Current` | dbe/dbe0seq.c:742-775 | a read under the mutex; of a dense sequence the caller has the lock afterwards; the call leaves with the value and the link |
| `SequenceTable.Table.CallEnd` | dbe/dbe0seq.c:920-946 | the link goes whether or not the attribute takes the value, and the object with its last link |
| `SequenceTable.Table.Create` | dbe/dbe0seq.c:379-405 | a new sequence starts at 0 with one link; a new object is kept even if the id is taken |
| `SequenceTable.Table.MarkDropped` | dbe/dbe0seq.c:437-462 | afterwards the sequence cannot be used; committed views are as before |
| `SequenceTable.Table.UnmarkDropped` | dbe/dbe0seq.c:538-562 | afterwards the sequence can be used exactly if this was the last pending drop; committed views are as before |
| `SequenceTable.Table.Drop` | dbe/dbe0seq.c:490-513 | out of the tree, and freed with its last link |
| `SequenceTable.Table.Unlink` | dbe/dbe0seq.c:176-197 | one link less, freed with the last |
| `SequenceTable.Table.Save` | dbe/dbe0seq.c:1474-1527 | a list with every sequence once, at its committed value |
| `SequenceTable.Table.Restore` | dbe/dbe0seq.c:1555-1597 | a table with exactly the sequences of a list |
| `SequenceTable.SaveRestore` | dbe/dbe0seq.c:1474-1597 | a saved and restored table has the ids, committed values, flags, drop counts and links the recovery theorems start from |
| `BlobWriter.ClosedContent` | dbe/dbe0blobg2.c:1106-1149 | for every run of reach, release and flush and every pattern of failures, after close the directory leads to exactly the released bytes if and only if no call reported a lost page; the log alone then holds the same bytes; the completion mark is there exactly when the log took it and the last flush had nothing to do or succeeded in all three steps |
| `BlobWriter.SlotsSafe` | dbe/dbe0blobg2.c:962-984 | after close or cancel every cache slot was freed or handed over exactly once, each page handed over directly follows the log record of the same id, offset and bytes, and a completion mark is the last act |
| `BlobWriter.RunSafe` | dbe/dbe0blobg2.c:1251-1369 | the invariant behind both, in every run: free room in the page in hand, slot books, contiguous non-empty pages within the net size, log before page, offsets in the log |
| `BlobWriter.StepInv` | dbe/dbe0blobg2.c:1209-1369 | every call keeps that invariant, whatever the surroundings answer |
| `BlobWriter.LostYetComplete` | dbe/dbe0blobg2.c:1106-1149 | a concrete run that ends with a completion mark and a lost page |
| `BlobReader.RoundTrip` | dbe/dbe0blobg2.c:1547-1649 | any chunks written with flushes anywhere and closed without loss are read back in any chunks: always the prefix of as many bytes as were fetched, all of it exactly when the reader is told the end; no assertion of the reader fails; all pages are given back |
| `BlobReader.ReaderSafe` | dbe/dbe0blobg2.c:1504-1649 | every run of a reader over a stored BLOB keeps position, bytes got, page in hand and the books on pages in step |
| `BlobPage.HeaderRoundTrip` | dbe/dbe0blobg2.c:192-214 | type, checkpoint number, byte count, id and start offset of a page header read back, data untouched, and the log part is id, offset and data |
| `BlobPage.HeaderBytes` | dbe/dbe0blobg2.c:1002-1014 | a header byte by byte |
| `BlobPage.PutData` | dbe/dbe0blobg2.c:1002-1014 | writes the header in place in front of the data |
| `BlobPage.Store` | include/sslimits.h:539-547 | stores a number byte by byte, least significant first, and nothing else |
| `BlobPage.RefRoundTrip` | dbe/dbe0blobg2.c:325-413 | a reference stored at the end of any buffer loads back with id, size and flags, and is taken for a G2 reference if and only if its highest flag is set; all earlier bytes unchanged |
| `BlobPage.RefBytes` | dbe/dbe0blobg2.c:604-625 | a reference byte by byte |
| `BlobPage.StoreRef` | dbe/dbe0blobg2.c:604-625 | writes the reference record in place |
| `BlobStream.WriteStream.FlushPage` | dbe/dbe0blobg2.c:1106-1149 | flush in place: log, address, directory, hand-over or free, on every failure path |
| `BlobStream.WriteStream.Reach` | dbe/dbe0blobg2.c:1251-1287 | offers the free part of the page in hand or of a new cache page |
| `BlobStream.WriteStream.Release` | dbe/dbe0blobg2.c:1313-1336 | takes the bytes and flushes a full page |
| `BlobStream.WriteStream.CloseStream` | dbe/dbe0blobg2.c:1358-1370 | last flush and completion mark |
| `BlobStream.WriteStream.CancelStream` | dbe/dbe0blobg2.c:1209-1216 | frees the page in hand |
| `BlobStream.InsertAval` | dbe/dbe0blobg2.c:1867-1924 | the copy loop: if the surroundings do all that is asked it succeeds; on success the BLOB holds exactly the data and, with logging, the log does too and ends with the completion mark; on any failure no slot is left over and there is no completion mark |
| `BlobStream.ReadStream.Reach` | dbe/dbe0blobg2.c:1547-1611 | the next bytes of the BLOB, or the end exactly when all were read |
| `BlobStream.ReadStream.Release` | dbe/dbe0blobg2.c:1634-1649 | moves on, giving the page back at its end |
| `BlobStream.ReadStream.Finish` | dbe/dbe0blobg2.c:1504-1519 | gives back whatever is held |
| `LogData.ScatteredIsContiguous` | dbe/dbe0ld.c:560-721 | a record recorded over any buffers is the contiguous stretch of the log from its first byte to its last, wherever the boundaries fall |
| `LogData.OneBuffer` | dbe/dbe0ld.c:633-721 | the same within one buffer |
| `LogData.Accounting` | dbe/dbe0ld.c:693-720 | the byte count is the number of bytes the iterator hands out, for every recording |
| `LogIterator.Iterates` | dbe/dbe0ld.c:1296-1461 | in every run with restarts anywhere the answers since the last restart are the chunks in order, then the end |
| `LogIterator.PositionsAnywhere` | dbe/dbe0ld.c:868-960 | a durability record decodes to the positions written, the local one to null exactly without a log file, wherever buffer boundaries fall: inside one buffer or over any number of them |
| `LogIterator.PositionsRoundTrip` | dbe/dbe0ld.c:905-955 | local and remote positions read back from a record of 22 or 43 bytes, the local one as null if and only if it has no log file |
| `LogIterator.LogRecording.GetBuffer` | dbe/dbe0ld.c:1296-1461 | the state machine with its fall-through, in place |
| `LogIterator.LogRecording.GetData` | dbe/dbe0ld.c:817-843 | gathers the first bytes of the record into a buffer and touches nothing behind them |
| `LogIterator.LogRecording.DecodeLogPos` | dbe/dbe0ld.c:868-960 | for the three record types with positions: decodes the local one once, as it was written or null without a log file, and the remote one where there is one |
| `LogIterator.LogRecording.AddBuffer` | dbe/dbe0ld.c:560-613 | the recorded bytes grow by the payload of the buffer, unless it is the begin buffer, and the byte count stays their number |
| `LogIterator.LogRecording.Close` | dbe/dbe0ld.c:633-721 | a recording in the making becomes a whole one: its bytes are the rest of the begin buffer, the raw buffers and the head of the end buffer, and its byte count is their number |
| `LogLinks.LinksBalance` | dbe/dbe0hsbbuf.c:123-153 | over every run of owners and recordings a buffer's count is its owner plus the recordings naming it, and no link is given back for a buffer that is gone |
| `LogLinks.RecordingLives` | dbe/dbe0ld.c:232-332 | a recording lives exactly as long as more of its links were taken than given back |
| `LogLinks.TapesTold` | dbe/dbe0ld.c:560-721 | every recording that lives names the buffers the events put into it, and every buffer has its owner until he lets go |
| `LogLinks.StepKept` | dbe/dbe0ld.c:157-332 | every operation keeps those counts |
| `LogLinks.Buffers.FreeRecording` | dbe/dbe0ld.c:264-293 | gives back exactly the links of a closed recording |
| `LogPos.TextRoundTrip` | dbe/dbe0catchup.c:229-362 | of all positions the fields can hold, printing then parsing returns exactly the null position and those with a positive signed file number and an id and buffer position that are not negative as signed numbers |
| `LogPos.PrintedShape` | dbe/dbe0catchup.c:338-348 | a printed position has its numbers in 21, 3, 4, 10 and 6 places with colons between them |
| `LogPos.ScanHex` | ss/ssscan.c:250-382 | hexadecimal digits behind 0x, and that the eight-byte scanner stops behind the 0 |
| `LogPos.ScanBlanks` | ss/ssint8.c:1543-1575 | both scanners skip blanks of all six kinds and a sign |
| `LogPos.NoFileLost` | dbe/dbe0catchup.c:293-300 | a concrete position without a log file that reads back as null |
| `LogPos.InitFromString` | dbe/dbe0catchup.c:229-303 | the parser, field by field, and the narrowing into the fields of a position, against its specification |
| `LogPos.ScanLong` | ss/ssscan.c:250-382 | the scanner character by character: blanks, sign or 0x, digits modulo 2^64, and what does not fit is no number |
| `LogPos.ScanInt8` | ss/ssint8.c:1543-1619 | the digit loop that stops where the value gets too large reads a number exactly if its full value fits eight signed bytes |
| `LogPos.BinaryRoundTrip` | include/dbe0catchup.h:69-79 | the binary form reads back |
| `LogPos.BinaryBytes` | include/dbe0catchup.h:69-79 | the binary form byte by byte |
| `LogPos.Orders` | dbe/dbe0catchup.c:81-146 | both comparisons are total orders: by file number, then block, then position; null before all others, then by id as a signed number |
| `MmeCheckpoint.EndMeansAll` | dbe/dbe0db.c:4168-4348 | for every finite page source and every pattern of refusals: at END every produced page is in the batch once and in order, nothing is left to flush, every cache slot is in the batch or freed exactly once, and the address pages list exactly the data pages if and only if the storage closed its last address page |
| `MmeCheckpoint.SomeRun` | dbe/dbe0db.c:4168-4348 | a concrete checkpoint of one data page and one address page |
| `MmeCheckpoint.RunSafe` | dbe/dbe0db.c:4168-4348 | the invariant of every resumable run, including where it was interrupted |
| `MmeCheckpoint.StepsReachEnd` | dbe/dbe0db.c:4168-4348 | whenever and however often the batch refuses, a run of which 3n+2 steps did not have to wait, over a source of n answers, is done with everything in the batch |
| `MmeCheckpoint.OnlyWithRoom` | dbe/dbe0db.c:4240-4300 | a page gets into the batch only if the batch took it, and a step waits only with a page in hand that was refused or with flushes left |
| `MmeCheckpoint.StepsProgress` | dbe/dbe0db.c:4259-4300 | a step makes progress or was refused and is offered the same page again |
| `MmeCheckpoint.DirectoryFollows` | dbe/dbe0db.c:4240-4255 | the address pages produced so far list the data pages, but for those of the page being filled |
| `MmeCheckpoint.Checkpoint.Step` | dbe/dbe0db.c:4168-4348 | the switch with its fall-through, in place |
| `MmeLoad.LoadPage` | dbe/dbe0db.c:4688-4822 | the FIRST/EVEN/ODD pipeline loads every address of a directory page once and in order, stays inside both arrays and is never more than the first array ahead |
| `MmeLoad.Load` | dbe/dbe0db.c:4659-4690 | the chain of directory pages, for any cache of at least two slots |
| `Cardinality.TellsTheTruth` | dbe/dbe0trut.c:4025-4398 | the delta a relation is told is the sum of the row changes whose statement, group and transaction all committed, if and only if none of them deletes a row of size zero |
| `Cardinality.Accounts` | dbe/dbe0trut.c:4114-4307 | in every run each tree holds exactly the changes that got so far, and every handle has as many links as entries hold it |
| `Cardinality.LinksGivenBack` | dbe/dbe0trut.c:3896-4183 | once all is over every handle link taken was given back exactly once, if and only if the object was never freed while a row change waited in a statement group |
| `Cardinality.GroupLeaks` | dbe/dbe0trut.c:3896-3912 | a concrete transaction that ends inside a statement group and leaves a link behind |
| `Cardinality.EmptyDeleteCountsUp` | dbe/dbe0trut.c:4356-4398 | a concrete delete that raises the tuple count |
| `Cardinality.CardinInfo.AddCardin` | dbe/dbe0trut.c:4025-4084 | finds or adds an entry, and takes or leaves the handle's link |
| `Cardinality.CardinInfo.CardinTrans` | dbe/dbe0trut.c:4114-4171 | ends a tree entry by entry |
| `Cardinality.CardinInfo.StmtTrans` | dbe/dbe0trut.c:4252-4310 | end of a statement or a group, in place |
| `Cardinality.CardinInfo.TrxTrans` | dbe/dbe0trut.c:4191-4225 | end of a transaction, in place |
| `Cardinality.CardinInfo.InsertBytes` | dbe/dbe0trut.c:4334-4364 | one row change: the relation moves by one tuple in the direction of the sign, by the bytes and by the changes, and no other relation moves |
| `Cardinality.CardinInfo.DeleteBytes` | dbe/dbe0trut.c:4384-4398 | a deleted row takes one tuple and its bytes off the relation, or adds a tuple if its size is zero |
| `PageStore.SnapshotSafe` | dbe/dbe0db.c:10504-10609 | in every run used, free and change-list pages partition the file, and a page on the change list is not handed out before the list is inherited with it |
| `PageStore.FailureRestores` | dbe/dbe0db.c:10552-10565 | an allocation given up keeps the partition and the change list; the pages in use are as before if and only if every free of the undo succeeded, otherwise the pages not taken back stay in use; with all taken back the free pages gain only those by which the file grew |
| `PageStore.UndoLeaks` | dbe/dbe0db.c:10558-10563 | a concrete allocation that leaves a page in use without an owner |
| `PageStore.OlderPagesListed` | dbe/dbe0db.c:10567-10595 | pages freed under an older checkpoint number go to the change list with that number |
| `PageStore.PagesGiven` | dbe/dbe0db.c:10567-10609 | all pages given back: one the list did not take stays in use, one of an older checkpoint waits under its number, any other is free; change list entries keep their numbers |
| `PageStore.PagesTold` | dbe/dbe0db.c:10504-10609 | in every run from the empty file each page is where the events alone say: unknown, in use, waiting under its number, or free |
| `PageStore.Pages.AllocPages` | dbe/dbe0db.c:10504-10565 | all pages or none, with the undo loop under every answer of the free list |
| `PageStore.Pages.FreePages` | dbe/dbe0db.c:10567-10609 | where each page goes, that listed pages keep their numbers, and whether any page failed |
| `Modes.ModesSafe` | dbe/dbe0db.c:3765-3878 | although a failed preparation clears the flag outside the semaphore: at most one caller is at a checkpoint, the flag is up exactly as long, no backup is active then, and a disabled merge runs neither as full nor as quick merge |
| `Modes.WindowHolds` | dbe/dbe0db.c:3784-3878 | from the flag on, through the preparation and until the checkpoint fails or ends, every backup and every further checkpoint is refused |
| `Modes.DisablesNest` | dbe/dbe0db.c:7808-7839 | disabling nests: no merge can start until every disabler has enabled again |
| `Modes.MayCheckpoint` | dbe/dbe0db.c:3765-3788 | a caller may go ahead with a checkpoint exactly when, by the events alone, no dictionary operation is at work, no backup is made and not stopped, and no caller is at a checkpoint; likewise a backup |
| `Modes.MergesTold` | dbe/dbe0db.c:7029-7162 | full and quick merge each run exactly when the events say so |
| `Modes.Database.CreateCpStart` | dbe/dbe0db.c:3765-3788 | goes ahead exactly when there is no backup, no dictionary operation and no checkpoint, and excludes backups from then on; otherwise nothing changes |
| `Modes.Database.CpPrepare` | dbe/dbe0db.c:3846-3878 | keeps the flag exactly when the preparation succeeds |
| `Modes.Database.BackupBegin` | dbe/dbe0db.c:7968-8003 | succeeds only without checkpoint and backup, keeps the exclusion, and changes nothing when it fails |
| `Modes.Database.SetMergeDisabled` | dbe/dbe0db.c:7808-7839 | afterwards neither merge runs while disabled; counts the disablers |
| `Modes.Database.StartMerge` | dbe/dbe0db.c:7029-7162 | starts the merge of the kind asked for, and no other, exactly if writable and no disabler is left |
| `SpaceManager.RunKept` | dbe/dbe0spm.c:153-318 | free space stays in 0..maxsize, and whoever sleeps does so because the manager is active and has nothing left |
| `SpaceManager.FirstComeFirstWoken` | dbe/dbe0spm.c:202-318 | the woken followed by those asleep are the arrivals in order |
| `SpaceManager.WaitIsBounded` | dbe/dbe0spm.c:202-245 | the k-th in line is awake after at most k additions of size 1..maxsize, whatever else happens |
| `SpaceManager.WaitInLine` | dbe/dbe0spm.c:153-318 | a concrete run with a caller who waits and is woken |
| `SpaceManager.Manager.AddSpaceOf` | dbe/dbe0spm.c:202-245 | the free space afterwards: the capped sum, scaled by the rate but at least 1, less one for each waiter woken; nobody sleeps while there is some |
| `SpaceManager.Manager.GetSpaceOf` | dbe/dbe0spm.c:247-318 | a caller waits exactly when the manager is active and has nothing for it, at the end of the line; otherwise it gets what it asked for or all there is |
| `SpaceManager.Manager.SetActiveTo` | dbe/dbe0spm.c:153-189 | a change of the flag resets the space, and switching off wakes everybody in order |
| `BlobRefs.Ownership` | dbe/dbe0brb.c:345-619 | in every run a BLOB is adopted at most once and its deletion is asked for exactly once, exactly when neither row nor buffer refers to it |
| `BlobRefs.DeletesTheLast` | dbe/dbe0brb.c:389-494 | a call asks for the deletion if and only if it removes the last reference |
| `BlobRefs.AdoptedOnce` | dbe/dbe0brb.c:345-387 | a save without a copy is the first, and every later one copies |
| `BlobRefs.Histories` | dbe/dbe0brb.c:345-619 | in every run the buffer, the rows and every status are what the events alone tell |
| `BlobRefs.AnswersTold` | dbe/dbe0brb.c:345-494 | the three answers by the events alone: copy, defer, delete |
| `BlobRefs.KeptUntilRelease` | dbe/dbe0brb.c:389-494 | a BLOB put in to stay is in the buffer exactly until its client lets go, whatever saves and row deletes come between; a row delete before that is deferred, and the client has to delete exactly if there is no row then |
| `BlobRefs.KeptUntilSave` | dbe/dbe0brb.c:345-387 | a BLOB put in to be removed on save is in the buffer exactly until its first save, which adopts it |
| `BlobRefs.ReferenceBuffer.SaveRef` | dbe/dbe0brb.c:345-387 | a save either adopts the BLOB for its only row, or has to copy and changes nothing; the next save copies |
| `BlobRefs.ReferenceBuffer.DeferDelete` | dbe/dbe0brb.c:389-420 | a row delete is deferred exactly when something still refers to the BLOB, and otherwise is its one deletion |
| `BlobRefs.ReferenceBuffer.RemoveRef` | dbe/dbe0brb.c:457-494 | the client has to delete exactly when its own reference was the last |
| `BlobRefs.ReferenceBuffer.InsertRef` | dbe/dbe0brb.c:582-619 | a new reference keeps the books in order, and its first save will adopt the BLOB |
| `TrxRing.Sum` | dbe/dbe0type.c:142-150 | any sum lands in 1..M-1 |
| `TrxRing.StepsInverse` | dbe/dbe0type.c:90-100 | one step up and one step down undo each other |
| `TrxRing.StepsAreRing` | dbe/dbe0type.c:213-221 | k increments from x give ((x-1+k) mod (M-1))+1 |
| `TrxRing.NoRepeat` | dbe/dbe0type.c:213-221 | no id repeats within M-1 steps |
| `TrxRing.JumpIsSteps` | dbe/dbe0type.c:90-150 | adding n at once is n steps if and only if it does not pass the gap |
| `TrxRing.JumpPassesGap` | dbe/dbe0type.c:90-150 | a concrete jump that passes it |
| `TrxRing.JumpsAtTheTop` | dbe/dbe0type.c:90-150 | concrete jumps around the gap and around 2^32 with the bound of the engine |
| `TrxRing.JumpDownIsSteps` | dbe/dbe0type.c:90-150 | the same downwards |

## Left out

- Sequences: 64-bit wrap-around of values (they are unbounded here), and setting a replica's sequence
  (which takes no lock).
- Sequences: a dense write is one step from its change to its mark and unlink: the exclusive lock of the
  id keeps every other reader and writer of the value away, and the action gate, which a checkpoint takes
  exclusively, every checkpoint; a transaction keeps its locks until after its values are settled.
- Sequences: uniqueness of sparse values across a crash with calls in flight; the log holds increments,
  not values.
- SequenceSparse.ValuesDistinct: values handed out on both sides of a SET, because a SET may hand a value
  out again.
- SequenceSparse.IncrementsAddUp: sequences that were set, whose value no longer counts increments.
- Sequences: a new sequence does not take an id under which a transaction or a call is still at work
  (`Sequence.Legal`); registrations are by id, so the code relies on it.
- Sequences: the commit of a data dictionary transaction is one step: creating or dropping a sequence in
  the table, its log record and the commit mark without which roll-forward skips the record
  (`dbe/dbe4rfwd.c:2876-2910`, `dbe/dbe1trdd.c:1735-1755`).
- BLOBs: the tables in which the directory of pages is kept; a page whose directory entry fails is
  not in the directory here, and the client is expected to cancel.
- BLOBs: the statistics, and `dbe_blobg2_unlink_list_of_blobids`, which would only add an easy loop.
- BLOBs: sizes of 2^64 and more.
- LogData.OneBuffer: a recording that begins and ends in one buffer and has raw buffers in between,
  which the code calls impossible, keeps its byte count but its chunks are not one stretch of the log.
- LogPos.InitFromString: platforms whose `long` and `size_t` are not eight bytes.
- MmeCheckpoint.Checkpoint.Step: the diskless variant, error codes of the storage other than its end,
  and a cache without a free slot.
- MmeLoad.LoadPage: progress messages and the prefetch of the next directory page; a directory page
  that says there is more is taken to have filled the array.
- MmeLoad.Load: a cache of fewer than two slots, for which the code's address array has no room and the
  storage, which is not part of this model, can hand out nothing.
- Cardinality.CardinInfo.CardinTrans: the order in which a tree is visited (by relation id in the
  code), which no sum and no count depends on, and the new query plan after a large change.
- PageStore.Pages.AllocPages: which free page the free list picks, and how the checkpoint manager
  decides which entries of the change list it inherits.
- Modes.ModesSafe: thresholds that decide when a merge is started, and merge steps themselves.
- SpaceManager.Manager.GetSpaceOf: the check of the active flag before the semaphore; check and
  section are one step.
- BlobRefs.ReferenceBuffer.RemoveRef: `dbe_brb_removeif`, which hands the BLOB to its caller without
  a condition.
- Dispatch wrappers over the index, the dictionary, the log and replication, start-up and shutdown,
  configuration, statistics, message texts and error names.
