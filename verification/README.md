# EScp: a verified model of the transfer protocols

EScp copies files over many parallel encrypted connections. On each side a pool of worker
threads shares a table of open files without locks; a separate metadata connection carries
names, block counts and confirmations between the two control loops. This project models those
protocols in Dafny and proves that together they do what EScp is for: when a session completes,
every file that was announced has arrived whole.

Protocols that several threads take part in are step machines whose steps are the individual
atomic operations of the code, and a theorem about them quantifies over every legal run, that is
over every interleaving, and over every number of threads. Code that one thread runs is a class or
a loop, proved against a function. Where the step machines use other functions, a lemma connects
the two: `SubmitWork` shows that a worker's events are moves of the sharing machine, and `Loops`
that the messages of the control loops, the calls of close_file and the batches of announcements
are runs of the session.

## Layers

- `Blocks`, `Bits`, `StateWord`: how files are cut into blocks, what a set of processed blocks adds up to,
  machine words as sets of bits, and the bits of a slot's state word.
- `SenderShare`: the sender's workers, from the first claim of a file to the wiping of its slot.
  `SubmitWork` is the recursive `submit_work` over a queue of operations; each of its events is a
  move of that machine. `Tickets` is the way workers draw file numbers, `AttachRace` the copy and
  compare-and-swap with which they attach to a file in progress.
- `Disk`, `PosixEngine`: padded and sparse writes, truncation, and which block sizes survive them.
- `DataPlane`: the sender's workers, the network, any number of receive workers and the disk in
  one machine.
- `Announcer`, `Ledger`, `ReceiverControl`: the three control loops.
- `Session`: everything above in one machine, with the control messages of both sides. `Loops`
  connects it with the control loops. `Potential` measures how much is left to do in a session and
  shows that every step lowers it; `Progress` concludes that every schedule ends, and ends well.
- `MetaRing`, `MetaBuffer`, `FcRing`, `Probing`, `FileTable`, `TableSteps`, `TableMap`, `FileStat`,
  `TableLife`, `MetaLock`: the shared structures underneath (metadata ring, completion ring, open-file
  table, send lock). For each, safety in every run, and that what was begun can be brought to its end.
- `Wire`, `WireIo`, `MetaCounters`: headers, counters and frames, the loops that move them over a
  socket, and the counters of both directions of the metadata connection.

## Assumptions

- Memory is sequentially consistent; a 64-byte copy is four 16-byte loads or stores in the order
  the code gives.
- Reads and writes of files are complete apart from end of file, and source files do not change
  during the transfer.
- The block size is a multiple of 4096, in `DataPlane`, `Session` and `Progress`. This is needed:
  `Disk.ReassemblesIff` shows that a file of two or more blocks survives every arrival order
  exactly for those block sizes. The code rounds up small block sizes but does not align larger ones
  (`src/escp.rs:422-427`).
- File numbers start at 1 and are used once (`src/escp/sender.rs:1046`).
- A worker that attaches to a file in progress sees the same occupancy of the slot in its snapshot
  and in its compare-and-swap. `AttachRace.CopyIsRightIff` shows that the attachment is right exactly
  then, and `AttachRace.StaleCopyAttaches` gives a run where it is not.
- A file is not wiped while somebody is still looking it up. For the receiver this follows from
  `DataPlane.FullCount`, for the sender from the uniqueness of tickets.
- Both sides hash or both do not. The block hash is an arbitrary function, so the constant zero
  covers runs without hashing.
- At most 30 sender workers (`StateWord.ThirtyWorkersIsTheLimit`; the code admits 29).
- Encryption is any positional cipher with its inverse, the tag any function of counter and
  encrypted bytes, compression any function with an inverse.

## Findings

- Metadata ring: the size check admits messages of up to 32769 slots, but a message of 32768 slots
  or more can leave the producer waiting for ever on an empty ring
  (`MetaRing.TwoLargeMessagesDeadlock`). `meta_send` limits messages to 1 MiB, which is safe.
- Completion ring: the consumer takes its ticket before it reads, so a producer that stalls
  between drawing its ticket and storing can be overtaken by the ticket one lap later, whose record
  is then delivered in its place, or stored over and lost (`FcRing.RecordCanBeLost`). Two producers
  are enough; the ring is in order and never overwrites exactly when there is at most one, or no
  more records than slots (`FcRing.InOrderUpToIff`, `FcRing.NoOverwriteUpToIff`).
- Block sizes off the 4096-byte grid lose data when the second block lands before the first.
- Workers that decided for the unconditional fetch-add can draw numbers past the last file. Such a
  worker waits until that file is in the table (`Tickets.StrandedStays`), so for ever if there is
  none, and the join of the worker threads at the end waits with it. It happens exactly with two or
  more workers and 33 or more files (`Tickets.OvershootIff`), and never to all workers once all files
  are there (`Tickets.NotAllWait`).
- Attaching compares the state word only, which two files in the same slot can share.
- Both directions of the metadata connection send under one key, and their counters would meet if the
  client started from a counter of the server (`Wire.DirectionsDisjointIff`). The code meets the
  condition: the client has made its copy before the server can send
  (`MetaCounters.CountersAreDistinct`).
- `network_send` asks for parts that are multiples of 16 bytes (`libdtn/src/dtn.c:613`), yet data
  frames start with a part of 20 bytes (`libdtn/src/dtn.c:1070`). The model follows the code.

## Model

| member | source | states |
|---|---|---|
| Blocks.PiecesIsCeiling | libdtn/src/dtn.c:1188-1201 | the number of non-empty blocks of a file is its size divided by the block size, rounded up |
| Blocks.EofIndex | libdtn/src/dtn.c:1013-1014 | reading a block comes back empty exactly from the block count on, and every earlier block is inside the file |
| Blocks.RankStep | libdtn/src/dtn.c:1063-1074 | moving one block one stage on changes each of the three running totals by exactly that block's share, the hash by exclusive or, which Blocks.CrcParity pins bit by bit |
| Blocks.FullTotals | libdtn/src/dtn.c:1024-1030 | once every claimed block is through all stages the totals are the block count, the file size and the file's hash |
| Blocks.DataIsCut | libdtn/src/dtn.c:1188-1201 | what is read as block i is the slice of the source that starts at i times the block size |
| Blocks.CrcParity | libdtn/src/dtn.c:1063-1065 | a bit is set in a file's hash if and only if it is set in the hashes of an odd number of the block-sized slices of its source |
| Blocks.EqualBlocksCancel | libdtn/src/dtn.c:936-940 | a file of two equal blocks has hash 0 |
| Bits.NumInjective | libdtn/src/dtn.c:936-940 | 32-bit hashes are the same exactly if the numbers they travel as are |
| StateWord.WordsFaithful | libdtn/src/file_io.c:35-39 | for up to thirty workers the machine words of the phases are distinct, and the bit tests and updates of the code mean what the model says |
| StateWord.ThirtyWorkersIsTheLimit | libdtn/src/file_io.c:36-38 | with a thirty-first worker attached, beside any others, the word never comes down to FS_COMPLETE once that worker has left, and another worker takes the file for finished while it is still attached |
| SenderShare.ApplyKeeps | libdtn/src/dtn.c:992-1083 | every atomic operation of every worker keeps the sharing invariant |
| SenderShare.LastOutIsExact | libdtn/src/dtn.c:1024-1030 | when only FS_COMPLETE is left of the state word, all blocks have been claimed and counted and the record is exact |
| SenderShare.SendIsFresh | libdtn/src/dtn.c:1188-1201 | no block is ever sent twice and nothing past the end of file is sent |
| SenderShare.ExactTotals | libdtn/src/dtn.c:992-1083 | in every run of any number of workers each completion record carries the exact block count, size and hash, no file is reported twice, and a file that left the table has been reported |
| SenderShare.ReportedHash | libdtn/src/dtn.c:1024-1065 | in every run a bit is set in a reported hash if and only if an odd number of the file's blocks have it in theirs |
| SenderShare.AllCanShare | libdtn/src/file_io.c:316-329 | for every k up to the number of workers and of blocks there is a run with k workers attached to one file at once, each of which has sent a block of its own |
| SenderShare.AllBlocksSent | libdtn/src/dtn.c:1172-1204 | in every run exactly blocks of added files are sent, and all blocks of every reported file have been |
| SenderShare.NoWildAccess | libdtn/src/file_io.c:288-395 | in every run a worker that has a file finds the file in the table, with its own bit set while it works |
| Tickets.HeadIsBounded | libdtn/src/file_io.c:297-314 | in every run of p workers the head exceeds the file count by at most p - 1 |
| Tickets.BoundIsTight | libdtn/src/file_io.c:302-306 | for every p there is a run with 33 files that reaches the bound and strands all workers but one |
| Tickets.TicketsAreUnique | libdtn/src/file_io.c:302-314 | tickets are drawn without gaps and no two workers hold the same one |
| Tickets.OvershootIff | libdtn/src/file_io.c:297-314 | no run with at most n files draws a number past the last one if and only if there is at most one worker or n is at most 32 |
| Tickets.StrandedStays | libdtn/src/file_io.c:346-377 | a worker whose file number is not in the table keeps waiting, whatever the others do and whatever other files are added, in any order, until it is |
| Tickets.ArrivedFrees | libdtn/src/file_io.c:354-369 | a worker goes on exactly when its file number is in the table, whatever the count |
| Tickets.NotAllWait | libdtn/src/file_io.c:346-373 | once all files are in the table and counted some worker does not wait |
| Tickets.NotAllStranded | libdtn/src/file_io.c:346-373 | in every run at least one worker holds no ticket past the count |
| Tickets.NextTicketGoes | libdtn/src/file_io.c:297-314 | while there is a file ahead, every worker that does not wait for its file can go on to draw exactly the next ticket, whatever it had loaded before |
| AttachRace.CopyIsRightIff | libdtn/src/file_io.c:322-326 | the record copied before a successful attach is of the file in the slot if and only if the slot was not emptied and filled again in between |
| AttachRace.RunKeeps | libdtn/src/file_io.c:316-329 | in every run without such a stale attach all attached workers work on the slot's file under their own bit |
| AttachRace.StaleCopyAttaches | libdtn/src/file_io.c:322-326 | a run of two workers attaches with the record of one file to the slot of another |
| AttachRace.AgreementUpToIff | libdtn/src/file_io.c:316-329 | all runs in which the slot holds at most k files are in agreement if and only if there is at most one worker or k is at most 1 |
| AttachRace.AgreementIff | libdtn/src/file_io.c:316-329 | all runs are in agreement if and only if there is at most one worker |
| SubmitWork.MoveIsAction | libdtn/src/dtn.c:1003-1083 | each event of a worker is an enabled action of the sharing machine with the same effect on the worker |
| SubmitWork.BooksBalance | libdtn/src/dtn.c:1003-1083 | after any permitted sequence of events claimed, picked-up, counted and queued blocks balance, and the bit has been removed exactly if the worker is done |
| SubmitWork.RemovedMeansDrained | libdtn/src/dtn.c:1018-1044 | the bit is removed once, after every claimed block was picked up and every one with data counted, and no block is processed afterwards |
| SubmitWork.Worker.Submit | libdtn/src/dtn.c:992-1083 | terminates for any completion order because operations in flight decrease; returns -1 exactly on an empty queue; keeps to the protocol |
| SubmitWork.Worker.Drain | libdtn/src/dtn.c:1019-1019 | the nested loop ends with an empty queue |
| SubmitWork.Worker.GiveUp | libdtn/src/dtn.c:1024-1043 | exactly removes the bit, then copies, publishes and wipes if it was the last, and forgets the slot pointer |
| SubmitWork.Worker.FillQueue | libdtn/src/dtn.c:1188-1201 | fills the queue to its depth with fresh blocks |
| SubmitWork.Worker.Round | libdtn/src/dtn.c:1172-1204 | one round of the worker loop makes progress and never claims after end of file |
| SubmitWork.Worker.Reap | libdtn/src/engine_uring.c:108-140 | hands back any operation in flight, nothing exactly when there is none |
| SubmitWork.Worker.Retire | libdtn/src/engine_uring.c:142-152 | frees exactly that operation |
| SubmitWork.Worker.PointerGoneMeansDrained | libdtn/src/dtn.c:1018-1043 | when the slot pointer is gone the bit has been removed once, after every claimed block with data was sent and counted |
| Disk.StoreKeeps | libdtn/src/dtn.c:915-919 | storing one more block, padded with anything or skipped as zero, keeps every stored block readable and every missing one zero |
| Disk.WholeFile | src/escp/receiver.rs:482-487 | with all blocks stored, truncating to the announced size gives the source |
| Disk.ReassemblesIff | libdtn/src/dtn.c:907-919 | a file comes out whole for every arrival order and every stale padding if and only if the block size is a multiple of 4096 or the file has at most one block |
| Disk.UnalignedFails | libdtn/src/dtn.c:915-916 | at other block sizes an arrival order and padding lose a byte |
| PosixEngine.MemcmpZero | libdtn/src/file_io.c:87-114 | returns 0 exactly if all bytes are zero |
| PosixEngine.Writer.Fetch | libdtn/src/engine_posix.c:18-30 | hands out the one buffer only while no operation is pending |
| PosixEngine.Writer.Submit | libdtn/src/engine_posix.c:96-108 | writes the buffer, or leaves the file alone if it is all zero and sparse |
| PosixEngine.Writer.WriteBlock | libdtn/src/dtn.c:909-971 | a block is stored with a pad that brings it to a multiple of 4096 bytes |
| DataPlane.StepKeeps | libdtn/src/dtn.c:880-978 | every step of sender workers, network, receive workers and main thread keeps the end-to-end invariant |
| DataPlane.FullCount | src/escp/receiver.rs:464-479 | when the count is reached every block has been counted and no receive worker holds one |
| DataPlane.ClosedIsWhole | src/escp/receiver.rs:476-493 | a file closed at that moment is the source byte for byte, with the sender's hash and block count |
| DataPlane.CachedSlotIsLive | libdtn/src/dtn.c:921-931 | a worker's cached slot pointer is still the file's own slot whenever another block of the file turns up |
| DataPlane.ClosedFilesAreWhole | libdtn/src/dtn.c:907-978 | in every run every closed file is the source, with the hash and count the sender reports |
| DataPlane.NoUseAfterWipe | libdtn/src/dtn.c:921-977 | in every run no receive worker uses a slot after it is wiped |
| ReceiverControl.MergeCommutes | src/escp/receiver.rs:724-772 | a name and a block count may be merged in either order, whatever is known before |
| ReceiverControl.MergedRecord | src/escp/receiver.rs:724-772 | the record of a file whose name and count have both come, in either order, has exactly the name's fields, the count, and the count's size unless that is 0 |
| ReceiverControl.InterleavingIrrelevant | src/escp/receiver.rs:724-772 | every interleaving of names and counts leaves the same records |
| ReceiverControl.Receiver.OnFileSpec | src/escp/receiver.rs:724-772 | merges all entries, appends named files to the add queue and counted files to the close queue |
| ReceiverControl.Receiver.Turn | src/escp/receiver.rs:622-651 | opens and closes from the front of the queues, drops the closed records, counts both, and leaves exactly when the sender is done and the counts agree; Loops.ClosesWhenItCan says when it closes |
| ReceiverControl.Receiver.SendCompletions | src/escp/receiver.rs:503-527 | sends number and hash of up to 4096 closed files, last first, and removes them |
| ReceiverControl.Receiver.CloseFiles | src/escp/receiver.rs:457-501 | closes the longest ready run at the front of the queue, in order, each with its merged record and the hash from the table; Loops.ClosableIff says what ready is |
| Announcer.SortSorts | src/escp/sender.rs:1367-1367 | sorting orders the queue and keeps its entries |
| Announcer.SortIsStable | src/escp/sender.rs:1367-1367 | entries with the same number keep their order |
| Announcer.RunIsExact | src/escp/sender.rs:1372-1382 | a pass takes unnumbered entries and the next number in line, and stops at the first entry that is neither |
| Announcer.Walk | src/escp/sender.rs:1369-1382 | the loop announces exactly the run that continues the numbers sent |
| Announcer.Announcements.Receive | src/escp/sender.rs:1314-1364 | takes entries until the counter passes the limit, which then becomes 300, and keeps the counter equal to the queue length |
| Announcer.Announcements.Flush | src/escp/sender.rs:1366-1465 | announces the run at the front of the sorted queue, removes it, and keeps the counter equal to the queue length |
| Announcer.AnnouncedInOrder | src/escp/sender.rs:1366-1465 | for every arrival order and batching the announcements are 1, 2, 3, ... without gap or repetition, and nothing is lost |
| Announcer.AllAnnounced | src/escp/sender.rs:1340-1344 | once the numbers 1 to n have all arrived, exactly they have been announced and nothing is pending |
| Ledger.EnterOrigin | src/escp/sender.rs:657-688 | entering completions invents no hash |
| Ledger.SettledOnlyOnMatch | src/escp/sender.rs:632-709 | a message that settles counts each entry once, and each counted file had exactly the confirmed hash; Ledger.SettlesIff gives the converse |
| Ledger.SettlesIff | src/escp/sender.rs:632-709 | with files completed once each, a message settles if and only if every file in it has its confirmed hash in the ledger or still in the completion channel and none is in it twice |
| Ledger.EnterKeepsKnown | src/escp/sender.rs:657-688 | entering moves hashes from the channel to the ledger, loses none, and ends with the file's hash or an empty channel |
| Ledger.EnterStopsFirst | src/escp/sender.rs:657-688 | the loop enters the shortest run of completions after which the file is ready |
| Ledger.EntriesCommute | src/escp/sender.rs:1347-1352 | a file's name and its hash can be entered in either order |
| Ledger.Confirmations.OnName | src/escp/sender.rs:1347-1352 | naming a file keeps a hash that is already known |
| Ledger.Confirmations.OnFileStat | src/escp/sender.rs:632-715 | settles a confirmation message entry by entry; 1 or -1 as Ledger.SettlesIff says, also for completions still in the channel |
| Ledger.Confirmations.Await | src/escp/sender.rs:657-688 | enters completions until the file's own hash is known |
| Session.ActionKeeps | src/escp/receiver.rs:622-651 | every action of both control loops and of the data plane keeps the session invariant |
| Session.ConfirmAgrees | src/escp/sender.rs:690-709 | every confirmation that comes back is for an announced and closed file and carries the ledger's hash |
| Session.CloseIsReady | src/escp/receiver.rs:469-479 | when a file is closed its merged record holds the source's size and block count |
| Session.SessionSafe | src/escp/sender.rs:504-536 | in every run, once session_complete is sent, the files 1 to n and no others have been opened and closed, each with the source's bytes and hash; both receiver queues are empty and its counts agree |
| Session.FinishedIsSafe | src/escp/receiver.rs:648-651 | the receiver leaves its loop only when every file has arrived whole |
| Session.NoMismatch | src/escp/sender.rs:700-705 | no run ever meets a confirmation with a different hash |
| Session.LedgerConserves | src/escp/sender.rs:632-709 | in every run files confirmed plus files not yet confirmed are the files announced, confirmed files are out of the ledger and have arrived whole |
| Progress.NeverStuck | src/escp/receiver.rs:622-651 | in every reachable state with a worker on each side some thread can take a step other than numbering another file |
| Progress.EndIsInReach | src/escp/receiver.rs:622-651 | from every reachable state, without numbering a further file, some continuation lets the receiver leave its loop with every numbered file arrived whole |
| Progress.MaximalSchedulesFinish | src/escp/receiver.rs:622-651 | every schedule of the threads that cannot be continued has let the receiver leave its loop with every numbered file arrived whole |
| Progress.SchedulesAreBounded | src/escp/sender.rs:504-536 | no schedule is longer than the weight of the state it starts from, whatever the threads do |
| Progress.AlwaysMoves | src/escp/sender.rs:504-536 | until the receiver has left, some thread can take a proper step |
| Progress.TendedKeeps | libdtn/src/dtn.c:1024-1042 | a file without worker bits is down to FS_COMPLETE and always has a last worker on its way out |
| Potential.EveryStepFalls | src/escp/receiver.rs:622-651 | every step of every thread, other than numbering a file, lowers the weight of the session |
| Potential.TxFalls | libdtn/src/dtn.c:992-1083 | every step of a sender worker lowers the weight of the sender by more than it adds to the network and the completion ring |
| Loops.SettleSteps | src/escp/sender.rs:632-709 | a confirmation message that settles is a run of Enter and Confirm steps of the session with the same ledger and count |
| Loops.MessagesSettle | src/escp/sender.rs:632-709 | in every session state every message of the next confirmations settles, however far the ledger has come with entering completions |
| Loops.MessageSteps | src/escp/sender.rs:632-709 | so in every session state it is a run of Enter and Confirm steps that counts all its entries |
| Loops.SpecSteps | src/escp/receiver.rs:724-772 | a file-specification message is a run of RxItem steps with the same records and queues |
| Loops.SendSteps | src/escp/receiver.rs:503-527 | a message of k confirmations is a run of k RxSend steps, last closed first |
| Loops.ClosableIff | src/escp/receiver.rs:464-479 | the tests of close_file pass exactly when the session can close the file at the front of the queue |
| Loops.ClosesWhenItCan | src/escp/receiver.rs:457-501 | in every session state a call of close_file closes a file if and only if one can be closed |
| Loops.CloseFileSteps | src/escp/receiver.rs:457-501 | in every session state a call of close_file on the session's own table is such a run of RxClose steps, after which no file can be closed |
| Loops.CloseSteps | src/escp/receiver.rs:457-501 | a call of close_file is a run of RxClose steps, as many as it closes, with the confirmations of the records it returns, and goes on until no file can be closed |
| Loops.BatchSteps | src/escp/sender.rs:1314-1465 | a batch is a run of Receive and Announce steps that leaves the same names pending and sends the same announcements |
| MetaRing.StepKeeps | libdtn/src/dtn.c:437-488 | every load and store of producer and consumer keeps the ring invariant |
| MetaRing.WriteKeepsLayout | libdtn/src/dtn.c:464-486 | a write beyond the published head and within a lap of the tail disturbs no live message |
| MetaRing.GuardGivesRoom | libdtn/src/dtn.c:472-479 | passing the wait, even with an old tail, means the message ends strictly within a lap |
| MetaRing.WaitsIff | libdtn/src/dtn.c:464-479 | with the tail at hand the producer waits if and only if the message would end a lap or more beyond it |
| MetaRing.SlotsIsCeiling | libdtn/src/dtn.c:458-458 | a message takes the fewest slots that hold it and its header |
| MetaRing.RingIsFifo | libdtn/src/dtn.c:437-488 | in every interleaving messages come out whole, once and in order; head minus tail stays below 65536; a held pointer shows the next message for as long as it is held |
| MetaRing.RingDrains | libdtn/src/dtn.c:729-754 | from every reachable state the consumer alone can take everything that was sent |
| MetaRing.ProducerGetsThrough | libdtn/src/dtn.c:464-481 | from every reachable state a waiting producer with a message of up to 32767 slots can go on after some continuation |
| MetaRing.DrainedProgressIff | libdtn/src/dtn.c:458-479 | a drained ring accepts a message of n slots at every head position if and only if n is at most 32767 |
| MetaRing.StuckIff | libdtn/src/dtn.c:464-479 | the exact head positions at which a drained ring blocks |
| MetaRing.SentSizesProgress | libdtn/src/dtn.c:786-786 | the 1 MiB limit of meta_send is below the bound |
| MetaRing.TwoLargeMessagesDeadlock | libdtn/src/dtn.c:462-479 | two messages that pass the size check leave an empty ring and a producer that waits for ever |
| MetaBuffer.Buffer.Reserve | libdtn/src/dtn.c:464-470 | writes the wrap marker and moves to slot 0 exactly when the message would reach the end |
| MetaBuffer.Buffer.TryCopy | libdtn/src/dtn.c:472-481 | one round of the wait loop: copies the header exactly if the guard allows |
| MetaBuffer.Buffer.Load | libdtn/src/dtn.c:483-486 | puts the decrypted payload behind the header |
| MetaBuffer.Buffer.Release | libdtn/src/dtn.c:601-604 | the message joins the end of the queue |
| MetaBuffer.Buffer.Recv | libdtn/src/dtn.c:729-745 | nothing exactly if the queue is empty, else a slot that shows its first message |
| MetaBuffer.Buffer.Complete | libdtn/src/dtn.c:747-754 | the message just read leaves the queue |
| FcRing.StepKeeps | libdtn/src/dtn.c:75-125 | every step that does not overtake keeps the ring invariant |
| FcRing.ClearMeansDelivered | libdtn/src/dtn.c:83-92 | a clear slot means the ticket one lap earlier was delivered, unless it was never stored |
| FcRing.DeliveredInOrder | libdtn/src/dtn.c:75-125 | in every run without overtaking, records are delivered once each in ticket order and never stored into a full slot |
| FcRing.AlwaysMoves | libdtn/src/dtn.c:75-125 | while a record is undelivered there is a step, neither a new record nor one that overtakes, that brings the next delivery closer |
| FcRing.EverythingArrives | libdtn/src/dtn.c:75-125 | every run without overtaking can be continued, without new records and without overtaking, until all its records are delivered |
| FcRing.ConsumerClaimsEarly | libdtn/src/dtn.c:104-114 | the consumer draws its ticket before it looks at the head |
| FcRing.OvertakingMisdelivers | libdtn/src/dtn.c:83-101 | from every orderly state an overtaking step can be followed by the delivery of the wrong record |
| FcRing.InOrderIff | libdtn/src/dtn.c:75-125 | all runs deliver in ticket order if and only if there is at most one producer |
| FcRing.InOrderUpToIff | libdtn/src/dtn.c:75-125 | all runs with at most k records deliver in ticket order if and only if there is at most one producer or k is at most the number of slots |
| FcRing.NoOverwriteUpToIff | libdtn/src/dtn.c:89-101 | all runs with at most k records never store into a full slot under the same condition |
| FcRing.NoOverwriteIff | libdtn/src/dtn.c:89-101 | no run stores into a full slot if and only if there is at most one producer |
| FcRing.RecordCanBeLost | libdtn/src/dtn.c:83-101 | with two producers and a ring of any size a run loses a stored record |
| FcRing.AtIsRemainder | libdtn/src/dtn.c:78-78 | the slot of a ticket is its remainder by the ring size |
| Bits.BitsAddUp | libdtn/src/file_io.c:177-182 | the bit sets on which the probe generator is modelled are those of the 64-bit number |
| Bits.ShiftLaws | libdtn/src/file_io.c:178-180 | on those sets a shift to the right divides the 64-bit number by the power of two and a shift to the left multiplies it in 64 bits |
| Probing.ScrambleInverts | libdtn/src/file_io.c:177-182 | the generator can be undone for every 64-bit number, by the inverse of its multiplier and folds by 27 and 54, 25 and 50, and 12, 24 and 48 |
| Probing.FirstProbes | libdtn/src/file_io.c:201-203 | the walk of file 1 starts at slot 1309 and that of file 2049 at slot 1821 |
| Probing.WalkGoesOn | libdtn/src/file_io.c:201-203 | each round goes on from the number the round before made, and its low 11 bits are the slot |
| TableSteps.StepKeeps | libdtn/src/file_io.c:195-285 | every lane, compare-and-swap, retry and wipe of every thread keeps the table invariant, also when a file is wiped that nobody claimed |
| TableSteps.OneFileKeeps | libdtn/src/file_io.c:195-285 | a step on one slot and one file leaves all other slots, files and threads in order |
| TableMap.TableIsMap | libdtn/src/file_io.c:233-246 | in every run the 22-step walk finds exactly the files stored and not wiped, each in its slot |
| TableMap.OnlyOwnStepsMove | libdtn/src/file_io.c:195-285 | only the last lane of a file's own insertion or wiping changes what a lookup of it finds |
| TableMap.InsertsAreDisjoint | libdtn/src/file_io.c:201-208 | concurrent insertions never share a slot nor hit one that holds a file |
| TableMap.RefusedOnlyWhenBusy | libdtn/src/file_io.c:201-213 | an insertion is refused only after each of the 22 slots on its walk was seen occupied |
| TableMap.SureWalksMeet | libdtn/src/file_io.c:349-373 | a lookup that starts while the file is in the table does not end without meeting it |
| TableMap.SettledSlotIsRight | libdtn/src/file_io.c:239-243 | a slot whose file number matches is the file's own slot |
| TableMap.FirstClaimIsWhole | libdtn/src/file_io.c:358-369 | whoever wins the first claim holds exactly the record that was added, and a slot is free only with all lanes zero |
| TableMap.FirstClaimIsUnique | libdtn/src/file_io.c:363-369 | a file is claimed for the first time at most once |
| TableMap.ZeroIsFoundInEmptyTable | libdtn/src/file_io.c:233-246 | number 0 must not be used: a lookup of it finds a free slot |
| TableLife.InsertEnds | libdtn/src/file_io.c:201-231 | from any state an insertion left to itself ends with its record in the first free slot of the rest of its walk, or refused if there is none, and changes nothing else |
| TableLife.LookupEnds | libdtn/src/file_io.c:237-246 | from any state a lookup left to itself ends at the slot that the walk over the table finds, or without one |
| TableLife.ClaimsFirst | libdtn/src/file_io.c:354-369 | a worker that comes to the initial record of its file copies it whole and opens the slot |
| TableLife.WipesClean | libdtn/src/dtn.c:1039-1039 | a wipe leaves a free slot with all lanes zero and takes the file out of the table |
| TableLife.OneLife | libdtn/src/file_io.c:195-231 | every file can be added to a new table, claimed with exactly its record and wiped, after which the table is as before |
| FileStat.FileStats.AddFile | libdtn/src/file_io.c:195-231 | fills the first free slot of the walk and changes nothing else; refuses exactly when all 22 are taken; the walk is that of Probing.WalkGoesOn and Probing.ScrambleInverts |
| FileStat.FileStats.GetStats | libdtn/src/file_io.c:233-246 | returns what the walk over the generator's slots finds |
| FileStat.AddedIsFound | libdtn/src/file_io.c:195-246 | what is added is found in the slot it was put in |
| MetaLock.FramesStayWhole | libdtn/src/dtn.c:775-821 | in every run of any number of threads the lock counts threads inside and backing off, at most one is inside, the stream is whole frames followed at most by the start of that thread's frame, and every frame handed in was finished or is still held |
| MetaLock.EveryFrameGetsOut | libdtn/src/dtn.c:775-821 | from every reachable state the frame of any thread can still get out, whatever the other threads have begun |
| Wire.HeaderRoundTrip | src/escp.rs:121-128 | header size and type are read back, also by the C side, and only type 0x430B is taken for BYE |
| Wire.LeDigits | libdtn/src/dtn.c:623-643 | byte i of a number on the wire is its digit of weight 256 to the i |
| Wire.BlockHead | libdtn/include/file_io.h:124-128 | a data frame starts with 8 bytes of offset, 8 of file number and 4 of size with the compression mark on top |
| Wire.ByeIsAlone | src/escp.rs:48-55 | no message type of the protocol, compressed or not, is taken for BYE |
| Wire.IvAdvances | libdtn/src/dtn.c:623-636 | every header counts one further and shows its direction and type |
| Wire.NoncesAreDistinct | libdtn/src/dtn.c:621-658 | no two frames of a connection share a counter |
| Wire.DirectionsDisjointIff | libdtn/src/dtn.c:621-636 | the counters of client and server never meet if and only if the client starts without the direction bit or one side has used up its counters |
| Wire.CopiedCounterCollides | libdtn/src/dtn.c:387-387 | what the order of the first frames rules out: a client that took over the server's counter would repeat its next one at once |
| MetaCounters.CountersAreDistinct | libdtn/src/dtn.c:790-821 | in every run of sends and receives of both ends no two frames of the metadata connection share a counter |
| MetaCounters.ClientStartsClean | libdtn/src/dtn.c:424-428 | in every run the client copies the counter 0, before any frame of the server exists |
| MetaCounters.FirstExchange | libdtn/src/dtn.c:790-821 | there is a run in which the client sends counters 1 and 2 and the server, in between, 2 with bit 63 set |
| Wire.ParseFrame | libdtn/src/dtn.c:365-607 | a frame is read back as the message it was made of |
| Wire.ParseTagged | libdtn/src/dtn.c:579-598 | with any 16 bytes in the place of the tag, the message is delivered if they are the tag of the encrypted bytes and refused if they are not |
| Wire.DeliveredIsTagged | libdtn/src/dtn.c:579-598 | whatever bytes arrive, a message is delivered only from bytes that end in the tag of what stands between counter and tag |
| Wire.NothingInClear | libdtn/src/dtn.c:672-675 | every byte of head and payload goes through the cipher at its own position |
| Wire.WireRoundTrip | libdtn/src/dtn.c:365-607 | however many bytes of a connection have arrived, the receiver has a prefix of the messages sent, and all of them once all bytes have |
| Wire.PackUnpack | libdtn/src/engine_posix.c:118-137 | a block is sent compressed exactly if that makes it shorter and not empty, and comes back the same |
| WireIo.Pipe.WriteFixed | libdtn/src/dtn.c:236-258 | short writes add up to all bytes |
| WireIo.Pipe.ReadFixed | libdtn/src/dtn.c:236-254 | short reads add up to exactly the bytes asked for, or fail when too few come |
| WireIo.TwoParts | libdtn/src/dtn.c:808-818 | a frame sent in two parts is the frame sent in one |
| WireIo.Sender.Send | libdtn/src/dtn.c:609-710 | the counter once per frame, the sealed part, and the tag of all parts after the last |
| WireIo.Sender.SendMessage | libdtn/src/dtn.c:808-818 | one whole frame goes out, in one part or two |
| WireIo.Sender.SendAll | libdtn/src/dtn.c:609-710 | the bytes of all messages are the stream of the wire format, up to the first counter that fails the check |
| WireIo.ReceiveAll | libdtn/src/dtn.c:365-607 | the messages received are all that the stream format yields from the bytes that arrive, each with its tag (Wire.DeliveredIsTagged) |
| WireIo.Receive | libdtn/src/dtn.c:365-607 | the next message, or short, or refused for its tag as Wire.ParseTagged says, for every way reads are split |

## Left out

- AES-GCM, BLAKE3, zstd, flatbuffers and the concurrency kit: library code, used as arbitrary functions.
- Sockets, SSH, port binding, affinity, timeouts and back-off: waits are guards of steps.
- The exit handshake of the directory walk: it depends on timeouts.
- BYE frames of data connections in the receiver's metadata ring: the ring model ends before them.
- The log rings, progress display, command line and configuration: no lasting claims.
- Error paths that end the process, except the checks on message size, counter and hash.
- File attributes, paths, links and empty directories: carried along or not modelled.
- The shared-memory and dummy engines.
- Session: messages with several entries are taken apart into their entries, and the metadata
  connection is a FIFO queue, as `MetaRing`, `MetaLock` and `Wire` provide; the capacity of the
  completion ring, the metadata ring and the file table is not part of it. `Session` and `Progress`
  assume that no ticket of the completion ring is overtaken, which `FcRing.InOrderUpToIff` proves for
  up to 16384 files; beyond that a lost record would leave its file unconfirmed for ever.
- DataPlane.DoRxSize: the receiver's byte total includes padding and only feeds a log line, so
  nothing is claimed about it.
- SenderShare: the last worker's copy of the record is one step, and so is each round of
  close_file in `DataPlane`, since nobody else touches the slot at that point; `FileTable` has the
  lanes.
- Progress: workers stranded by `Tickets` are not part of it; there any idle worker may claim any
  file.
- SubmitWork.Worker: the descriptor that the queue-depth engine closes is not modelled.
- FcRing: what happens after an overtaking step is followed only as far as the wrong delivery or the
  lost record.
