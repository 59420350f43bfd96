# SaunaFS chunkserver data path and ACLs: a verified model

A Dafny model of the part of SaunaFS where data is at risk: the buffered write path of the
chunkserver with its early acknowledgements, reads patched from the already-replied registry,
the wire format and chain forwarding, the job pools with the chunk-lock protocol, truncation
and duplication of chunks, the buffer pools, and the access control lists with their two codecs.

`dafny verify dfyconfig.toml` checks everything.

## How it is built

Code that updates state in place is modelled as it is: classes with fields, loops and
`modifies` clauses. Their methods are proved equal to steps of state machines written as
functions, or directly to a specification of the result, and the theorems are about every run
of these state machines.

| files | what they hold |
|---|---|
| `ChunkTypes` | bytes, statuses, writes, and the chunk content a sequence of writes leaves |
| `WriteOp` | the write operation with its connection, registry, pool, credit, worker job and lock as a state machine; `Enabled` says which events can happen |
| `StoreInv`, `ClientInv`, `WriteInv`, `WriteSteps`, `WriteEvents`, `WriteRuns` | its invariant and the proof that every event keeps it |
| `WriteTheorems`, `WriteClosing`, `WriteOrder`, `WriteSealed`, `ConnectionClose` | durability, closing, order of acknowledgements, sealing and aliasing, giving up a connection |
| `WriteLate`, `WriteStatuses`, `WriteWitness` | callbacks that outlive their operation, acknowledgements of unwritten blocks, the first steps of concrete runs |
| `WriteAnswers`, `WriteTurns` | what the master and the client are told, by the events of a run; what each call does in any state |
| `WriteCredit`, `WritePool`, `WriteServer` | credit and buffers of one operation, then of all operations of a server that share counter and pool |
| `WriteHighLevelOp` | the object, each method proved to be its step of `WriteOp` |
| `JobWrite`, `HddWrite`, `WriteDisk` | merging and running writes, the chunk file with its CRC table under block writes, the file a run leaves |
| `ReadPatch`, `HddRead`, `ReadYourWrites` | patching from the registry, `hddRead`, what it returns in the middle of a run |
| `OutputBuffers`, `Forwarding` | in-place splicing and flushing, relaying of packets |
| `JobPools`, `JobPoolInv`, `JobPoolRuns`, `JobPoolTheorems`, `JobPoolDrain`, `JobPoolAnswers`, `MasterJobPool` | the pools as a state machine, its invariant and theorems, the status each job is answered with, the object |
| `ChunkLocks`, `ChunkOrder` | what a chunk lock holds back, and the order in which jobs reach the queue |
| `ReadOp`, `ReadInv`, `ReadResults`, `ReadHighLevelOp` | the read operation, likewise |
| `ChunkFiles`, `Hdd` | truncation and its CRC table; create, truncate, duplicate and duplicate-truncate with every disk call able to fail |
| `BuffersPool` | the buffer pool |
| `Acl`, `AccessControlList`, `AclText`, `AclXattr` | the sorted list as a map, the object, the two codecs |

CRC32 is a parameter, any function from bytes to numbers; the CRC of a zero-expanded block is
that of the bytes followed by zeros, and where the code combines CRCs, that of a concatenation
follows from those of its parts (`HddWrites.Checksum`). Disk calls, sockets, pool decisions and
the interleaving of threads are free: parameters, scripts or events. Mutex-protected methods, one
write operation of a worker and one `hddRead` are single steps.

The write path relies on what its peers promise, stated in `WriteOp.Enabled`: a client uses no
write id twice and never the id 0 (which marks the open job), the next server reports an id at
most once, `delayedClose` is called at most once, and `cleanup` only on a completed operation or
after a drained close. In the job pools the work of a submission is its number; works are names
only, so this restricts no run.

## Where the code differs from what it promises

Each of these is proved, with the exact condition under which the promise holds and a concrete
run or input where it does not.

- Giving up a connection while a read is being discarded skips `delayedClose` of its write
  operations; acknowledged blocks can then be lost with the lock ended OK, and the buffer of a
  queued job goes to the pool (`ConnectionClose.AppliedClosedDurable`, `JobBufferGivenAway`,
  `ReadPendingLoses`).
- `writeEnd` and `everyLoopUpdateWrite` clean up and destroy a completed operation whose open job
  still has a callback on it; the lock has then ended with OK although the open may fail
  (`WriteLate.OrphanedIff`, `OrphanedRun`).
- A sealed operation can still report the failure of an open job that was pending when it was
  sealed (`WriteLate.SealedIsSilent`, `SealedMaySpeak`).
- After a replied block fails, the later unreplied blocks of the same buffer keep the initial
  status OK and are acknowledged although not written; the master is told of the failure, so
  `Durability` stands (`WriteStatuses.MisleadsIff`, `MisleadingRun`).
- The counter of unprocessed jobs goes down for lock jobs, which were never counted
  (`JobPoolTheorems.CounterLags`, `CounterGoesWrong`).
- `addJobIfNotLocked` adds a job after it has left the mutex: one that passed the check before the
  lock was enforced, like one an earlier release is still adding, reaches the queue while its
  chunk is locked (`ChunkLocks.EnforcedShutIff`, `Races`).
- A job submitted between the release of a chunk lock and the adding of its deferred jobs can
  overtake these, and so can a second release of the same chunk (`ChunkOrder.OvertakingIff`,
  `SubmissionOrder`, `Overtakes`, `Interleaves`); the jobs of one lock stay in order
  (`ReleasedInOrder`).
- The header of every block of a read job but the first announces a full block
  (`ReadHighLevelOps.HeadersRightIff`, `IssuedHeaders`, `WrongHeader`).
- A read of a block or more that is not aligned is read as if it were, and reads its first bytes
  again where the file ends (`HddReads.FetchedIff`, `ReadAgain`).
- A shrink at a block boundary leaves the CRCs of the blocks cut off in the table, where a read
  behind the end expects those of empty blocks; a truncated copy does so at any length
  (`ChunkFiles.TailEmptyIff`, `CopyTailIff`, `HddReads.ReadBehindTruncated`, `ReadBehindCopy`,
  `StaleEntry`).
- A named ACL entry with id 0xFFFFFFFF is printed but not read back (`AclText.TextRoundTrip`,
  `UndefinedIdLost`).

Three more are part of the contracts: `hddIOEnd` keeps the reference when writing the CRCs fails,
so that reference counts are balanced up to these (`Hdds.Hdd.IoEnd`, `leaks`); `renameChunkFile`
that fails half way leaves the registry naming a metadata file that has moved
(`Hdds.Hdd.Rename`); and `hddInternalDuplicate` with a new version renames the files of the new
chunk, which do not exist yet, and so always fails (`Hdds.Hdd.Duplicate`).

## Model

| member | source | states |
|---|---|---|
| `WriteRuns.StepInv` | src/chunkserver/chunk_high_level_ops.cc:333-778 | every event of a write operation (network, worker, callback, close, cleanup, credit and pool moves) keeps the invariant: order of replies, registry, credit, job, history, lock and pending count |
| `WriteRuns.RunInv` | src/chunkserver/chunk_high_level_ops.cc:333-778 | the invariant holds after every run, whatever the order of events and whichever disk writes fail |
| `WriteTheorems.Durability` | src/chunkserver/chunk_high_level_ops.cc:673-707 | in every run, if the chunk lock ends with OK then every block whose OK the client received is on disk, and the blocks on disk are in arrival order |
| `WriteTheorems.AckedIsKept` | src/chunkserver/chunk_high_level_ops.cc:436-490 | at every point an acknowledged block is on disk, or in a registered buffer, or a non-OK status is kept for the master |
| `WriteTheorems.WrittenInOrder` | src/chunkserver/chunk_high_level_ops.cc:392-413 | the blocks on disk are a subsequence of the received blocks, in arrival order |
| `WriteTheorems.WriteThrough` | src/chunkserver/chunk_high_level_ops.cc:709-722 | without a chunk lock, and for standard slices, the client gets no OK before the block is on disk |
| `WriteOrder.DurablePrefix` | src/chunkserver/chunk_high_level_ops.cc:622-707 | if the lock ends with OK and no error was reported, the blocks on disk are exactly a prefix of the received blocks |
| `WriteOrder.AcksInOrder` | src/chunkserver/chunk_high_level_ops.cc:743-765 | until the first error the OKs issued are those of the first received blocks, in arrival order |
| `WriteOrder.AcksOnce` | src/chunkserver/chunk_high_level_ops.cc:349-372 | in any run no write id is acknowledged twice, neither by the local worker nor to the client |
| `WriteOrder.ChainAgrees` | src/chunkserver/chunk_high_level_ops.cc:349-372 | in a forwarding chain the client has OK for an id exactly when both the local write and the next server reported it, in either order |
| `WriteOrder.ToldAtOnce` | src/chunkserver/chunk_high_level_ops.cc:349-372 | without a chain the client is told the local OKs in the order issued, and all of them while the write is served |
| `WriteSealed.NoAliasing` | src/chunkserver/hddspacemgr.cc:653-695 | in every reachable state a live buffer is registered exactly when it has replied blocks, its snapshot describes exactly these, and it is not in the pool |
| `WriteSealed.RegistryOwned` | src/chunkserver/chunk_high_level_ops.cc:679-693 | every registry entry refers to a buffer the operation still owns, never to one in the pool |
| `WriteSealed.RunningJobOwned` | src/chunkserver/chunk_high_level_ops.cc:392-413 | the buffer a queued or running write job works on is the oldest one of the operation and not in the pool |
| `WriteSealed.RepliedInBufferOrder` | src/chunkserver/chunk_high_level_ops.cc:743-765 | in every run a buffer has replied blocks only if all earlier buffers are fully replied |
| `WriteClosing.DroppedUnacked` | src/chunkserver/chunk_high_level_ops.cc:622-671 | no block dropped by delayedClose or cleanup was ever acknowledged |
| `WriteClosing.CloseKeepsAcked` | src/chunkserver/chunk_high_level_ops.cc:622-671 | delayedClose keeps all acknowledged blocks and accounts for every other block as kept or dropped, in order |
| `WriteClosing.PendingCounts` | src/chunkserver/chunk_high_level_ops.cc:374-390 | after a close, the pending count is what it was less the callbacks run since, and equals the buffers left when no open job is pending |
| `WriteClosing.DrainGoesOn` | src/chunkserver/chunk_high_level_ops.cc:485-490 | while buffers are pending in a close a write job is under way and its next step can happen |
| `WriteClosing.ClosingStep` | src/chunkserver/chunk_high_level_ops.cc:374-390 | while closing nothing is acknowledged, received or reported, and each callback lowers the pending count by one |
| `WriteCredit.StepBalance` | src/chunkserver/chunk_high_level_ops.cc:734-740 | every step of an operation keeps available credit plus the credit of its live buffers |
| `ConnectionClose.DrainedIsDurable` | src/chunkserver/chunkserver_entry.cc:651-676 | cleanup after a drained delayedClose never loses an acknowledged block |
| `WriteHighLevelOps.WriteHighLevelOp.constructor` | src/chunkserver/chunk_high_level_ops.cc:529-538 | setup: the initial state of the state machine, with the open job queued |
| `WriteHighLevelOps.WriteHighLevelOp.UpdateUsingWriteStatusAndReply` | src/chunkserver/chunk_high_level_ops.cc:349-372 | a local OK is told at once, or matched with that of the next server; an error is always told and ends the connection |
| `WriteHighLevelOps.WriteHighLevelOp.ReplyRest` | src/chunkserver/chunk_high_level_ops.cc:734-740 | the reply loop: OK for each block not yet replied, in order, and the buffer fully replied |
| `WriteHighLevelOps.WriteHighLevelOp.InsertReplied` | src/chunkserver/hddspacemgr.cc:653-681 | registers a buffer at its first reply, replaces its snapshot later |
| `WriteHighLevelOps.WriteHighLevelOp.RemoveReplied` | src/chunkserver/hddspacemgr.cc:683-695 | removes the entry of a buffer from the registry and keeps the others in order |
| `WriteHighLevelOps.WriteHighLevelOp.BufferLevelInstantReply` | src/chunkserver/chunk_high_level_ops.cc:726-741 | registration, credit and replies of one buffer together |
| `WriteHighLevelOps.WriteHighLevelOp.TryInstantReply` | src/chunkserver/chunk_high_level_ops.cc:709-766 | the in-place loops over the buffers are the functional step: oldest first, up to a buffer being received or beyond the credit |
| `WriteHighLevelOps.WriteHighLevelOp.StartNextWriteJob` | src/chunkserver/chunk_high_level_ops.cc:392-413 | starts the front buffer when no job is under way |
| `WriteHighLevelOps.WriteHighLevelOp.WriteCurrentInputPacket` | src/chunkserver/chunk_high_level_ops.cc:415-418 | moves the input buffer to the end of the queue and starts a job if there is none |
| `WriteHighLevelOps.WriteHighLevelOp.ContinueWritingIfPossible` | src/chunkserver/chunk_high_level_ops.cc:420-434 | the step after a finished buffer |
| `WriteHighLevelOps.WriteHighLevelOp.PrepareForNewWriteData` | src/chunkserver/chunk_high_level_ops.cc:510-547 | hands a full input buffer on and takes a new one whose size doubles up to the limit |
| `WriteHighLevelOps.WriteHighLevelOp.ProcessWriteDataBlock` | src/chunkserver/chunk_high_level_ops.cc:549-559 | a received block joins the input buffer, is replied if it may be, and is written if no job runs or the buffer is full |
| `WriteHighLevelOps.WriteHighLevelOp.TrySeal` | src/chunkserver/chunk_high_level_ops.cc:575-616 | seals exactly when every buffer is fully replied and no write waits for the next server |
| `WriteHighLevelOps.WriteHighLevelOp.ConsumeStatuses` | src/chunkserver/chunk_high_level_ops.cc:470-483 | the status loop: replied blocks feed the untold status, unreplied ones are answered until the first error |
| `WriteHighLevelOps.WriteHighLevelOp.WriteFinishedCallback` | src/chunkserver/chunk_high_level_ops.cc:436-490 | the whole callback is the step of the state machine |
| `WriteHighLevelOps.WriteHighLevelOp.OpenWriteFinishedCallback` | src/chunkserver/chunk_high_level_ops.cc:492-508 | the open callback: failure is told, success starts the writing |
| `WriteHighLevelOps.WriteHighLevelOp.CloseInputBuffer` | src/chunkserver/chunk_high_level_ops.cc:638-653 | delayedClose keeps the input buffer only if it has replied blocks |
| `WriteHighLevelOps.WriteHighLevelOp.DropUnrepliedBuffers` | src/chunkserver/chunk_high_level_ops.cc:655-660 | drops unreplied buffers from the back, never the one being written |
| `WriteHighLevelOps.WriteHighLevelOp.DelayedClose` | src/chunkserver/chunk_high_level_ops.cc:622-671 | delayedClose in both cases, with the pending count |
| `WriteHighLevelOps.WriteHighLevelOp.DelayedCloseCallback` | src/chunkserver/chunk_high_level_ops.cc:379-390 | the redirected callback of the open job |
| `WriteHighLevelOps.WriteHighLevelOp.DropBuffers` | src/chunkserver/chunk_high_level_ops.cc:679-693 | the cleanup loops: every buffer leaves the registry and its credit returns |
| `WriteHighLevelOps.WriteHighLevelOp.CleanUp` | src/chunkserver/chunk_high_level_ops.cc:673-707 | cleanup, with the close job or the end of the lock |
| `WriteHighLevelOps.WriteHighLevelOp.CloseWriteCallback` | src/chunkserver/chunk_high_level_ops.cc:768-778 | the lock ends with the untold status if there is one, and otherwise with the status of the close; without a lock nothing ends |
| `JobWrite.GetWriteOperations` | src/chunkserver/io_buffers.cc:341-371 | the merged operations are the received writes in order, each with its own data and CRC, and no two neighbours could still be merged |
| `JobWrite.StoredBlocks` | src/chunkserver/bgjobs.cc:686-723 | storing m contiguous full blocks at once is storing the m writes one by one |
| `JobWrite.RunOperation` | src/chunkserver/bgjobs.cc:678-739 | one operation: exactly how many writes the disk took under each of its answers, with OK for these and its own status, or EIO for a short write, for the first one it did not take |
| `JobWrite.RunJob` | src/chunkserver/bgjobs.cc:670-749 | the chunk holds exactly the first writes up to the operation the disk did not take completely, applied one by one in order; the statuses are OK for these and the next one is that of this operation |
| `JobWrite.ApplyStatuses` | src/chunkserver/io_buffers.cc:373-381 | a status for each write; those behind the last status keep OK |
| `JobWrite.JobStatuses` | src/chunkserver/io_buffers.cc:373-392 | the statuses a finished job leaves are those the write callback of the state machine consumes |
| `ReadPatch.PatchOne` | src/chunkserver/hddspacemgr.cc:727-768 | patching one write into a read applies its bytes exactly where read and write overlap and renews that block's CRC over its own length |
| `ReadPatch.PatchRead` | src/chunkserver/hddspacemgr.cc:705-770 | patching all registered blocks is applying them in order, and CRCs that matched still match |
| `ReadPatch.PatchedByteAt` | src/chunkserver/hddspacemgr.cc:697-770 | each byte of a patched read is the byte of the chunk after these writes |
| `ReadPatch.UpdateInterval` | src/chunkserver/io_buffers.cc:167-174 | writes exactly the interval of the block data and nothing else |
| `ReadYourWrites.ReadByte` | src/chunkserver/hddspacemgr.cc:930-1061 | while no write failed, a read shows the chunk after all acknowledged blocks or after some later ones in flight, and exactly the former if the disk is not ahead |
| `ReadYourWrites.ReadsAcknowledged` | src/chunkserver/hddspacemgr.cc:697-770 | the same for every read in every run, with every acknowledged id among the blocks shown |
| `ReadYourWrites.AckedWithin` | src/chunkserver/chunk_high_level_ops.cc:709-766 | every acknowledged block is among the first processed and registered ones |
| `ReadYourWrites.WalkFinds` | src/chunkserver/hddspacemgr.cc:653-695 | walking the registry meets exactly the acknowledged blocks still in buffers, in order, each described by its snapshot |
| `ReadYourWrites.EndedContent` | src/chunkserver/chunk_high_level_ops.cc:673-707 | once the lock has ended with OK and no error was reported, the chunk on disk is byte for byte that after the first n received blocks, and every block the client was told OK is among these |
| `OutputBuffers.Buffer.PrependFrom` | src/chunkserver/io_buffers.h:66-71 | bytes copied in front of the unflushed ones, over flushed ones only |
| `OutputBuffers.Buffer.CopyIntoBuffer` | src/chunkserver/io_buffers.h:77-82 | appends behind the unflushed bytes |
| `OutputBuffers.Buffer.ReadFrom` | src/chunkserver/io_buffers.h:123-130 | what arrives is appended |
| `OutputBuffers.Buffer.WriteTo` | src/chunkserver/io_buffers.h:132-139 | what is accepted leaves the front |
| `OutputBuffers.Buffer.Clear` | src/chunkserver/io_buffers.h:142-145 | empties the buffer |
| `OutputBuffers.OutputBuffer.Splice` | src/chunkserver/io_buffers.cc:58-68 | header and CRC of the next block are spliced in front of it in place; the bytes still to be sent are the same |
| `OutputBuffers.OutputBuffer.WriteOut` | src/chunkserver/io_buffers.cc:53-81 | for any short writes, accepted plus unsent bytes stay the same sequence header, CRC, block, header, CRC, block ...; Done exactly when nothing is left, otherwise only once the descriptor refused |
| `OutputBuffers.OutputBuffer.WriteOften` | src/chunkserver/io_buffers.cc:53-81 | over any number of calls the accepted bytes are a prefix of that sequence, and all of it once Done |
| `OutputBuffers.InterleaveSnoc` | src/chunkserver/io_buffers.cc:43-81 | behind full blocks the next block with header and CRC comes last on the wire |
| `Forwarding.Relay.ReadFromSocket` | src/chunkserver/io_buffers.cc:203-234 | header bytes first, then payload; exactly what the socket gave, nothing before it changed |
| `Forwarding.Relay.ReadData` | src/chunkserver/chunkserver_entry.cc:887-913 | what is received is appended to the packet and counted as to be forwarded |
| `Forwarding.Relay.WriteToSocket` | src/chunkserver/io_buffers.cc:236-265 | header bytes first, then payload; exactly what the next server accepted |
| `Forwarding.Relay.WritePacket` | src/chunkserver/chunkserver_entry.cc:915-937 | what the next server accepts is appended to what was sent |
| `Forwarding.Relay.SentPrefix` | src/chunkserver/chunkserver_entry.cc:887-937 | the bytes sent on are a prefix of the bytes received, and the forward counter is the difference |
| `JobPoolRuns.RunInv` | src/chunkserver/bgjobs.cc:124-377 | the invariant of the pools (places, listeners, locks, states, log, counter) holds after every run |
| `JobPoolTheorems.OneCompletion` | src/chunkserver/bgjobs.cc:124-148 | in every run each job ever added is outstanding in exactly one place, or was completed once, or is a held or erased lock job; only one of these |
| `JobPoolTheorems.DisabledNeverRuns` | src/chunkserver/bgjobs.cc:289-335 | a job disabled before a worker takes it never runs and completes only with NOTDONE |
| `JobPoolTheorems.CounterLags` | src/chunkserver/bgjobs.cc:233-255 | the unprocessed counter is the number of outstanding ordinary jobs less the completed lock jobs, hence right if and only if no lock job completed |
| `JobPoolTheorems.DrainFindsStatus` | src/chunkserver/bgjobs.cc:337-377 | a listener's eventfd is readable exactly when statuses wait for it, so a drain begun on it always finds one |
| `ChunkLocks.LockStatusComesLast` | src/chunkserver/bgjobs.cc:516-529 | a lock held or still releasing its jobs has no status posted, completed or erased |
| `MasterJobPools.MasterJobPool.AddJob` | src/chunkserver/bgjobs.cc:124-148 | addJob is the step of the pool: the job goes to the end of the queue under the next ticket of its listener, an unknown one being replaced by the first |
| `MasterJobPools.MasterJobPool.StartChunkLock` | src/chunkserver/bgjobs.cc:460-476 | registers one lock job per chunk; a second request is ignored |
| `MasterJobPools.MasterJobPool.EnforceChunkLock` | src/chunkserver/bgjobs.cc:478-492 | from now on jobs of the chunk are deferred |
| `MasterJobPools.MasterJobPool.AddPending` | src/chunkserver/bgjobs.cc:494-514 | the loop adding all deferred jobs |
| `MasterJobPools.MasterJobPool.EndChunkLock` | src/chunkserver/bgjobs.cc:516-529 | the deferred jobs are added, then the lock's own listener, and no other, has the status the lock is ended with as its last one |
| `MasterJobPools.MasterJobPool.EraseChunkLock` | src/chunkserver/bgjobs.cc:531-553 | the deferred jobs are added and the lock job goes; no listener gets a status |
| `MasterJobPools.MasterJobPool.DisableJobs` | src/chunkserver/bgjobs.cc:209-231 | exactly the jobs still enabled are disabled and reported |
| `MasterJobPools.MasterJobPool.TakeJob` | src/chunkserver/bgjobs.cc:299-322 | the first job of the queue leaves it: a disabled one is answered NOTDONE, any other is started |
| `MasterJobPools.MasterJobPool.PostStatus` | src/chunkserver/bgjobs.cc:337-354 | posts a status and makes the descriptor readable |
| `MasterJobPools.MasterJobPool.ReceiveStatus` | src/chunkserver/bgjobs.cc:356-377 | takes the oldest status and says whether there are more |
| `MasterJobPools.MasterJobPool.ProcessCompletedJobs` | src/chunkserver/bgjobs.cc:233-255 | the loop consumes every status queued |
| `MasterJobPools.ReceiveAllInOrder` | src/chunkserver/bgjobs.cc:233-255 | a drain completes the jobs whose statuses were queued, each once and in order |
| `ReadInv.ReadsCover` | src/chunkserver/chunk_high_level_ops.cc:210-287 | in every run the issued jobs are consecutive, disjoint and within the request, buffers are attached in offset order, and a served request was delivered completely |
| `ReadInv.SortSpec` | src/chunkserver/chunk_high_level_ops.cc:116-150 | on an error each pending buffer goes to exactly one of pool and discard list, by whether a worker may still fill it, and the disabled ids are used up |
| `ReadInv.SweepSpec` | src/chunkserver/chunk_high_level_ops.cc:93-114 | the discard callback gives back exactly the buffers whose callback ran |
| `ReadInv.BuffersSafe` | src/chunkserver/chunk_high_level_ops.cc:93-180 | in every run each buffer is in exactly one of attached, pending, discarded and pool, and no buffer in the pool will be filled by a worker |
| `ReadInv.CloseDrains` | src/chunkserver/chunk_high_level_ops.cc:73-91 | a closed read has all its buffers back exactly when its last pending callback has run |
| `ReadHighLevelOps.PrepareReadDataPacket` | src/chunkserver/chunk_high_level_ops.cc:182-208 | one header per block, the first cut to its block, the others always a full block |
| `ReadHighLevelOps.HeadersRightIff` | src/chunkserver/chunk_high_level_ops.cc:182-208 | the headers describe the blocks behind them if and only if the job lies in one block or ends at a block boundary |
| `ReadHighLevelOps.ReadHighLevelOp.AttachFinished` | src/chunkserver/chunk_high_level_ops.cc:211-216 | attaches the finished buffers in front |
| `ReadHighLevelOps.ReadHighLevelOp.ReadContinue` | src/chunkserver/chunk_high_level_ops.cc:210-287 | the step of the state machine |
| `ReadHighLevelOps.ReadHighLevelOp.PrepareDiscardReadJobs` | src/chunkserver/chunk_high_level_ops.cc:116-150 | the in-place loop is the functional step |
| `ReadHighLevelOps.ReadHighLevelOp.DiscardAll` | src/chunkserver/chunk_high_level_ops.cc:147-149 | in every reachable state it leaves no disabled id over |
| `ReadHighLevelOps.ReadHighLevelOp.ReadFinishedCallback` | src/chunkserver/chunk_high_level_ops.cc:152-180 | goes on if the job read the disk; otherwise the read has failed and what is pending is discarded |
| `ReadHighLevelOps.ReadHighLevelOp.ReadDiscardCallback` | src/chunkserver/chunk_high_level_ops.cc:93-114 | the in-place sweep is the functional step |
| `ReadHighLevelOps.ReadHighLevelOp.DelayedCloseCallback` | src/chunkserver/chunk_high_level_ops.cc:73-91 | gives returned buffers back from the front and counts down |
| `ChunkFiles.TruncatedTable` | src/chunkserver/hddspacemgr.cc:1656-1795 | from a table that matches, the content cut or zero-extended and padded to whole blocks has a matching table again |
| `Hdds.Hdd.CreateChunk` | src/chunkserver/hddspacemgr.cc:1138-1210 | exactly when it is answered with which status: OK if and only if there is a disk, no such chunk and none of the disk calls it made failed; success registers an empty locked chunk, each failure leaves registry and locks as they were and opens balanced |
| `Hdds.Hdd.IoBegin` | src/chunkserver/chunkserver-common/hdd_utils.cc:228-305 | a successful begin counts one open and one reference |
| `Hdds.Hdd.IoEnd` | src/chunkserver/chunkserver-common/hdd_utils.cc:166-226 | an end releases the reference unless writing the CRCs of a changed chunk failed, in which case the reference stays |
| `Hdds.Hdd.ShrinkInside` | src/chunkserver/hddspacemgr.cc:1677-1756 | shrinking to a length inside a block: content and table |
| `Hdds.Hdd.TruncateContent` | src/chunkserver/hddspacemgr.cc:1656-1789 | the three cases of step 2 |
| `Hdds.Hdd.Truncate` | src/chunkserver/hddspacemgr.cc:1597-1805 | exactly when it is answered with which status: OK if and only if the checks pass, the files exist and none of the disk calls it made failed; every exit ends what it began and releases the chunk once; success gives the truncated content, version and a matching table |
| `Hdds.Hdd.CopyBlocks` | src/chunkserver/hddspacemgr.cc:1451-1510 | the copy loop appends exactly the blocks of the original |
| `Hdds.Hdd.FillTruncated` | src/chunkserver/hddspacemgr.cc:1950-2261 | content and table of the truncated copy in all three cases |
| `Hdds.Hdd.DuplicateTruncate` | src/chunkserver/hddspacemgr.cc:1807-2290 | the same exactness; every exit balances opens and locks; on failure the copy is absent, on success it is the truncated content with a matching table |
| `BuffersPools.BuffersPool.Get` | src/chunkserver/buffers_pool.h:56-82 | the oldest stored buffer of exactly the requested type, which then is in no queue; all other queues unchanged; the counter follows |
| `BuffersPools.BuffersPool.Put` | src/chunkserver/buffers_pool.h:88-112 | kept exactly when it does not raise the counter above the maximum in force; appended to its own queue only |
| `BuffersPools.BuffersPool.ReleaseFront` | src/chunkserver/buffers_pool.h:122-130 | the loop on one queue leaves exactly its unexpired entries |
| `BuffersPools.BuffersPool.ReleaseOldBuffers` | src/chunkserver/buffers_pool.h:118-135 | in every queue exactly the unexpired entries remain, because queues are age ordered |
| `BuffersPools.BuffersPool.SetMaxNumberOfBlocks` | src/chunkserver/buffers_pool.h:141-144 | changes the maximum only |
| `BuffersPools.PushOk` | src/chunkserver/buffers_pool.h:105-109 | adding a buffer keeps the queues age ordered, disjoint and free of repetition, and adds its blocks to the sum |
| `BuffersPools.PopOk` | src/chunkserver/buffers_pool.h:74-79 | taking the oldest entry keeps the same and takes its blocks off the sum |
| `Acls.SetIsMapUpdate` | src/common/access_control_list.h:190-224 | setEntry keeps the list sorted and well-formed and updates the map at its key only, or nothing when the list is full |
| `Acls.RemoveIsMapRemoval` | src/common/access_control_list.h:231-256 | removeEntry removes its key only |
| `Acls.GetIsLookup` | src/common/access_control_list.h:263-288 | getEntry answers as the map does |
| `AccessControlLists.AccessControlList.constructor` | src/common/access_control_list.h:97-98 | the empty ACL |
| `AccessControlLists.AccessControlList.Bound` | src/common/access_control_list.h:196 | binary search finds the number of smaller entries |
| `AccessControlLists.AccessControlList.Set` | src/common/access_control_list.h:190-224 | setEntry on the object, list and packed permissions |
| `AccessControlLists.AccessControlList.Remove` | src/common/access_control_list.h:231-256 | removeEntry on the object |
| `AccessControlLists.AccessControlList.Get` | src/common/access_control_list.h:263-288 | getEntry on the object |
| `AccessControlLists.AccessControlList.SetMode` | src/common/access_control_list.h:173-182 | the mode got after it is the mode set |
| `AccessControlLists.ModeBack` | src/common/access_control_list.h:157-182 | getMode after setMode is the mode; it goes to the mask if there is one and to the group otherwise, and the other of the two stays |
| `AccessControlLists.AccessControlList.GetMode` | src/common/access_control_list.h:157-167 | the mode of the packed permissions: the mask stands for the group if there is one |
| `AccessControlLists.AccessControlList.ApplyMask` | src/common/access_control_list.h:345-350 | a bit stays exactly if the mask, if any, has it |
| `AccessControlLists.AccessControlList.GetEffectiveRights` | src/common/access_control_list.h:299-334 | each permission bit is granted exactly by the rule: owner, named user and mask, union of matching groups and mask, others |
| `AclText.ToString` | src/common/access_control_list.cc:119-139 | the loop prints the text of the specification |
| `AclText.FromString` | src/common/access_control_list.cc:64-117 | the cursor loop parses as the specification does, or fails |
| `AclText.TextRoundTrip` | src/common/access_control_list.cc:64-139 | parsing the printed text of any well-formed ACL that fits returns it if and only if no named id is 0xFFFFFFFF |
| `AclXattr.AclObjectToXattr` | src/common/acl_converter.cc:131-159 | the bytes are the version and the records of owner, named users, group, named groups, mask, others |
| `AclXattr.ExtractAclObject` | src/common/acl_converter.cc:95-129 | decoding, with every error |
| `AclXattr.XattrRoundTrip` | src/common/acl_converter.cc:56-159 | decoding the encoding of any well-formed ACL that fits returns it |
| `AclXattr.DecodedIsCanonical` | src/common/acl_converter.cc:95-159 | whatever decodes is a well-formed ACL whose own encoding decodes to the same |
| `WriteLate.LateReachInv` | src/chunkserver/chunkserver_entry.cc:311-322 | with open jobs still able to call back an operation already cleaned up, every run keeps the invariant until the cleanup, and none of its buffers afterwards |
| `WriteLate.SealedIsSilent` | src/chunkserver/chunk_high_level_ops.cc:575-616 | a sealed operation, still there or already destroyed, sends nothing more in any continuation if and only if no open job that can still fail is outstanding |
| `WriteLate.Speaks` | src/chunkserver/chunk_high_level_ops.cc:492-508 | from every other sealed state there is a run that sends one more reply |
| `WriteLate.OrphanedIff` | src/chunkserver/chunkserver_entry.cc:476-498 | in every run, cleanup leaves a job with a callback on the destroyed operation if and only if the open job was pending and not already called back by a close; it never leaves a write job |
| `WriteLate.OrphanedRun` | src/chunkserver/chunkserver_entry.cc:476-498 | a concrete run: WRITE_END before the open job ran ends the lock with OK and destroys the operation; then the job fails and the client is sent an error, or succeeds and nothing closes the chunk |
| `WriteLate.SealedMaySpeak` | src/chunkserver/chunkserver_entry.cc:476-487 | a reachable sealed operation that is not silent |
| `WriteStatuses.UnwrittenAckedIff` | src/chunkserver/chunk_high_level_ops.cc:470-483 | a finished job lets the callback acknowledge a block that is neither written nor replied early if and only if it stopped at a replied block with unreplied ones behind it; then it acknowledges all of these |
| `WriteStatuses.MisleadsIff` | src/chunkserver/chunk_high_level_ops.cc:436-490 | the same for every callback of every run, on what the client is told and what the disk holds |
| `WriteStatuses.MisleadingRun` | src/chunkserver/chunk_high_level_ops.cc:436-490 | a concrete run whose callback acknowledges two blocks that never reached the disk |
| `WritePool.StepGives` | src/chunkserver/chunk_high_level_ops.cc:673-707 | every step of an operation gives to the pool only buffers of its own, and takes at most the one a new block is given |
| `WriteServer.CreditConserved` | src/chunkserver/network_main_thread.cc:98-105 | over all operations of a server, pool returns, destroyed buffers and reloads, available credit plus replied blocks of live buffers is the configured capacity |
| `WriteServer.PoolShared` | src/chunkserver/buffers_pool.h:56-112 | over all operations of a server sharing one pool, a live buffer of one is neither in the pool nor a buffer of another |
| `WriteServer.EachAlone` | src/chunkserver/chunk_high_level_ops.cc:333-778 | every operation of a server is in a state a single operation reaches under moves of counter and pool that can happen to it, so all theorems about runs of one operation hold for it |
| `ConnectionClose.ReadPendingLoses` | src/chunkserver/chunkserver_entry.cc:654-657 | a concrete run to a sealed operation with its write job queued; a pending read makes closeJobs skip delayedClose: the lock then ends with OK while the acknowledged block is on no disk, and its buffer is in the pool with the job still queued on it |
| `ConnectionClose.JobBufferGivenAway` | src/chunkserver/chunkserver_entry.cc:205-217 | cleaning up an operation as it is while a write job is outstanding leaves the job and puts the buffer it works on into the pool exactly when the pool keeps it |
| `HddReads.CopyFromChunk` | src/chunkserver/io_buffers.h:100-112 | after a short read the loop reads again from the same offset: the bytes it puts repeat those up to the end of the file |
| `HddReads.ReadFullBlock` | src/chunkserver/hddspacemgr.cc:783-829 | exactly when a full block is answered with which status; zeros and the CRC of an empty block behind the end |
| `HddReads.ReadFullBlocks` | src/chunkserver/hddspacemgr.cc:968-1018 | exactly when the full blocks of a read are answered with which status: a CRC error for a stored block with another CRC than the table, when checked; on success the bytes, with CRCs that match |
| `HddReads.ReadPartial` | src/chunkserver/hddspacemgr.cc:1020-1051 | the last partial block: exactly when it fails with which status, and on success the part asked for with its CRC |
| `HddReads.HddRead` | src/chunkserver/hddspacemgr.cc:930-1061 | exactly when a read of any shape is answered with which status: version, size, a stored block that cannot be read, a CRC that does not match, a block beyond the chunk; a successful read returns what it fetched overlaid with every registered block, and aligned or inside one block these are the bytes asked for, with CRCs that match |
| `HddReads.FetchedRight` | src/chunkserver/hddspacemgr.cc:968-1001 | a read that is aligned or lies inside one block fetches the bytes asked for |
| `HddReads.FetchedIff` | src/chunkserver/hddspacemgr.cc:968-1001 | a read of a block or more fetches the bytes asked for, whatever the chunk, if and only if it is aligned |
| `HddReads.PartialBehindEnd` | src/chunkserver/hddspacemgr.cc:1020-1051 | a partial read behind the end fails with a CRC error if and only if the table has another entry there than that of an empty block |
| `HddReads.ReadBehindTruncated` | src/chunkserver/hddspacemgr.cc:1677-1789 | after a truncation a partial read behind the new end fails if and only if its block was cut off at a block boundary with a CRC other than that of an empty block |
| `HddReads.ReadBehindCopy` | src/chunkserver/hddspacemgr.cc:1950-2261 | behind the end of a truncated copy it fails if and only if its block was cut off, at any length, with such a CRC |
| `HddReads.StaleEntry` | src/chunkserver/hddspacemgr.cc:1677-1789 | a concrete chunk of two blocks: cut to one block, or copied with its first byte, it cannot be read behind its end; cut to its first byte it can |
| `HddWrites.WriteChunkBlock` | src/chunkserver/chunkserver-common/cmr_disk.cc:451-596 | exactly when a block write is answered with which status, in the order of the checks; on OK the bytes and the CRC of the block are those after the write, otherwise no byte read back has changed |
| `HddWrites.WriteChunkBlocks` | src/chunkserver/chunkserver-common/cmr_disk.cc:598-651 | the same for a run of full blocks, which is written as if block by block |
| `HddWrites.WrittenByte` | src/chunkserver/chunkserver-common/cmr_disk.cc:340-368 | read back, exactly the bytes of the write have changed |
| `HddWrites.WrittenTable` | src/chunkserver/chunkserver-common/cmr_disk.cc:480-596 | a write with a right CRC keeps every entry of the table matching its block, whether the block is new, replaced or changed in part |
| `HddWrites.BulkIsAll` | src/chunkserver/chunkserver-common/cmr_disk.cc:370-396 | writing n full blocks with one call is writing them one by one |
| `WriteDisk.FileIsWritten` | src/chunkserver/bgjobs.cc:670-749 | the chunk file after any run is the file found with the blocks recorded as written applied in order |
| `WriteDisk.FileByte` | src/chunkserver/bgjobs.cc:670-749 | each byte of it is the byte the recorded writes give |
| `WriteDisk.FileSound` | src/chunkserver/chunkserver-common/cmr_disk.cc:451-651 | a chunk whose table matched still has a matching table after any run whose client sent right CRCs |
| `WriteDisk.RunFrontJob` | src/chunkserver/bgjobs.cc:670-749 | job_write on the front buffer is the worker's events of the state machine: same blocks on disk, same count, same statuses |
| `ReadYourWrites.HddReadAcknowledged` | src/chunkserver/hddspacemgr.cc:930-1061 | the byte hddRead computes from the chunk file and the registry a run has left is that of the chunk after every acknowledged block or more |
| `OutputBuffers.OutputBuffer.Fill` | src/chunkserver/chunk_high_level_ops.cc:182-208 | headers, then full blocks, then their CRCs, then a partial block behind its CRC: filled in these passes the buffer is ready to send each header with its CRC and its block |
| `Forwarding.Relay.Begin` | src/chunkserver/io_buffers.cc:313-322 | the next packet starts with its packet header to be forwarded and its payload slot at the next multiple of the block size; the packets before it stay |
| `Forwarding.Relay.CompleteIsIdle` | src/chunkserver/chunkserver_entry.cc:1006-1019 | a packet with a whole header leaves the relay ready for the next one once it was received and sent on completely |
| `Forwarding.Relay.PayloadInSlot` | src/chunkserver/io_buffers.cc:313-322 | the payload of every write received so far lies at its own block slot |
| `Forwarding.Relay.Forward` | src/chunkserver/chunkserver_entry.cc:1006-1019 | the packet is processed exactly when it was received and sent on completely, and then the next one can begin |
| `JobPoolTheorems.CounterGoesWrong` | src/chunkserver/bgjobs.cc:233-255 | a concrete run after which the counter is -1 with nothing outstanding |
| `ReadHighLevelOps.IssuedHeaders` | src/chunkserver/chunk_high_level_ops.cc:241-285 | the headers of an issued job are right if and only if it is not the last of its request, or the request ends at a block boundary, or the rest of it lies in one block |
| `ReadHighLevelOps.WrongHeader` | src/chunkserver/chunk_high_level_ops.cc:241-285 | a request for one block and a byte is issued as one job whose second header announces a full block |
| `ReadHighLevelOps.ReadHighLevelOp.IssueJobs` | src/chunkserver/chunk_high_level_ops.cc:241-285 | issues jobs up to the limit, each within the largest size and filling it unless it ends the request, with the headers of its own range; a refused job closes the connection and its buffer goes back |
| `ChunkFiles.TailEmptyIff` | src/chunkserver/hddspacemgr.cc:1677-1789 | truncation keeps the table behind the end that of empty blocks if and only if it does not cut off, at a block boundary, a block with another CRC |
| `ChunkFiles.CopyTable` | src/chunkserver/hddspacemgr.cc:1950-2261 | the table of the truncated copy matches its content |
| `ChunkFiles.CopyTailIff` | src/chunkserver/hddspacemgr.cc:1950-2261 | the copy's table behind the end is that of empty blocks if and only if no block with another CRC was cut off |
| `Hdds.Hdd.Duplicate` | src/chunkserver/hddspacemgr.cc:1308-1538 | the same exactness; every exit balances opens and locks; on failure the copy is absent, on success it is present and equal; with a new version the rename finds no files and it fails |
| `AclText.ParsedIsCanonical` | src/common/access_control_list.cc:64-139 | whatever text parses gives a well-formed ACL that fits, and its printed text parses to the same ACL |
| `AclText.UndefinedIdLost` | src/common/access_control_list.cc:64-139 | a concrete ACL whose printed text does not parse |
| `ChunkLocks.SubmittedOnce` | src/chunkserver/bgjobs.cc:391-413 | whatever the order of calls and of the parts of them, each submitted job is exactly once in one of: given to the queue, being released, past the check but not yet added, deferred |
| `ChunkLocks.LockedStep` | src/chunkserver/bgjobs.cc:391-413 | no step but the end or erasure of its lock changes that a chunk is locked; what is submitted is deferred behind what was deferred before, and only jobs past the check or being released reach the queue |
| `ChunkLocks.LockedRun` | src/chunkserver/bgjobs.cc:391-413 | the same over every run from enforcement to release |
| `ChunkLocks.ShutIff` | src/chunkserver/bgjobs.cc:391-413 | from a locked state no run without the end of the lock puts a job of the chunk into the queue if and only if none is past the check and none is being added by an earlier release |
| `ChunkLocks.EnforcedShutIff` | src/chunkserver/bgjobs.cc:478-492 | the same in every run, as a condition on the moment the lock is enforced |
| `ChunkLocks.Races` | src/chunkserver/bgjobs.cc:391-413 | a concrete run: a job passes the check, the lock is enforced, and the job reaches the queue of the locked chunk |
| `ChunkOrder.WaitingRun` | src/chunkserver/bgjobs.cc:391-553 | in every run the jobs being released, those past the check and those deferred each wait in order of submission, the first two kinds before the third |
| `ChunkOrder.OvertakingIff` | src/chunkserver/bgjobs.cc:391-529 | in every run a step keeps the jobs of a chunk in order of submission if and only if it adds none of them past an earlier one that waits: neither one past the check, nor one of an earlier release |
| `ChunkOrder.SubmissionOrder` | src/chunkserver/bgjobs.cc:391-529 | in every run the jobs of a chunk have reached the queue in order of submission if and only if no step overtook |
| `ChunkOrder.ReleasedInOrder` | src/chunkserver/bgjobs.cc:516-529 | whatever comes in between, the deferred jobs of one lock reach the queue in their order: at any later time a first part of them has, and the rest is still to be added |
| `ChunkOrder.Overtakes` | src/chunkserver/bgjobs.cc:494-529 | a concrete run in which a new job is added before a deferred one |
| `ChunkOrder.Interleaves` | src/chunkserver/bgjobs.cc:494-529 | a concrete run in which the second of two releases of a chunk adds its job first |
| `JobPoolDrain.AllComplete` | src/chunkserver/bgjobs.cc:233-377 | from every reachable state of the pools there is a run that completes every ordinary job |
| `MasterJobPools.MasterJobPool.DeferIfLocked` | src/chunkserver/bgjobs.cc:391-409 | the part of addJobIfNotLocked under the mutex: deferred behind an enforced lock, past the check otherwise |
| `MasterJobPools.MasterJobPool.AddPassed` | src/chunkserver/bgjobs.cc:409-413 | the part behind the mutex: a job past the check is added, whatever happened since |
| `MasterJobPools.MasterJobPool.AddJobIfNotLocked` | src/chunkserver/bgjobs.cc:391-413 | both parts, when no other call comes between them |
| `MasterJobPools.AddAllInOrder` | src/chunkserver/bgjobs.cc:494-529 | a release that no other call interrupts enqueues every deferred job once and in order |
| `Acls.ListIsMap` | src/common/access_control_list.h:190-289 | under any sequence of changes the sorted list acts as a finite map of at most the capacity, full or not |
| `WriteClosing.Drains` | src/chunkserver/chunk_high_level_ops.cc:374-434 | from every state of a close not yet cleaned up there is a run to pending count zero that drops nothing, after which no acknowledged block is left in a buffer, and no block at all if the chunk was open |
| `Hdds.Hdd.Rename` | src/chunkserver/chunkserver-common/cmr_chunk.cc:34-62 | succeeds exactly when the files exist and both renames do; if only the second fails the metadata file is no longer where the registry looks |
| `Hdds.Hdd.ChangeVersion` | src/chunkserver/hddspacemgr.cc:1614-1654 | the chunk is open if and only if it succeeds; otherwise it is released, and only its references and the names of its files may differ |
| `ReadYourWrites.ReadDuring` | src/chunkserver/hddspacemgr.cc:930-1061 | hddRead in the middle of any run without a failed write processed: every byte returned is that of the chunk after some number of received blocks that includes every acknowledged one; from a sound chunk with right client CRCs and no failed job waiting it succeeds and its CRCs match |
| `ConnectionClose.AppliedClosedDurable` | src/chunkserver/chunkserver_entry.cc:205-217 | cleaning up an operation as it is has, at that moment, lost no acknowledged block if and only if a failure status goes to the master or the running job has written every acknowledged block |
| `WriteAnswers.LockEnd` | src/chunkserver/chunk_high_level_ops.cc:695-707 | in every run the lock has ended exactly if the operation is cleaned up and no close job is left; the close job runs once, exactly for an open chunk; the end is the untold status if it is not OK, otherwise the status of the close job, otherwise OK |
| `WriteAnswers.CloseAnswered` | src/chunkserver/chunk_high_level_ops.cc:768-778 | when the close job of a locked chunk returns, in every run, the lock ends with OK if and only if neither it nor an acknowledged write failed, and otherwise with the status of the write, if one failed, or of the close |
| `WriteAnswers.EndedWell` | src/chunkserver/chunk_high_level_ops.cc:768-778 | in every run, a lock that ended with OK had no failed close |
| `WriteAnswers.UntoldIs` | src/chunkserver/chunk_high_level_ops.cc:470-483 | in every run the status kept for the master is that of the first job that stopped at a block replied early, and there is one if and only if an acknowledged block was not written |
| `WriteAnswers.EndedOkIff` | src/chunkserver/chunk_high_level_ops.cc:673-778 | in every run, a lock that has ended ended with OK if and only if every acknowledged block that was processed is on disk and the close, if the chunk was open, succeeded |
| `WriteAnswers.ErrorsTold` | src/chunkserver/chunk_high_level_ops.cc:349-372 | in every run the errors among the replies are exactly those the events made known, in order: of the next server, of the open job, and of the first block neither written nor replied early; the operation counts as failed if and only if there is one |
| `WriteTurns.WriteAnswered` | src/chunkserver/chunk_high_level_ops.cc:436-490 | block by block, what a finished job puts on record as written and acknowledged; the operation fails exactly if the job stopped at a block not replied, and then tells that block's id last, gives the connection up and starts no job; the buffer is in the pool exactly if the pool keeps it |
| `WriteTurns.OpenAnswered` | src/chunkserver/chunk_high_level_ops.cc:379-508 | the chunk is open exactly if the open job succeeded; a failure is told and gives the connection up, a success is told under id 0, and nothing is told once the operation is closing |
| `WriteTurns.NextAnswered` | src/chunkserver/chunkserver_entry.cc:446 | an error of the next server is passed on and gives the connection up; an OK is passed on exactly if our own worker had reported the block |
| `WriteTurns.EndAnswered` | src/chunkserver/chunkserver_entry.cc:476-498 | sealed exactly if every block held is received and acknowledged and none waits for the next server; the connection is free exactly if sealed, all output sent and the pool not full; gone at once exactly if it holds no buffer |
| `WriteTurns.CloseTurns` | src/chunkserver/chunk_high_level_ops.cc:622-671 | before the open job returned a close only redirects it, and an untaken job will report NOTDONE; later a buffer is given up exactly if none of its blocks is acknowledged and no job works on it |
| `WriteTurns.BeginTurns` | src/chunkserver/chunk_high_level_ops.cc:510-547 | a new buffer is taken exactly if there is none or the last one is full; the full one goes to the end of the queue |
| `WriteTurns.ArriveTurns` | src/chunkserver/chunk_high_level_ops.cc:549-559 | a received block goes to the last buffer, which is handed on exactly if it is full or no job is under way |
| `WriteTurns.SizeDoubles` | src/chunkserver/chunk_high_level_ops.cc:510-547 | in every run the next buffer holds four blocks doubled for each buffer taken, up to the limit |
| `WriteTurns.RepliesAsFar` | src/chunkserver/chunk_high_level_ops.cc:709-766 | blocks are acknowledged early exactly while a locked, non-standard chunk is open, served and not sealed: then the first unreplied block left is being received or needs more credit than there is |
| `WriteTurns.CreditKept` | src/chunkserver/chunk_high_level_ops.cc:726-757 | no step of the operation itself takes the available credit below zero |
| `JobPoolAnswers.AnswersAreGiven` | src/chunkserver/bgjobs.cc:299-377 | in every run the statuses queued for listeners, completed, or held back behind the deferred jobs of an ended lock are exactly those the events gave: the end of a lock to its lock job, the end of the work to its job, NOTDONE to a disabled one |
| `JobPoolAnswers.LockAnswered` | src/chunkserver/bgjobs.cc:516-529 | in every run a status posted or completed for a lock job is the status of the event that ended the lock holding this job |
| `JobPoolAnswers.AnsweredOnce` | src/chunkserver/bgjobs.cc:299-377 | in every run no job is given two statuses |
| `JobPoolAnswers.JobsAsNamed` | src/chunkserver/bgjobs.cc:124-148 | in every run each job has the kind, work and ticket it was added with and the callback set last, and no lock job reaches a worker |
| `JobPoolAnswers.FirstInFirstOut` | src/chunkserver/bgjobs.cc:289-335 | in every run the workers have taken the jobs in the order in which they were put into the queue |
| `ReadResults.SentWasRead` | src/chunkserver/chunk_high_level_ops.cc:152-180 | in every run each buffer sent to the client is one a worker has read from the disk; a served request has no failed job |
| `ReadResults.ReturnAnswered` | src/chunkserver/chunk_high_level_ops.cc:152-180 | in every run, when a job comes back: if the worker could not read, the read has failed and nothing more is sent or pending; if it could, every buffer up to the first one still out is sent in order, and the request is served exactly if none is out and nothing is left |
| `ReadResults.GoesAnswered` | src/chunkserver/chunk_high_level_ops.cc:210-287 | the same when reading on: what is sent, and when the request is served |
| `ReadInv.IssueLimits` | src/chunkserver/chunk_high_level_ops.cc:241-285 | no more jobs are pending than allowed, and each new job has the largest size allowed unless it ends the request |
| `ChunkFiles.TruncatedByte` | src/chunkserver/hddspacemgr.cc:1656-1789 | byte by byte: the content up to the length, then zeros to the end of its block |
| `BuffersPools.YoungAre` | src/chunkserver/buffers_pool.h:118-135 | an entry stays exactly if it is younger than the limit |
| `AclText.SampleText` | src/common/access_control_list_unittest.cc:45-50 | an ACL of the unit tests and its text, both ways |
| `AclXattr.RecordBytes` | src/common/acl_converter.cc:76-93 | the eight bytes of every record: tag, rights and id, low byte first |
| `AclXattr.EntriesAscending` | src/common/acl_converter.cc:131-159 | the records are in the order of their tags, those with the same tag in the order of their ids |
| `AclXattr.SampleXattr` | src/common/acl_converter_unittest.cc:26-36 | the minimal ACL of the unit tests and its bytes, both ways |

## Left out

- WriteServer.CreditConserved: the credit counter is unbounded; the wrap-around of its 32-bit integer is not modelled.
- JobPoolTheorems.OneCompletion: tickets are unbounded; job ids that wrap around at 32 bits, job priorities of the client pool and the shutdown of the pools are not modelled.
- JobWrite.RunOperation: a `pwrite` that fails stores nothing here; the disk may in fact hold a first part of the block. Holes punched for zeros change no content and are not modelled.
- HddWrites.WriteChunkBlock: likewise, a failing `pwrite` stores nothing; the number of blocks it has raised by then is modelled.
- HddWrites.WriteChunkBlocks: likewise for a run of blocks, some of which a failing `pwrite` may have stored.
- WriteDisk.FileIsWritten: likewise, the file of a run holds nothing of a write that failed, nor the number of blocks it raised.
- HddReads.CopyFromChunk: a read stops short only at the end of the file; one that stops earlier is not modelled.
- Hdds.Hdd.Duplicate: unlinking of files, damage reports and the choice of the disk are not modelled, beyond whether there is a disk with room.
- AclText.FromString: characters are read as in the C locale, and a long has 64 bits.
- Zoned devices, read-ahead and prefetching: they depend on plugin code or change no content.
- Sockets, TLS, polling, reconnection and packet serialization: I/O around the modelled state.
- The GetBlocks operation: its single job adds nothing to the read and write operations.
- Replication, disk scanning, tester threads, statistics, charts and configuration files.
- Serialization of ACLs other than text and xattr.
