# Swagri: a verified model of its distributed matrix, artifact downloads, store and updates

This project models the parts of Swagri that have to stay right while peers fail, answer late, answer wrongly or answer
in any order, and proves what those parts promise.

* **Matrix workloads** (`Words`, `Executor`): 64-bit words written out on natural numbers, the loops over the shared
  arrays, and the exclusive-or checksum of a range of rows.
* **Distributed matrix coordinator** (`MatrixModel`, `MatrixPlan`, `MatrixInvariant`, `MatrixDispatch`, `MatrixRuns`,
  `MatrixTheorems`, `MatrixAnyAnswer`, `MatrixHangs`, `MatrixWorkers`, `MatrixSuccess`, `MatrixRetries`; with mutable
  objects in `MatrixCoordinator`): a job is cut into row chunks, every chunk goes to the best worker that is eligible at
  that moment, a failed remote chunk goes to another worker, and the partial checksums are combined. A turn of the event
  loop is one event followed by one dispatch.
* **Artifact store** (`StorageModel`, `StorageTheorems`, `StorageImport`, `StorageLoss`; with mutable directories and
  files in `StorageFiles`): content-addressed blocks, two-pass import, resume, commit, quota and export.
* **Multi-provider download** (`DownloadModel`, `DownloadProviders`, `DownloadInvariant`, `DownloadRuns`,
  `DownloadTheorems`, `DownloadFailover`, `DownloadOutcomes`, `DownloadDamage`, `DownloadRestart`, `DownloadToStore`;
  with mutable objects in `DownloadHandlers`): up to eight providers, at most four blocks in flight for a download,
  round-robin choice, failover.
* **Update transfer** (`UpdateTransfer`, `UpdateOutcomes`; with mutable state in `UpdateClient`): a package is rebuilt
  from ordered chunks.

Each protocol is described twice. The step functions on values say what one event does, and all theorems over runs are
about them. The classes hold the fields that the program updates in place, with the program's loops; every method is
proved to change its state exactly as the step function says.

## Assumptions

* Every request that was sent is answered at most once, by a reply or by a failure; an answer without a record is
  ignored. A failure or a wrong answer names the peer that was asked.
* A worker that answers with a chunk checksum computed it for the rows it names; a remote worker may otherwise answer
  anything. `MatrixTheorems` leaves out answers with node information (`MatrixModel.Honest`); `MatrixAnyAnswer`,
  `MatrixHangs` and `MatrixWorkers` allow them. The computation of a local chunk is part of the state, because the
  program keeps no record of it and does not compare its rows.
* Scores are real numbers with separate values for infinities and for "not a number". Scores, ages and policies may be
  different in every turn.
* The digest is an arbitrary function. Where a property needs it, it is free of collisions on one set of byte strings:
  those that are stored, offered, imported or published. The length of an encoded manifest is an arbitrary function
  below 2^63.
* Calls to the store do not overlap. Writes, removals and reads of an existing block may fail.
* A download of a content begins only while no block request for that content is outstanding. What happens without this
  is described below.

## Where the code does less than its documentation says

* `docs/INSTALLATION.md` (lines 187-189) says that a job fails explicitly instead of hanging. A worker that answers a
  chunk with node information can make the job wait for ever: the record of the request is removed but the job is not
  told (`crates/swagri-node/src/lib.rs` lines 1742-1796). `MatrixHangs.OnlyNodeInfoHangs` says when nothing of a live
  job is outstanding: exactly when all the chunks that it counts as running were answered so.
  `MatrixHangs.WhenAJobHangs` says when it hangs for ever: exactly when moreover no chunk of it waits or no worker does.
  `MatrixHangs.NodeInfoCanHangAJob` gives a run that can happen. A wrong checksum is never reported, even then
  (`MatrixAnyAnswer.FinishedJobIsTheWholeMatrix`), and such a job is never reported as finished
  (`MatrixHangs.WithheldNeverFinishes`).
* `README.md` (lines 66-67) says that a failed provider is removed without stopping healthy sources. That holds for
  providers that disconnect, fail, report an error or answer something else (`DownloadFailover.FailoverIsExact`). A
  provider that sends a damaged block ends the whole download, however many healthy ones there are
  (`DownloadDamage.OneDamagedBlockEndsDownload`). `DownloadFailover.RefusedBlockEndsDownload` and
  `DownloadFailover.GoodBlockKeepsDownload` say which blocks do that: exactly those that do not match their reference,
  for which the quota leaves no room, or which the disk cannot take.
* After such an end, block requests to other providers stay outstanding. If the same content is fetched again at once,
  their answers are counted for the new attempt and can end it before its manifest has come
  (`DownloadRestart.RestartCanFail`). `DownloadRuns.BeginKeepsExactly` shows that a new attempt is safe exactly when no
  block request for its content is outstanding.
* `store_block` treats a block file that it cannot read as absent, and removes it before it writes. This is the only way
  in which a stored block is lost (`StorageTheorems.WhenABlockIsLost`), and it can happen
  (`StorageLoss.ABlockCanBeLost`).
* An update client that gets an answer of the wrong kind refuses every later update
  (`UpdateTransfer.OnlyWrongKindsWedge`, `UpdateTransfer.WedgedForever`). A trusted peer can bring it there with one
  answer (`UpdateTransfer.AClientCanWedge`).

## Model

| member | source | states |
|---|---|---|
| Words.XorAssociates | crates/swagri-executor/src/lib.rs:128-128 | Combining words by exclusive or is associative; with commutativity, partial checksums may be combined in any order. |
| Words.RotateLeftIs | crates/swagri-executor/src/lib.rs:108-108 | Turning a word left by n of 64 bits keeps its lower bits, moved up, and brings the n upper ones back at the bottom, in one formula for every n. |
| Words.RotateBack | crates/swagri-executor/src/lib.rs:137-142 | Turning on by the rest of the 64 bits gives the word back, so turning loses nothing. |
| Executor.AccumulateExactly | crates/swagri-executor/src/lib.rs:94-96 | Accumulating a dot product in a 64-bit word with wrapping operations never wraps, for any 16-bit side: each step gives the exact integer sum. |
| Executor.Fill | crates/swagri-executor/src/lib.rs:84-90 | The two filling loops leave the stated values of an input matrix in row-major order. |
| Executor.AccumulateCell | crates/swagri-executor/src/lib.rs:124-127 | The innermost loop of the chunk computes the exact dot product of a row and a column. |
| Executor.MatrixChunk | crates/swagri-executor/src/lib.rs:113-132 | The three nested loops over a range of rows return the exclusive or of the words of exactly the cells in these rows. |
| Executor.ChunkSplits | crates/swagri-executor/src/lib.rs:121-131 | A range of rows can be cut anywhere: the exclusive or of the two partial checksums is the checksum of the whole range. |
| Executor.ChunkIsXorOfItsCells | crates/swagri-executor/src/lib.rs:121-131 | The checksum of a range of rows is the exclusive or of the words of exactly the cells with flat indices in the range, each once. |
| Executor.CellChecksumIs | crates/swagri-executor/src/lib.rs:136-142 | The word of a cell in plain arithmetic on its value and index, without rotation or wrapping operations. |
| Executor.AddScaledRow | crates/swagri-executor/src/lib.rs:95-99 | The column loop adds one scaled row of the right matrix to one row of the shared output array and leaves every other cell alone. |
| Executor.Multiply | crates/swagri-executor/src/lib.rs:92-101 | The row, inner, column accumulation into the shared array leaves the exact product in every cell. |
| Executor.OneProduct | crates/swagri-executor/src/lib.rs:92-131 | Both loop orders give one product: the cell in the output array, the value accumulated for a chunk and the exact dot product are equal. |
| Executor.MatrixMultiply | crates/swagri-executor/src/lib.rs:77-111 | The result folds the exact product in index order with the position-dependent checksum. |
| Executor.FoldCellIs | crates/swagri-executor/src/lib.rs:104-110 | One step of the fold in plain arithmetic: sum with the exclusive or of value and index, then eleven bits carried round. |
| Executor.Execute | crates/swagri-executor/src/lib.rs:8-58 | A chunk request is executed exactly when the side is 16 to 768 and the rows are one to 128 rows inside it; the reply then names its size and rows and carries the checksum of exactly these. |
| MatrixPlan.ChunkBounds | crates/swagri-node/src/lib.rs:3834-3845 | Each planned chunk is non-empty, ends where the next begins, and is computed without leaving 16 bits. |
| MatrixPlan.PlanTiles | crates/swagri-node/src/lib.rs:3801-3845 | For every accepted size and chunk height the plan covers all rows without gap or overlap, and each chunk is one that the executor accepts. |
| MatrixPlan.XorOfOneMore | crates/swagri-node/src/lib.rs:4134-4137 | Completing one more chunk, whichever it is, combines its part into the checksum of the completed ones. |
| MatrixPlan.TilesCoverTheMatrix | crates/swagri-node/src/lib.rs:3834-3845 | Once all chunks of a plan are completed their combination is the checksum of the whole matrix. |
| MatrixDispatch.EligibleIs | crates/swagri-node/src/lib.rs:3913-3934 | On the observed fields: a worker may be used exactly when it contributes and has a finite positive score, and a remote one only if heard of within 20 seconds and of protocol version 4 or later; its score is the observed one. |
| MatrixDispatch.SelectableIs | crates/swagri-node/src/lib.rs:3872-3895 | On the observed fields: who may be selected for a new job is who may be used, save that the score may also be infinite. |
| MatrixDispatch.SelectionDescends | crates/swagri-node/src/lib.rs:3872-3903 | The workers of a new job are exactly the selectable ones, each once; infinite scores come first and finite ones descend as numbers. |
| MatrixDispatch.RankedIs | crates/swagri-node/src/lib.rs:3936-3951 | The candidates of a dispatch are exactly the eligible workers, each once, their scores descending as numbers. |
| MatrixDispatch.DispatchIsGreedy | crates/swagri-node/src/lib.rs:3936-3981 | One dispatch of a job gives out min(eligible workers, pending chunks) chunks, in queue order, to distinct eligible workers whose scores descend as numbers; the other chunks stay queued. |
| MatrixDispatch.LeftOverIsNoBetter | crates/swagri-node/src/lib.rs:3950-3954 | The workers left over are exactly those not used, and no eligible one of them has a larger score than one that was used. |
| MatrixDispatch.TakenAreNew | crates/swagri-node/src/lib.rs:3950-3979 | The chunks given out are distinct and none of them was in flight. |
| MatrixDispatch.DispatchKeeps | crates/swagri-node/src/lib.rs:3936-3981 | Giving out chunks keeps the invariant of a job: disjoint chunk sets, disjoint worker sets, true counts, distinct attempts. |
| MatrixDispatch.NotStuckMeansBusy | crates/swagri-node/src/lib.rs:3994-4007 | A job that the dispatch does not give up has a chunk in flight afterwards. |
| MatrixInvariant.CompleteKeeps | crates/swagri-node/src/lib.rs:4100-4157 | Booking a result keeps the invariant of a job, and its checksum stays the combination over exactly the completed chunks. |
| MatrixInvariant.RetryKeeps | crates/swagri-node/src/lib.rs:4197-4231 | Taking back the chunk of a failed worker keeps the invariant of a job, with the worker moved to the failed ones. |
| MatrixWorkers.FailedWorkersAreAvoided | crates/swagri-node/src/lib.rs:4197-4231 | With expected answers, over runs: a worker that failed a job stays failed whatever follows, and no outstanding chunk of the job is with it. |
| MatrixWorkers.FailedWorkerIsNeverUsedAgain | crates/swagri-node/src/lib.rs:4173-4231 | Whatever the workers answer: once a remote worker failed a chunk of a job, no request of that job is with it in any continuation of the run. |
| MatrixInvariant.StartOk | crates/swagri-node/src/lib.rs:3834-3869 | A new job satisfies the invariant. |
| MatrixRuns.ReplyKeeps | crates/swagri-node/src/lib.rs:1732-1796 | Handling any reply, expected or late, right or wrong, keeps the invariant of all jobs. |
| MatrixRuns.FailureKeeps | crates/swagri-node/src/lib.rs:1797-1826 | Handling an outbound failure keeps the invariant of all jobs. |
| MatrixRuns.StepKeeps | crates/swagri-node/src/lib.rs:3983-4063 | Every turn of the loop keeps the invariant of all jobs, and leaves no live job without a chunk in flight. |
| MatrixAnyAnswer.FinishedJobIsTheWholeMatrix | crates/swagri-node/src/lib.rs:3792-4171 | In every run, whatever the workers answer, the completion order, failures, retries and other jobs: a reported success carries the requested size, the planned number of chunks and the checksum of the whole matrix. |
| MatrixAnyAnswer.EveryJobIsLiveOrReportedOnce | crates/swagri-node/src/lib.rs:4065-4263 | In every run, whatever the workers answer, each numbered job is either live or reported exactly once. |
| MatrixAnyAnswer.ChunksAreConserved | crates/swagri-node/src/lib.rs:3936-4245 | In every run, whatever the workers answer, the chunks of a live job are the disjoint union of pending, completed and handed-out ones the job was not told about; its counters are true, a worker holds at most one of them, and the attempts of a chunk are distinct. |
| MatrixAnyAnswer.RunAlike | crates/swagri-node/src/lib.rs:1742-1796 | A run with such answers differs from one without them only in the records of requests that the jobs were never told about. |
| MatrixTheorems.NoJobHangs | crates/swagri-node/src/lib.rs:3994-4015 | With expected answers, after every turn each live job has a chunk outstanding; its chunks are the disjoint union of pending, outstanding and completed ones, a worker holds at most one of them, and its counters are true. |
| MatrixTheorems.RetriesAreBounded | crates/swagri-node/src/lib.rs:4173-4245 | The attempts of a chunk go to distinct workers, at most three, and a job sends at most as many chunks as it has chunks and initial remote workers. |
| MatrixTheorems.StepMeasure | crates/swagri-node/src/lib.rs:4065-4245 | An answer to a chunk takes one from healthy workers plus uncompleted chunks of its job, or ends the job; any other event leaves the number alone. |
| MatrixTheorems.JobsEnd | crates/swagri-node/src/lib.rs:4065-4245 | A job does not survive as many answers as it has healthy workers and uncompleted chunks. |
| MatrixHangs.OnlyNodeInfoBreaksTheCount | crates/swagri-node/src/lib.rs:1742-1796 | In every run, whatever was answered before, the chunks that a live job counts as running are those outstanding and those answered with node information; so the count is right exactly when no chunk of it was answered so. |
| MatrixHangs.OnlyNodeInfoHangs | crates/swagri-node/src/lib.rs:1742-1796 | In every run nothing of a live job is outstanding exactly when as many of its chunks were answered with node information as it counts as running; so something is outstanding as long as none was. |
| MatrixHangs.WhenAJobHangs | crates/swagri-node/src/lib.rs:3983-4015 | A live job of any run stays live with nothing outstanding, whatever follows, exactly when all the chunks that it counts as running were answered with node information and no chunk of it waits or no worker does. |
| MatrixHangs.StrandedForever | crates/swagri-node/src/lib.rs:3996-4003 | A live job that counts a chunk as running, with nothing outstanding and no chunk or no worker waiting, stays so over every sequence of turns. |
| MatrixHangs.WithheldNeverFinishes | crates/swagri-node/src/lib.rs:4100-4157 | A job of which a chunk was answered with node information is never reported as finished, in any continuation of the run. |
| MatrixHangs.NodeInfoCanHangAJob | crates/swagri-node/src/lib.rs:1742-1796 | A concrete run, one that the assumptions on workers allow, after which a job hangs for ever. |
| MatrixSuccess.RightAnswerCounts | crates/swagri-node/src/lib.rs:4065-4171 | A right answer for a chunk of a live job, computed here or remotely, is always taken: the chunk is completed, its checksum combined, its worker waits again and nothing is reported; or it was the last, and the job is reported with the checksum of the whole matrix. |
| MatrixSuccess.RightAnswersFinishTheJob | crates/swagri-node/src/lib.rs:4065-4171 | Over runs: while the chunks of a job are answered rightly it is reported finished exactly when as many answers have come as chunks were left; it completes one chunk for each answer, and it cannot fail as long as each worker that answers is still eligible. |
| MatrixSuccess.WhenAJobIsGivenUp | crates/swagri-node/src/lib.rs:3994-4024 | A dispatch ends a job exactly when chunks of it wait, none is running and none of its waiting workers is eligible, and reports it so. |
| MatrixRetries.WhenAFailedChunkIsRetried | crates/swagri-node/src/lib.rs:4173-4245 | In every run, when a remote worker fails a chunk, by a failed request or by a wrong answer: the job lives on exactly when this was not the third attempt and another worker is left, with the chunk first in the queue and all else unchanged; otherwise it is reported with the reason. |
| MatrixRetries.RetriedByTheBest | crates/swagri-node/src/lib.rs:3936-3981 | In every run such a chunk goes out again in the very turn in which it failed, if a waiting worker is eligible: to one with the largest score, with one more attempt. |
| MatrixRetries.OnlyUsableWorkersAreAsked | crates/swagri-node/src/lib.rs:3913-3934 | In every run each request that a turn sends goes to a worker that contributes with a finite positive score, a remote one heard of within 20 seconds and of protocol version 4 or later. |
| MatrixRetries.PlanIsEven | crates/swagri-node/src/lib.rs:3834-3845 | Every chunk of a plan but the last has the height that was asked for, and there are no more chunks than needed. |
| MatrixRetries.WhenAJobStarts | crates/swagri-node/src/lib.rs:3792-3870 | A start command with side 16 to 768 and height 1 to 128 starts a job exactly when some worker may be selected, with all rows waiting; without a worker it is reported, and out of bounds nothing happens. |
| MatrixCoordinator.DistributedMatrixJob.TakeDispatches | crates/swagri-node/src/lib.rs:3936-3981 | The loop pops one pending chunk for each ranked worker and leaves exactly the job and the dispatches of the step function. |
| MatrixCoordinator.DistributedMatrixJob.IsStuck | crates/swagri-node/src/lib.rs:3996-4003 | The test holds exactly when chunks wait, none is in flight and no available worker is eligible. |
| MatrixCoordinator.MatrixCoordinator.EligibleMatrixWorkers | crates/swagri-node/src/lib.rs:3872-3903 | The selection holds exactly the selectable workers, each once, best score first, in whatever order the peers are visited. |
| MatrixCoordinator.MatrixCoordinator.BuildPlan | crates/swagri-node/src/lib.rs:3834-3845 | The loop builds the plan. |
| MatrixCoordinator.MatrixCoordinator.StartCommand | crates/swagri-node/src/lib.rs:3792-3870 | A start command is refused, reported or turned into a new job as the step function says, with the workers selected from the present observations. |
| MatrixCoordinator.MatrixCoordinator.CompleteMatrixChunk | crates/swagri-node/src/lib.rs:4065-4171 | A result is booked, retried or refused, and the last one removes and reports the job. |
| MatrixCoordinator.MatrixCoordinator.RetryMatrixChunk | crates/swagri-node/src/lib.rs:4188-4245 | A failed chunk is queued first again without its worker, or the job fails after three attempts or without workers. |
| MatrixCoordinator.MatrixCoordinator.FailOrRetryMatrixChunk | crates/swagri-node/src/lib.rs:4173-4186 | Only remote chunks with a record are tried again. |
| MatrixCoordinator.MatrixCoordinator.FailMatrixJob | crates/swagri-node/src/lib.rs:4247-4263 | A job that is still there is removed and reported; otherwise nothing happens. |
| MatrixCoordinator.MatrixCoordinator.HandleReply | crates/swagri-node/src/lib.rs:1732-1796 | A reply takes out its record and then acts on the job. |
| MatrixCoordinator.MatrixCoordinator.HandleFailure | crates/swagri-node/src/lib.rs:1797-1826 | A failure takes out its record and then retries the chunk. |
| MatrixCoordinator.MatrixCoordinator.DispatchMatrixJobs | crates/swagri-node/src/lib.rs:3983-4063 | The three loops over jobs, unavailable jobs and dispatches change the whole state as one dispatch step. |
| MatrixCoordinator.MatrixCoordinator.TakeTurn | crates/swagri-node/src/lib.rs:994-1083 | One event followed by one dispatch changes the whole state as the step function says, so every theorem over runs is about this object. |
| StorageTheorems.SumWithout | crates/swagri-storage/src/lib.rs:587-605 | The bytes of a directory do not depend on the order in which its files are visited. |
| StorageTheorems.QuotaIsKept | crates/swagri-storage/src/lib.rs:144-198 | No call of import, store or commit uses more than the quota, unless more was in use before: from any store, damaged or not, wherever an import stops and whichever file operations fail. |
| StorageTheorems.QuotaIsKeptByRuns | crates/swagri-storage/src/lib.rs:271-316 | The same for any sequence of calls. |
| StorageTheorems.CallKeepsWhole | crates/swagri-storage/src/lib.rs:139-317 | Every call, failing or not, keeps each stored block equal to what its name says and each published artifact verifiable, and takes nothing out. |
| StorageTheorems.PublishedStaysWhole | crates/swagri-storage/src/lib.rs:424-461 | From an empty store every reachable state is whole, and whatever is in one state is unchanged in every later one. |
| StorageTheorems.WhenABlockIsStored | crates/swagri-storage/src/lib.rs:260-298 | A received block is accepted exactly when it matches its reference and is held already, or fits beside the rest and can be written; each reason of a refusal is reported exactly when it is the first that applies. |
| StorageTheorems.WhenABlockIsLost | crates/swagri-storage/src/lib.rs:260-298 | A stored block disappears exactly when its file cannot be read, can be removed, and its replacement fits but cannot be written. |
| StorageLoss.ABlockCanBeLost | crates/swagri-storage/src/lib.rs:278-298 | Two concrete calls, from the empty store, after which a block that was stored is gone. |
| StorageTheorems.ImportedBlocks | crates/swagri-storage/src/lib.rs:164-191 | A successful import has read the same blocks in both passes, and holds them all. |
| StorageTheorems.ImportThenExport | crates/swagri-storage/src/lib.rs:139-199 | An import succeeds only if both passes read the same bytes, and then an export gives back exactly these, even when the artifact was published before in other blocks. |
| StorageTheorems.WhenBlocksVerify | crates/swagri-storage/src/lib.rs:325-337 | The blocks of a manifest verify exactly when each is stored with its size and digest and together they have those of the manifest; the error of a failure is that of the first bad block. |
| StorageTheorems.WhenAManifestIsCommitted | crates/swagri-storage/src/lib.rs:300-317 | A manifest is published exactly when it is valid, its blocks are in order, and it is published already or fits beside all that is used and can be written; each error has its exact condition, and nothing else changes. |
| StorageTheorems.DescribedIsValid | crates/swagri-storage/src/lib.rs:424-447 | The manifest of a file that was read is valid exactly when it has at most 16384 blocks. |
| StorageImport.ImportedUses | crates/swagri-storage/src/lib.rs:144-155 | What an import is charged for is exactly what the store uses more after it, digests that repeat or are stored already included once or not at all. |
| StorageImport.WhenAnImportSucceeds | crates/swagri-storage/src/lib.rs:139-199 | An import succeeds exactly when the file has at most 16384 blocks, is read the same twice, meets no damaged block of it, fits the quota as a whole and its new files can be written; the store then holds exactly its blocks and manifest beside what was there. |
| StorageTheorems.WhenAnExportIsWritten | crates/swagri-storage/src/lib.rs:339-371 | An export is refused exactly for a destination that exists or an artifact that is not there, valid and in order; what it writes is the blocks one after the other, and hashes to the name. |
| StorageTheorems.ExportIsContent | crates/swagri-storage/src/lib.rs:339-371 | What an export copies without checking is what the verification before it read, and hashes to the name of the artifact. |
| StorageTheorems.ChunksOfFile | crates/swagri-storage/src/lib.rs:463-515 | The blocks read from an unchanging file are full except the last, and put together are the file. |
| StorageTheorems.MissingIs | crates/swagri-storage/src/lib.rs:223-243 | The missing blocks are references of the manifest, one for a digest, none of them in order; and when a digest comes with one size, every reference that is not in order is among them. |
| StorageTheorems.StoredIsNoLongerMissing | crates/swagri-storage/src/lib.rs:223-298 | Storing a missing block takes exactly this block off the list of what is missing. |
| StorageTheorems.DescribedVerifies | crates/swagri-storage/src/lib.rs:449-461 | When every block of a described file is in order, its manifest verifies as exactly that file. |
| StorageFiles.SourceFile.ReadBlock | crates/swagri-storage/src/lib.rs:500-515 | However short the single reads are, the loop fills the buffer with the next bytes of the file, up to a full block or the end. |
| StorageFiles.ArtifactStore.DescribeFile | crates/swagri-storage/src/lib.rs:463-488 | One pass over a file gives the manifest of its blocks, with the digest and the size of the whole. |
| StorageFiles.ArtifactStore.DirectoryUsage | crates/swagri-storage/src/lib.rs:587-605 | The saturating sum over the files, in any order. |
| StorageFiles.ArtifactStore.VerifyManifestBlocks | crates/swagri-storage/src/lib.rs:325-337 | Hashing block by block succeeds exactly when all blocks are in order and together have the size and the digest of the manifest. |
| StorageFiles.ArtifactStore.VerifyArtifact | crates/swagri-storage/src/lib.rs:319-323 | Loading and checking as in the step function. |
| StorageFiles.ArtifactStore.ExportArtifact | crates/swagri-storage/src/lib.rs:339-371 | The copy loop writes the block files of a verified artifact one after the other, and nothing if the destination exists. |
| StorageFiles.ArtifactStore.FindMissing | crates/swagri-storage/src/lib.rs:223-243 | The loop with its set of seen digests returns the list of missing blocks. |
| StorageFiles.ArtifactStore.StoreReceived | crates/swagri-storage/src/lib.rs:260-298 | A received block is refused, found, replaced or written, with the whole new state. |
| StorageFiles.ArtifactStore.Commit | crates/swagri-storage/src/lib.rs:300-317 | A manifest is published only after all its blocks were verified and the quota allows it. |
| StorageFiles.ArtifactStore.RequiredBytes | crates/swagri-storage/src/lib.rs:144-155 | The loop counts each new digest once. |
| StorageFiles.ArtifactStore.CopyAll | crates/swagri-storage/src/lib.rs:166-196 | The second pass compares, keeps or writes every block, stops at the first mismatch and looks for bytes after the end. |
| StorageFiles.ArtifactStore.ImportFile | crates/swagri-storage/src/lib.rs:139-199 | An import over two openings of a file, which may differ, has the result and leaves the store of the step function. |
| DownloadProviders.NextActiveIs | crates/swagri-node/src/lib.rs:293-302 | The search for a provider fails exactly when all have failed, and otherwise returns the next active one after the cursor. |
| DownloadProviders.RoundRobinIsFair | crates/swagri-node/src/lib.rs:293-302 | As many calls as there are active providers return each of them exactly once, from any starting cursor. |
| DownloadInvariant.RequeuedBudget | crates/swagri-node/src/lib.rs:2720-2741 | A provider that fails gives back at most four blocks, so the number of block requests that may still be made does not grow. |
| DownloadRuns.BlocksRequested | crates/swagri-node/src/lib.rs:2566-2617 | Filling up asks only active providers, ends with four blocks in flight or none waiting, and keeps the state of the download. |
| DownloadRuns.RequestFailedKeeps | crates/swagri-node/src/lib.rs:2692-2757 | A failed request of any kind keeps every download and asks nothing more of the failed provider. |
| DownloadRuns.FailProviderKeeps | crates/swagri-node/src/lib.rs:2759-2798 | Giving up a provider, in whatever order its requests and downloads are visited, keeps every download and leaves nothing outstanding at it. |
| DownloadRuns.FailDownloadKeeps | crates/swagri-node/src/lib.rs:2773-2797 | Once the requests of a failed provider are gone, no download loses its last provider: the branch that reports this is never taken. |
| DownloadRuns.ManifestArrivesKeeps | crates/swagri-node/src/lib.rs:2417-2466 | A manifest, valid or not, with or without missing blocks, keeps every download. |
| DownloadRuns.BlockArrivesKeeps | crates/swagri-node/src/lib.rs:2467-2497 | A block, stored or refused, for a live or a forgotten download, keeps every download. |
| DownloadRuns.BeginKeepsExactly | crates/swagri-node/src/lib.rs:2522-2531 | Beginning a download keeps the invariant exactly when no block request for its content is outstanding. |
| DownloadRuns.StepKeeps | crates/swagri-node/src/lib.rs:2287-2357 | Every event keeps the invariant of all downloads at once. |
| DownloadTheorems.BlocksAreConserved | crates/swagri-node/src/lib.rs:2392-2510 | In every run the missing blocks of a download are the disjoint union of waiting, outstanding and stored ones, each requested once at a time, and all counters are true. |
| DownloadTheorems.NothingSaturates | crates/swagri-node/src/lib.rs:2438-2480 | Between any two events of a run no saturating subtraction that the next answer makes would saturate: an outstanding block is counted as in flight, and there are no more missing blocks than distinct blocks. |
| DownloadTheorems.NothingSaturatesWithin | crates/swagri-node/src/lib.rs:2759-2772 | Nor do those inside one event: after any number of the requests of a failing provider were given up, each block request still outstanding is counted as in flight. |
| DownloadTheorems.NoDownloadStalls | crates/swagri-node/src/lib.rs:2533-2617 | After every event each live download has an active provider and either one manifest request or as many block requests as it may have, none of them at a failed provider. |
| DownloadTheorems.RequestsAreBounded | crates/swagri-node/src/lib.rs:2720-2798 | A download never makes more block requests than it has missing blocks and four for each provider. |
| DownloadTheorems.StepAdvances | crates/swagri-node/src/lib.rs:2475-2496 | An answer strictly lowers (active providers, manifest unknown, blocks left) of its download or ends it, and no event raises it for any other. |
| DownloadTheorems.DownloadsEnd | crates/swagri-node/src/lib.rs:2392-2510 | From every reachable state a download that stays live gets fewer answers than it has active providers and blocks left, its manifest and the blocks it then misses included. |
| DownloadFailover.FailoverIsExact | crates/swagri-node/src/lib.rs:2759-2798 | A failing provider stops exactly the downloads that have no other active provider. |
| DownloadFailover.RefusedBlockEndsDownload | crates/swagri-node/src/lib.rs:2475-2487 | A block ends its download outright, whatever the other providers are, exactly when it does not match its reference, or is not held and has no room under the quota, or cannot be written; each of the three is reported as such. |
| DownloadFailover.GoodBlockKeepsDownload | crates/swagri-node/src/lib.rs:2475-2496 | After a block the download is live or has reached its commit exactly when none of these reasons holds. |
| DownloadOutcomes.WhenADownloadBegins | crates/swagri-node/src/lib.rs:2522-2531 | A fetch command begins a download exactly when none of this content is active and it names one to eight providers; each is a provider once, and the first is asked for the manifest. |
| DownloadOutcomes.WhenAManifestIsTaken | crates/swagri-node/src/lib.rs:2417-2466 | A manifest that was asked for: valid with missing blocks, the download goes on with exactly these; valid with none, it has reached its commit; invalid, it goes on without it exactly when another provider is active. |
| DownloadOutcomes.GivenUpIsFailed | crates/swagri-node/src/lib.rs:2773-2797 | A provider that is given up counts as failed for every download that lists it and lives on, and nothing is outstanding there. |
| DownloadDamage.OneDamagedBlockEndsDownload | crates/swagri-node/src/lib.rs:2475-2487 | A reachable state with two active providers and none failed, in which one damaged block ends the download while an error reply would not. |
| DownloadRestart.StaleBlockEndsNewAttempt | crates/swagri-node/src/lib.rs:2467-2493 | A block that an earlier attempt asked for ends a new attempt whose manifest has not come. |
| DownloadRestart.RestartCanFail | crates/swagri-node/src/lib.rs:2481-2493 | A concrete run in which this happens: the first attempt ends by a block that does not fit, the block answered to the second one fits. |
| DownloadToStore.StepKept | crates/swagri-node/src/lib.rs:2417-2497 | Through every event each block of the manifest is in order in the store or is missing and not yet stored. |
| DownloadToStore.NothingMissing | crates/swagri-node/src/lib.rs:2488-2493 | When the last block is stored, every block of the manifest is in order. |
| DownloadToStore.DownloadDelivers | crates/swagri-node/src/lib.rs:2475-2659 | A download whose manifest describes a file is complete with its last block exactly when the artifact is published already or its manifest fits beside all that is used and can be written, and then exports as exactly that file; else the quota or the disk is reported, whichever applies; whichever providers failed on the way. |
| DownloadToStore.ResumeDelivers | crates/swagri-node/src/lib.rs:2417-2449 | The same when nothing is missing as the manifest comes. |
| DownloadToStore.ManifestAlwaysReceived | crates/swagri-node/src/lib.rs:2619-2626 | No download of an admissible run ends for want of its manifest. |
| DownloadHandlers.ArtifactDownload.NextActiveProvider | crates/swagri-node/src/lib.rs:293-302 | The loop over the providers returns the choice and moves the cursor as the search function says. |
| DownloadHandlers.ArtifactDownload.ActiveProviderCount | crates/swagri-node/src/lib.rs:286-291 | The loop counts the providers that have not failed. |
| DownloadHandlers.DownloadHandlers.RequestArtifactManifest | crates/swagri-node/src/lib.rs:2533-2564 | The next provider is asked, or the download is dropped. |
| DownloadHandlers.DownloadHandlers.RequestArtifactBlocks | crates/swagri-node/src/lib.rs:2566-2617 | The loop that pops blocks and asks providers changes the whole state as the step function says. |
| DownloadHandlers.DownloadHandlers.HandleRequestFailure | crates/swagri-node/src/lib.rs:2692-2757 | One failed request. |
| DownloadHandlers.DownloadHandlers.FailArtifactProvider | crates/swagri-node/src/lib.rs:2759-2798 | The two loops over the requests and the downloads of a failed provider. |
| DownloadHandlers.DownloadHandlers.FinishArtifactDownload | crates/swagri-node/src/lib.rs:2619-2659 | The end of a download, with its commit to the store. |
| DownloadHandlers.DownloadHandlers.HandleManifest | crates/swagri-node/src/lib.rs:2417-2466 | A manifest and the first requests for its missing blocks. |
| DownloadHandlers.DownloadHandlers.HandleBlock | crates/swagri-node/src/lib.rs:2467-2497 | A block, with what it changes in the store. |
| DownloadHandlers.DownloadHandlers.HandleArtifactResponse | crates/swagri-node/src/lib.rs:2392-2510 | Any response to any request. |
| DownloadHandlers.DownloadHandlers.BeginArtifactDownload | crates/swagri-node/src/lib.rs:3172-3228 | The guards of the fetch commands, the distinct providers in order, and the first request. |
| DownloadHandlers.DownloadHandlers.HandleEvent | crates/swagri-node/src/lib.rs:2287-2357 | Every event changes the downloads, the outstanding requests and the store as the step function says, so every theorem over runs is about these objects. |
| UpdateTransfer.ReadyIsVerified | crates/swagri-node/src/lib.rs:1998-2193 | Against any peers: at most one request is outstanding, and a package is reported ready only if its length and digest are those of a manifest accepted for the peer that sent it. |
| UpdateTransfer.TransferIsExact | crates/swagri-node/src/lib.rs:2254-2285 | Against a server that serves the described file the client holds exactly the first k chunks after k exchanges, and reports the whole file after exactly as many chunks as it has. |
| UpdateTransfer.OnlyWrongKindsWedge | crates/swagri-node/src/lib.rs:2023-2157 | A response leaves the client waiting for nothing exactly when it is of the wrong kind for its request. |
| UpdateTransfer.WedgedForever | crates/swagri-node/src/lib.rs:1960-1973 | Over every sequence of events such a client changes nothing but its outcomes, to which each command to begin an update adds one refusal. |
| UpdateTransfer.AClientCanWedge | crates/swagri-node/src/lib.rs:2079-2083 | A concrete run that brings a client there: a trusted peer answers the request for the manifest with a chunk. |
| UpdateOutcomes.ReadyWasAllowed | crates/swagri-node/src/lib.rs:1941-2193 | Over runs against any peers: a package is reported ready only if its component was asked of the peer that sent it, by a command that found updates enabled and this peer trusted. |
| UpdateOutcomes.WhenAnUpdateBegins | crates/swagri-node/src/lib.rs:1941-1978 | The peer is asked for its manifest exactly when updates are enabled, it is trusted and no update is active; otherwise only the refusal is reported. |
| UpdateOutcomes.WhenAManifestIsAccepted | crates/swagri-node/src/lib.rs:2023-2067 | The manifest that was asked for opens the download exactly when it announces one byte to 128 MiB, is genuine and the file can be created. |
| UpdateOutcomes.WhenAChunkIsTaken | crates/swagri-node/src/lib.rs:2079-2146 | A chunk is taken exactly when it continues the file, is not empty, stays within the announced size and can be written; the complete file is ready exactly when its digest is the announced one; all else ends the update. |
| UpdateOutcomes.WhenAChunkIsServed | crates/swagri-node/src/lib.rs:2254-2285 | A server sends a chunk exactly when it is asked for the version it has, within the announced size and its file; it sends these bytes, at most 256 KiB. |
| UpdateOutcomes.AnotherVersionEndsTheTransfer | crates/swagri-node/src/lib.rs:2254-2265 | If the server has another version by the next request, the transfer ends and nothing is reported ready. |
| UpdateClient.UpdateManager.HandleChunk | crates/swagri-node/src/lib.rs:2079-2146 | A chunk is refused, appended, or completes the package, which is then checked. |
| UpdateClient.UpdateManager.VerifyDownload | crates/swagri-node/src/lib.rs:2883-2901 | Reading in pieces of any length, the loop accepts exactly the files with the length and the digest of the manifest. |
| UpdateClient.UpdateManager.HandleEvent | crates/swagri-node/src/lib.rs:1998-2193 | Every event changes the whole state as the step function says. |

## Left out

* Visiting orders: the program visits jobs in the order of their text identifiers, the model by number; workers of equal
  score may be selected in any order; provider requests are visited in any order. No stated property depends on these.
* The age of an observation is read once for a turn; the program reads the clock for every worker.
* The table of observations is not updated by replies; it may be different in every turn instead.
* MatrixModel.Honest: a remote worker that lies about its checksum is not modelled, because the coordinator cannot
  notice.
* Overlapping store calls: in the program an import runs on another thread beside the event loop, so the quota is proved
  for calls one after the other.
* Temporary files, renames, crashes and foreign changes to the directories. A read that fails is modelled only in
  `store_block`: elsewhere it ends the call without a change, except in `missing_blocks`, which lists the block as
  missing and goes on.
* StorageTheorems.ImportThenExport: assumes that the content of the artifact, if already published, does not collide
  with the imported bytes.
* Text forms: job and request identifiers, hex digests, JSON and CBOR encodings, messages and progress events.
* The signature, version, platform and key checks of an update manifest are one arbitrary predicate; its size check is
  modelled.
* A worker or provider that is asked answers from its own store or executor; the serving side of artifacts
  (`serve_artifact_request`) only calls store operations that are modelled, and is left out.
* Installing an update, the updater program, resource sampling, calibration, placement of single computations, the
  Debugger, the Android app and the network transport.
