# A verified model of the download queue

This project models two components of the download daemon in Dafny and proves what they are for.

**The MEGA payload decryptor.** A downloaded MEGA file is decrypted in counter mode and checked
against a MAC that is computed while the bytes stream by. `bytes.dfy`, `mega_mac_spec.dfy`,
`mega_mac.dfy` and `mega_payload.dfy` define the MAC of a whole file in one shot, model the
incremental calculator as a class with its buffers, and prove that it agrees with the one-shot
definition however the data is cut. The in-place decryption is proved all-or-nothing under every
schedule of reads, faults and cancellations. The block cipher is an arbitrary function from blocks to
blocks; base64 decoding is not modelled, so key material arrives as bytes.

**The queue.** Job rows are changed by single SQL statements (`jobs.dfy`, `store.dfy`), by service
calls that also command the download engine (`service.dfy`), by a polling runner (`planning.dfy`,
`runner.dfy`, `scheduler.dfy`) and by decrypt workers (`workers.dfy`). `volumes.dfy` (on `text.dfy`)
holds the naming rules of multi-volume archives. Two granularities are used:

* *Statement level* (`statement_runs.dfy`): single statements of any number of users, workers and
  claimers, and of one runner, interleave freely. The select and the conditional update of a claim are
  two separate steps.
* *Serialised level* (`system.dfy`): each service call, the runner's handling of one row, the claim and
  start of one job, the call of the MEGA decryptor in a decrypt run, and the rest of that run with its
  closing writes are single steps. The runner's passes work on
  snapshots; `runner.dfy` and `scheduler.dfy` prove that each pass equals a sequence of these steps, so
  theorems about all step sequences (`orphans.dfy`, `watched.dfy`, `postprocess.dfy`, `payloads.dfy`,
  `multipart.dfy`, `rows.dfy`, `control_files.dfy`) hold of passes and ticks. `StaleRequeueOrphans`
  shows that this serialisation is really needed. `scenarios.dfy`, `unseen_volume.dfy` and `dot_dot.dfy`
  hold runs from the empty system that show the exceptions happening.

`workers.dfy` is finer still: every atomic action of every goroutine is a step.

A run is a sequence of steps; a step that cannot happen in the current state changes nothing. What the
environment decides (engine answers, resolver outcomes, read sizes, faults, times, settings, which files
exist) is an argument of the step, so every theorem covers all of it. Counters such as "how often was
this row claimed" are kept beside the state and never consulted by it. The MEGA decryptor
works on the download that is there when it is called; a payload counts as encrypted until such a call
has succeeded since the engine completed the download.

The methods of `Store` for single statements are each proved to do to the whole table what
`Jobs.Apply` says; the table below lists those that say something beyond the SQL text.
Definitions that both a method and its specification use are read out independently of them: the MAC and
the key stream byte by byte (`MacReadOut`, `PlaintextReadOut`), plans and options (`plans.dfy`), file names
letter by letter (`volume_names.dfy`), and what each step does to the columns of its row, with codes
and delays as they are (`row_effects.dfy`).

Assumptions: database writes succeed; a task the engine adds is new, and an engine error on adding means
that no task was added; the engine accepts pause and unpause only for live tasks, answers "not found"
only for tasks that are not live, and never revives a stopped task. Task identifiers are numbers.
Integers are unbounded except where a width decides a branch (the part number of a volume must fit a
64-bit integer).

## Findings

* **A MEGA payload can be decrypted twice.** The guard against this in `shouldDecryptMega` tests whether
  the downloaded file is an archive by name, and that fails for every old-style volume (`x.r00`, `x.r01`,
  ...; `OldVolumesAreNotArchives`), although extraction then starts from the archive `x.rar`. A failed
  extraction of such a set, retried by the user, decrypts the already decrypted file again, contrary to
  the comment in the source (internal/queue/runner.go:522-523). `PayloadDecryptedTwice` is the run, from
  the empty system to two decryptions of one download, for every MEGA job so named; `OldVolumeExample` is
  the run for `/d/x.r00`. With a 16-byte key, which carries no MAC, `DecryptTwice` shows that this turns the
  file back into the ciphertext. How far it goes, for every run and every job: the decryptions are at most
  the downloads plus the times that the guard was missed (`MegaDecryptedOncePerDownload`), and for a job
  that the user named like an archive they are at most the downloads (`NamedArchiveNeverReopened`).
* **A failed payload decryption of an archive is not tried again.** The same guard only looks at whether
  there is an error code, not which one. `RetriedThenDispatched` states everything that can become of a
  retried job, with exact conditions; by `FailedPayloadIsPassedOver` an archive is extracted as it is, or
  completed with its payload still encrypted where archives are not extracted. `FailedPayloadCompleted` is
  that run, and `ArchiveExample` the run for `/d/x.rar`.
* **A retry during a decrypt run mixes up two downloads.** The retried job goes back to the queue while
  its old task lives on. If that run ends while the new download is running, it closes the job
  (`CompletedWhileDownloading`): nobody polls it any more, and the new download ends unseen and encrypted
  (`LastDownloadUnseen`). `WatchedThroughoutIff` is the exact condition over all runs: every running
  download stays watched exactly if no decrypt run ends for a job that is downloading. If the new
  download ends first, but after the old run has dealt with the payload, the old run completes the job
  with the new payload encrypted (`NewPayloadPassedOver`); a run that still waits for its token
  decrypts the new payload instead (`WaitingRunDecryptsNewPayload`). `PassedOverIff` collects the causes
  for which a MEGA job is completed with its payload encrypted, as an if-and-only-if over all runs: the code
  of a failure on an archive, a task that is done with the payload when a download arrives, and the
  completion of a job that is downloading.
* **Volumes without a name of their own are not waited for.** A job is known to be a volume by its output
  name, and a job in the queue has none but the one a user gave (`QueuedSeenByUserName`).
  `ExtractedTooEarly` is a run in which the first volume is handed to extraction while the second is
  queued, and the second then downloads as a volume of that archive.
* **Control files and `..`.** An output may be named `..`: sanitising lets it through, and a user can give
  it with blanks around it (`BlankedDotDot`), although `..` itself is refused. Its control file is that of
  the directory above. `ControlFileTakenIff` is the exact condition, over all runs and steps, under
  which a start takes the control file of another job at work away; it always involves such a name
  (`SharedControlFile`). `ControlFileTaken` is the run, in both directions, and `DotDotExample` the run for
  `/d/a` and the name ` .. ` in `/d/a/x`.
* **First volumes.** `multipartArchiveFirstVolume` is idempotent and stays within the group except for
  old-style volumes whose stem is itself a numbered part (`x.part2.r00`); both exceptions are exact.

## Model

| member | source | states |
|---|---|---|
| MegaMacSpec.ChunkStartClosedForm | internal/queue/mega_decryptor.go:202-207 | chunk starts are 0x10000·k(k+1) up to the eighth chunk and grow by 1 MiB afterwards |
| MegaMacSpec.ChunkIndexUnique | internal/queue/mega_decryptor.go:202-207 | a byte position lies in one chunk only |
| MegaMacSpec.ChunkIndexExists | internal/queue/mega_decryptor.go:202-207 | every byte position lies in a chunk |
| MegaMacSpec.ChunkStartsAligned | internal/queue/mega_decryptor.go:202-207 | chunks start on block boundaries |
| MegaMacSpec.CbcMacSnoc | internal/queue/mega_decryptor.go:260-265 | one more block costs one exclusive or and one encryption |
| MegaMacSpec.FoldResumes | internal/queue/mega_decryptor.go:243-258 | the fold over all chunks can be resumed after any number of complete chunks |
| MegaMacSpec.TracksTotal | internal/queue/mega_decryptor.go:243-277 | closed chunks plus a last chunk that may be empty or short give the whole MAC; no chunk is added at a boundary |
| MegaMacSpec.MacReadOut | internal/queue/mega_decryptor.go:267-277 | the eight bytes of the MAC: the file MAC folded from zero over the chunks, first word with second, third with fourth |
| MegaMacSpec.FoldSnoc | internal/queue/mega_decryptor.go:254-257 | each chunk MAC is joined to the file MAC by exclusive or, which is then encrypted |
| MegaMacSpec.ChunksReadOut | internal/queue/mega_decryptor.go:202-225 | the chunks are the data between one chunk start and the next, and cover it |
| MegaMacCalculator.MacCalculator.constructor | internal/queue/mega_decryptor.go:191-200 | a new calculator stands for the empty file |
| MegaMacCalculator.MacCalculator.Write | internal/queue/mega_decryptor.go:209-225 | whatever is written, in whatever pieces, the state is that of the concatenation |
| MegaMacCalculator.MacCalculator.WriteChunkBytes | internal/queue/mega_decryptor.go:227-241 | buffer and chunk MAC represent the chunk so far |
| MegaMacCalculator.MacCalculator.CloseChunk | internal/queue/mega_decryptor.go:218-223 | a full chunk is folded in and the next one opened |
| MegaMacCalculator.MacCalculator.FinalizeChunk | internal/queue/mega_decryptor.go:243-258 | the padded chunk is folded into the file MAC, once, and not at all if it is empty |
| MegaMacCalculator.MacCalculator.MixBlock | internal/queue/mega_decryptor.go:260-265 | one CBC step in place |
| MegaMacCalculator.MacCalculator.Sum | internal/queue/mega_decryptor.go:267-277 | the result is the one-shot MAC of everything written, given byte by byte, and stays so |
| MegaMacCalculator.MacCalculator.Position | internal/queue/mega_decryptor.go:179-225 | chunk index, remaining bytes and buffer length are functions of the number of bytes written |
| MegaMacCalculator.MacOfPieces | internal/queue/mega_decryptor.go:191-277 | for every cipher, nonce and split, empty pieces included, the MAC is the one-shot MAC of the concatenation, also when asked for twice |
| MegaPayload.ParsePackedKey | internal/queue/mega_decryptor.go:62-84 | every AES key, nonce and MAC is carried by some key material, and parsing recovers it |
| MegaPayload.PackParsedKey | internal/queue/mega_decryptor.go:62-84 | parsing accepts exactly 16 and 32 bytes and loses nothing |
| MegaPayload.KeyLayout | internal/queue/mega_decryptor.go:66-76 | where AES key, nonce and MAC are found in 32 bytes |
| MegaPayload.CounterSteps | internal/queue/mega_decryptor.go:101-103 | read as a number, the next counter block is one more, or zero after the greatest |
| MegaPayload.PlaintextReadOut | internal/queue/mega_decryptor.go:101-137 | each byte of the plaintext is its exclusive or with the encrypted counter of its block, counting from the nonce and eight zero bytes |
| MegaPayload.CtrSlice | internal/queue/mega_decryptor.go:130-145 | a stream decrypted piece by piece at the right offsets is the stream decrypted at once |
| MegaPayload.CtrTwice | internal/queue/mega_decryptor.go:137 | applying the key stream twice gives the data back |
| MegaPayload.QuietReadsGetThrough | internal/queue/mega_decryptor.go:130-153 | however the reads are cut, a schedule without faults reaches the end of the file |
| MegaPayload.DisturbedReadsFail | internal/queue/mega_decryptor.go:128-152 | a read that is cancelled or fails, or whose bytes cannot be written, stops the loop |
| MegaPayload.ReadsUntilEof | internal/queue/mega_decryptor.go:146-152 | unless end of file comes with the last bytes, one more read must go well |
| MegaPayload.DecryptInPlace | internal/queue/mega_decryptor.go:86-177 | success exactly if nothing fails and the MAC, if the key has one, matches; then the path holds the complete plaintext, with that MAC byte by byte; otherwise the disk is as before; in every intermediate state the path holds the original |
| MegaPayload.FillTemp | internal/queue/mega_decryptor.go:123-171 | the temporary file is complete and verified exactly when this succeeds, and nothing else is touched |
| MegaPayload.ReadLoop | internal/queue/mega_decryptor.go:128-153 | the loop succeeds exactly if no turn is cancelled or fails, the one that finds the end of the file included; temporary file and MAC calculator have then taken the same plaintext |
| MegaPayload.DecryptUndoesEncrypt | internal/queue/mega_decryptor.go:62-177 | a file encrypted under a 32-byte key that carries its MAC decrypts to the plaintext in any read chunking |
| MegaPayload.DecryptTwice | internal/queue/mega_decryptor.go:77-80 | with a 16-byte key two decryptions restore the downloaded file |
| Jobs.StatementsKeepPristine | internal/queue/store.go:240-489 | every statement keeps queued rows free of leftovers, resolving rows without a task, deleted rows marked |
| Jobs.AttemptsOnlyGrow | internal/queue/store.go:292-489 | attempts never decrease and only a recorded failure makes a row failed |
| StatementRuns.ExclusiveClaim | internal/queue/store.go:240-290 | in every interleaving of any number of claimers a row is claimed at most once more than it was requeued |
| StatementRuns.BoundedAutomaticRetry | internal/queue/store.go:211-237 | whatever users do, a row is requeued automatically at most max_attempts - 1 times; without manual requeues it is claimed at most max_attempts times |
| StatementRuns.ClaimFilterCollapses | internal/queue/store.go:248-255 | in every reachable state the claim query finds the lowest queued id |
| StatementRuns.ReachableRowsPristine | internal/queue/store.go:448-489 | the row invariant holds in every reachable state |
| StoreModule.Store.CreateJob | internal/queue/store.go:62-76 | a queued row with defaults under the next id |
| StoreModule.Store.List | internal/queue/store.go:96-132 | exactly the rows that pass the filter, each once, in order |
| StoreModule.Store.ListPendingPostprocess | internal/queue/store.go:136-170 | the pending rows by id, cut off at the limit |
| StoreModule.Store.ClaimNextQueued | internal/queue/store.go:240-290 | with other connections writing between lookup and update, the row taken was still queued at the update; nothing is returned only when nothing is claimable; undisturbed, the lowest id is taken |
| StoreModule.Store.MarkDecryptingRetry | internal/queue/store.go:371-386 | a failed decryption goes back to decrypting with its error and code kept; no other row changes |
| StoreModule.Store.MarkPostprocessFailed | internal/queue/store.go:392-409 | a blank code is replaced and the first completion time kept; no other row changes |
| StoreModule.Store.MarkFailed | internal/queue/store.go:419-446 | the failure of one job is recorded as `RowEffects.FailureRetriedIff` reads it; no other row changes |
| StoreModule.Store.Requeue | internal/queue/store.go:448-471 | the row is as if newly created, except for its attempts |
| StoreModule.Store.ClearCompleted | internal/queue/store.go:482-489 | all completed rows are deleted, no others |
| Volumes.FirstVolumeKeepsGroup | internal/queue/archive_decryptor.go:180-263 | a volume and its first volume have the same group key, except for old-style volumes of a numbered part |
| Volumes.FirstVolumeIdempotent | internal/queue/archive_decryptor.go:180-219 | asking twice changes nothing, except for old-style volumes of a later numbered part |
| Volumes.LaterPartsAgree | internal/queue/archive_decryptor.go:189-207 | later parts lead to one first volume exactly if prefix and digit width agree |
| Volumes.PartNumberedOldVolumeExample | internal/queue/archive_decryptor.go:209-216 | a name for which both exceptions occur |
| VolumeNames.FirstOfPart | internal/queue/archive_decryptor.go:189-207 | `x.part07.rar` in any case leads to `x.part01.rar`, its zeros kept; parts up to one and numbers too large stay |
| VolumeNames.FirstOfOld | internal/queue/archive_decryptor.go:209-216 | `x.r07` leads to `x.rar` and is in the group of its stem |
| VolumeNames.OldVolumeIff | internal/queue/archive_decryptor.go:209-211 | the old-style volumes are the names ending in a dot, an r and two digits, with something before |
| VolumeNames.KeyOfPart | internal/queue/archive_decryptor.go:243-251 | parts are grouped by directory and prefix, in any case |
| VolumeNames.PlainRar | internal/queue/archive_decryptor.go:252-253 | a `.rar` file without part number is its own first volume, in the group of its stem |
| VolumeNames.OtherFiles | internal/queue/archive_decryptor.go:218-263 | every other file stands alone |
| VolumeNames.ArchiveIff | internal/queue/archive_decryptor.go:68-88 | the thirteen extensions of archives, in any case |
| Planning.ArchiveDecryptWait | internal/queue/runner.go:462-513 | the scan counts the volumes on their way; its answer is positive exactly if another visible job of the group in that directory is queued, resolving, downloading or paused, whatever the two flags say |
| Planning.PrepareOutputForStart | internal/queue/runner.go:169-231 | the control file goes exactly if a fresh start is requested, no other visible job with that output is queued, resolving, downloading, paused or decrypting, and its removal does not fail |
| ServiceModule.Service.CreateJob | internal/queue/service.go:33-67 | refused exactly if directory or name are; else a new job with at least one attempt, five by default, and a trimmed password |
| ServiceModule.Service.RemoveEngineTask | internal/queue/service.go:225-239 | success exactly if the engine accepts or rightly does not know the task, which is then not live; after a refusal it may or may not be |
| ServiceModule.Service.Retry | internal/queue/service.go:106-126 | the whole new state and the reason of a refusal |
| ServiceModule.Service.RemoveJob | internal/queue/service.go:128-142 | the whole new state and the reason of a refusal |
| ServiceModule.Service.Pause | internal/queue/service.go:152-180 | the whole new state; success exactly if the job had not started or its task is live and the engine agrees; otherwise a missing task and a refusal are told apart |
| ServiceModule.Service.Resume | internal/queue/service.go:182-223 | the whole new state and exactly when the call succeeds; a refusal changes no row |
| RunnerModule.Runner.BuildDecryptTask | internal/queue/runner.go:427-460 | the plan of `PlanFor`, which the next three members read out |
| Plans.EntryReadOut | internal/queue/archive_decryptor.go:165-178 | extraction starts from the first volume of a file exactly if that is another file and exists |
| Plans.TasksReadOut | internal/queue/runner.go:427-442 | the MEGA decryptor gets the reported path or the one of the row, extraction its entry and the trimmed password, and when either is wanted |
| Plans.PlansReadOut | internal/queue/runner.go:443-460 | nothing to do, an unknown file name, waiting or going ahead, each exactly |
| Plans.DispatchedReadOut | internal/queue/runner.go:331-334 | dispatches deal with decrypting jobs, and with completed ones that have a password if that is wanted |
| Plans.FreshReadOut | internal/queue/runner.go:183-186 | a fresh start is asked for by either of two options, in any case |
| Plans.OptionsReadOut | internal/queue/runner.go:126-139 | options of the resolver go before directory and name, the user's name before the resolver's |
| RunnerModule.Runner.QueueDecryptFromStatus | internal/queue/runner.go:299-321 | the plan is carried out for a finished download unless there is nothing to do |
| RunnerModule.Runner.UpdateActive | internal/queue/runner.go:248-297 | the pass over a snapshot equals polling every listed job afresh, in order |
| RunnerModule.Runner.DispatchCompletedDecrypt | internal/queue/runner.go:323-368 | the pass over a snapshot of at most 100 jobs equals dispatching each afresh, in order; with at most 100 jobs pending every ready archive has a task afterwards |
| RunnerModule.Runner.DecryptPayload | internal/queue/runner.go:385-402 | a run that holds its token calls the MEGA decryptor once, and remembers whether that failed |
| RunnerModule.Runner.CloseRun | internal/queue/runner.go:403-425 | extraction, the closing writes and the end of the task |
| RunnerModule.Runner.RunDecrypt | internal/queue/runner.go:377-425 | both together: payload, archive and closing writes |
| RunnerModule.Runner.RequeueFailed | internal/queue/runner.go:233-246 | the pass equals requeuing each due job afresh, earliest first |
| RowEffects.PollShowsProgress | internal/queue/runner.go:265-292 | the columns that a report on a running download sets |
| RowEffects.PollRecordsFailure | internal/queue/runner.go:258-290 | code, message, attempts and time of the next attempt of a failed or unknown download |
| RowEffects.PollCompletes | internal/queue/runner.go:273-283 | the columns of a download that is completed without post-processing |
| RowEffects.PollHandsOver | internal/queue/runner.go:299-321 | the columns and the task of a download that goes to post-processing |
| RowEffects.GivenUp | internal/queue/store.go:392-417 | the columns after post-processing has failed |
| RowEffects.CodeOfFailure | internal/queue/store.go:392-409 | a blank code is replaced |
| RowEffects.DispatchEffect | internal/queue/runner.go:331-366 | the columns and the task after a dispatch |
| RowEffects.RunEndEffect | internal/queue/runner.go:386-425 | the columns after a decrypt run, by its outcome |
| RowEffects.StartEffect | internal/queue/runner.go:117-167 | the columns of a started job, and its new task |
| RowEffects.UnresolvedEffect | internal/queue/runner.go:649-664 | code and delay for each resolver error |
| RowEffects.NotStartedEffect | internal/queue/runner.go:119-164 | code and delay for a wrong engine, a control file that stays, and a refusal |
| RowEffects.RetryEffect | internal/queue/service.go:106-126 | what a manual retry does to the row, and when |
| RowEffects.RemoveEffect | internal/queue/service.go:128-142 | what a removal does to the row, and when |
| RowEffects.PauseEffect | internal/queue/service.go:152-180 | what a pause does to the row, and when |
| RowEffects.ResumeEffect | internal/queue/service.go:182-223 | what a resumption does to the row, and when |
| RowEffects.ClearEffect | internal/queue/store.go:482-489 | clearing deletes exactly the completed jobs |
| RowEffects.RequeuedIff | internal/queue/store.go:211-237 | the runner queues a job again exactly if it has failed, is visible, its time has come and it has attempts left; the row is then as new |
| RowEffects.FailureRetriedIff | internal/queue/store.go:419-446 | a recorded failure with a retry time is queued again exactly from that time on, if attempts are left |
| RowEffects.PollFailureRetriedIff | internal/queue/runner.go:253-290 | after a failed download: two minutes if the task is unknown, two hours for the quota, else ten minutes |
| RowEffects.UnresolvedRetriedIff | internal/queue/runner.go:111-116 | after a failed resolution: half an hour to a day, by the error |
| RowEffects.NotStartedRetriedIff | internal/queue/runner.go:119-164 | after a failed start: half an hour for a wrong engine, else ten minutes |
| RunnerModule.PollTouches | internal/queue/runner.go:253-295 | polling a job leaves all other rows alone, so the snapshot stays accurate |
| RunnerModule.DispatchTouches | internal/queue/runner.go:331-366 | dispatching a job leaves all other rows alone |
| Orphans.NoOrphanedDownloads | internal/queue/runner.go:105-167 | in every run each live task belongs to exactly one job, no failed job has a live task, every downloading job has a task |
| Orphans.TasksNeverOverwritten | internal/queue/store.go:300-306 | in every run a stored task is cleared before another takes its place |
| Orphans.ServiceKeepsInv | internal/queue/service.go:106-239 | service calls keep tasks and jobs together |
| Orphans.RunnerKeepsInv | internal/queue/runner.go:233-297 | polling, dispatching and automatic retries keep tasks and jobs together |
| Orphans.StartKeepsInv | internal/queue/runner.go:105-167 | claiming and starting a job keeps tasks and jobs together |
| Orphans.StaleRequeueOrphans | internal/queue/service.go:117-124 | a requeue without the removal before it orphans a live task |
| Watch.StepWatched | internal/queue/runner.go:248-297 | every step keeps each running download watched (its job visible and downloading or paused), exactly unless it ends a decrypt run of a job that is downloading |
| Watch.WatchedThroughoutIff | internal/queue/runner.go:377-425 | in every run, each running download is watched at every moment exactly if no decrypt run ends for a job that is downloading |
| Postprocess.PostprocessingCannotLoop | internal/queue/runner.go:299-425 | in every run finished decrypt runs never exceed finished downloads plus manual retries |
| Postprocess.FinishedRunLeavesList | internal/queue/runner.go:377-425 | a finished run takes its job off the pending list |
| Postprocess.MegaDecryptedOncePerDownload | internal/queue/runner.go:515-531 | in every run the payload is decrypted at most once per download, plus once for each task that a failed job gets although its file is not an archive by name |
| Postprocess.NamedArchiveNeverReopened | internal/queue/runner.go:522-529 | a job that the user named like an archive has its payload decrypted at most once per download |
| Payloads.CompletedMeansDecrypted | internal/queue/runner.go:370-425 | in every run a MEGA job that was never passed over is completed only if the MEGA decryptor has succeeded since its last download arrived |
| Payloads.AtRiskMeansEndsEncrypted | internal/queue/runner.go:385-425 | a job can be completed with its payload encrypted within one step of the engine or of its run exactly if it is completed too early, or its task is done with the payload and has not seen the last download |
| Payloads.PassedOverIff | internal/queue/runner.go:370-425 | in every run a MEGA job is at some moment completed with its payload encrypted, or one such step away, exactly if it was passed over: handled with a code and an archive name, given a new download while its task was done with the payload, or completed while downloading |
| Scenarios.PayloadDecryptedTwice | internal/queue/runner.go:522-529 | the run: extraction of an old-style volume fails, is retried, and one download is decrypted twice |
| Scenarios.OldVolumeExample | internal/queue/runner.go:522-529 | that run for `/d/x.r00` |
| Scenarios.FailedPayloadCompleted | internal/queue/runner.go:524-529 | the run: the payload decryption of an archive fails, is retried, and the job is completed with its payload encrypted |
| Scenarios.ArchiveExample | internal/queue/runner.go:524-529 | that run for `/d/x.rar` |
| Scenarios.CompletedWhileDownloading | internal/queue/runner.go:419-421 | the run: a decrypt run outlives a retry and completes the job while its new download is live |
| Scenarios.LastDownloadUnseen | internal/queue/runner.go:419-424 | the run: that download then ends, its payload stays encrypted, and neither a task nor the pending list knows the job |
| Scenarios.NewPayloadPassedOver | internal/queue/runner.go:370-375 | the run: the payload is decrypted, the job retried and downloaded again, and the old run completes it with the new payload encrypted |
| Scenarios.WaitingRunDecryptsNewPayload | internal/queue/runner.go:377-388 | the run: an old task that gets its token after the new download decrypts the new payload |
| Multipart.RetriedThenDispatched | internal/queue/runner.go:427-460 | everything that retry and dispatch make of a visible failed job: a task with or without payload decryption, completion, another failure or waiting, each exactly by configuration, row and siblings |
| Multipart.FailedPayloadIsPassedOver | internal/queue/runner.go:522-529 | an archive that failed with a code is not decrypted when retried, and is completed at once where archives are not extracted |
| Multipart.OldVolumesAreNotArchives | internal/queue/archive_decryptor.go:68-88 | no old-style volume is an archive by name, though its first volume is |
| Multipart.RetriedOldVolumeDecryptedAgain | internal/queue/runner.go:515-531 | every old-style volume that failed and is retried gets a task with payload decryption, whether it was decrypted before or not, unless a volume is on its way |
| Multipart.WaitMeansOnItsWay | internal/queue/runner.go:462-513 | the wait rule is: some other visible job whose output name puts it in the same group is not downloaded yet |
| Multipart.SeenByOutputName | internal/queue/runner.go:478-503 | a job is counted as a volume exactly if its output name gives it the same key |
| Multipart.QueuedSeenByUserName | internal/queue/runner.go:484-488 | in every run a queued job is counted exactly if the name its user gave does so |
| UnseenVolume.ExtractedTooEarly | internal/queue/runner.go:484-488 | the run: a volume is extracted while another one, queued without a name, is still to come |
| UnseenVolume.PartsAreTwoVolumes | internal/queue/archive_decryptor.go:221-263 | any two parts of an archive give such a run |
| Multipart.ArchiveTasksStartComplete | internal/queue/runner.go:299-375 | no step schedules an extraction while another volume whose name is known is on its way |
| Multipart.DispatchPassSchedules | internal/queue/runner.go:323-368 | a dispatch pass gives every ready job it visits a task, whatever it does to the others before |
| Multipart.DispatchPassLeavesNobodyBehind | internal/queue/runner.go:323-368 | after a pass over all pending jobs every ready archive has a task, so volumes never wait for each other |
| Scheduler.CountDownloading | internal/queue/runner.go:641-647 | the number of visible downloading rows |
| Scheduler.StartResolvedJob | internal/queue/runner.go:117-167 | a resolved job is started, or fails with the right code and delay; its control file is removed first exactly if that is asked for and safe |
| Scheduler.ResolveClaimed | internal/queue/runner.go:105-167 | a claimed job fails with the right code and delay, or gets a new task |
| Rows.StepKeepsRows | internal/queue/store.go:292-489 | no step changes the site, directory or name of a job or removes it, and only starts and the engine touch control files |
| Rows.RunRowsWellFormed | internal/queue/store.go:448-471 | in every run a queued job has no resolved file name, and its directory and name are clean |
| ControlFiles.SharedControlFile | internal/queue/runner.go:176 | two outputs have one control file exactly if they are the same, or one is named `..` and so hits the other |
| ControlFiles.StartTakesIff | internal/queue/runner.go:169-231 | a start takes the control file of another job at work exactly if it is a fresh one, sees no conflict, the removal succeeds and the two outputs clash through `..` |
| ControlFiles.ControlFileTakenIff | internal/queue/runner.go:169-231 | in every run, the control file of a job at work is removed by a step other than its own start and the engine exactly under that condition |
| DotDot.BlankedDotDot | internal/queue/paths.go:39-65 | a user may give the name ` .. `, and sanitising makes it `..` |
| DotDot.ControlFileTaken | internal/queue/runner.go:169-231 | the run, for all clashing pairs: the second job's start removes the control file that the first is using |
| DotDot.DotDotExample | internal/resolver/webshare.go:59-66 | that run for `/d/a` and the name ` .. ` in `/d/a/x`, both ways round |
| Scheduler.StartJobs | internal/queue/runner.go:87-102 | the loop ends, starts the lowest queued ids in order, never exceeds the limit by starting, and stops only at the limit or when nothing is queued |
| Scheduler.Tick | internal/queue/runner.go:76-103 | a tick is a run of serialised steps and keeps tasks and jobs together |
| Workers.PendingMapExact | internal/queue/runner.go:591-608 | in every interleaving a job is in the pending map exactly while one goroutine is responsible for it |
| Workers.TokensConserved | internal/queue/runner.go:562-589 | tokens in the channel and in hands always make up its capacity |
| Workers.ReleaseNeverBlocks | internal/queue/runner.go:586-589 | giving a token back never blocks |
| Workers.SemaphoreMadeOnce | internal/queue/runner.go:562-574 | the channel is made once and keeps its capacity |

## Left out

- HTTP API, command line, web interface, shell scripts and container files: plumbing and presentation.
- The JSON-RPC client of the engine and the matching of its error texts: only its error classes are kept.
- The resolvers and their headers: resolution is an arbitrary outcome with arbitrary options.
- AES, base64, URL parsing and link tokens: library code; whether a job is a MEGA or Webshare job is a fixed property of the job.
- The archive tools and their output: an extraction succeeds or fails arbitrarily.
- SQLite itself, database errors, the event log, the columns created_at, updated_at and engine, and process restarts.
- Purge, which resets the id sequence; no run contains it.
- A service without a configured downloader: the calls that would then skip or refuse the engine.
- General path cleaning and non-ASCII text: whether a directory is accepted is an argument, paths are clean and absolute, letters are ASCII.
- Settings validation, display status and the views of the API.
- MegaMacCalculator.MacCalculator.Write: not specified after Sum has closed a chunk that was not full, which the decryptor never does.
- MegaMacCalculator.MacCalculator.Sum: works on bytes, not on big-endian words; exclusive or makes no difference between the two.
- MegaPayload.DecryptInPlace: a crash of the process is covered by the intermediate states only; a temporary file that cannot be removed stays, as in the source.
- Multipart.ArchiveTasksStartComplete: volumes whose name is not known yet are not seen; see the findings.
- ControlFiles.ControlFileTakenIff: an output is known by the name derived from its row, not by one that a resolver puts in its place among the options.
- Two accesses to one file at the same time: a call of the MEGA decryptor is one step and finds the file as the last completed download left it.
- Workers.PendingMapExact: the work between taking a token and taking the mark off is one stretch; its effect on the table is in the serialised model.
