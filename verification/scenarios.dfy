/** Runs from the empty system that show what the theorems about all runs do not exclude. */
module Scenarios {
  import opened Text
  import opened Jobs
  import opened Volumes
  import opened Planning
  import opened QueueSystem
  import opened Postprocess
  import opened Payloads
  import opened Multipart

  // ---------------------------------------------------------------------
  // A system with one job

  /** What a run has made of its only job, number one. */
  datatype Snapshot = Snapshot(status: Status, code: Option<string>, gid: Option<Gid>, state: TaskState, task: Option<Task>,
                               ledger: Ledger, nextGid: Gid)

  ghost predicate Stands(s: Audited, job: Row, at: Snapshot) {
    CoreStands(s.core, job, at) && s.ledger.Keys == {1} && s.ledger[1] == at.ledger
  }

  ghost predicate CoreStands(c: Core, job: Row, at: Snapshot) {
    && c.rows.Keys == {1} && c.nextId == 2 && c.nextGid == at.nextGid
    && TaskOf(c, 1) == at.task && IsStage(c.rows[1], job, at)
    && (at.gid.Some? ==> at.gid.value in c.engine && c.engine[at.gid.value] == at.state)
  }

  lemma NextStands(cfg: Config, s: Audited, step: Step, job: Row, at: Snapshot, at': Snapshot)
    requires Stands(s, job, at) && CoreStands(Next(cfg, s.core, step), job, at')
    requires Bump(cfg, s.core, step, 1, at.ledger) == at'.ledger
    ensures Stands(AuditedNext(cfg, s, step), job, at')
  {
    LedgerOf(cfg, s, step, 1);
  }

  predicate IsStage(row: Row, job: Row, at: Snapshot) {
    && row.source == job.source && row.outDir == job.outDir && row.name == job.name
    && Visible(row) && row.nextRetryAt.None?
    && row.status == at.status && row.errorCode == at.code && row.gid == at.gid
  }

  /** A job with a name of its own keeps its file through all stages. */
  lemma StageFile(row: Row, job: Row, at: Snapshot)
    requires IsStage(row, job, at) && Sanitize(job.name) != ""
    ensures ArchivePath(row) == ArchivePath(job)
  {
  }

  lemma JobCreated(cfg: Config, job: Row)
    requires IsNewJob(job)
    ensures Stands(AuditedRun(cfg, [Create(job)]), job, Snapshot(Queued, None, None, Live, None, BLANK, 1))
  {
    RunSnoc(cfg, [], Create(job));
    assert [] + [Create(job)] == [Create(job)];
  }

  /** The resolver finds the file, with the given name or none, and nothing stands in the way. */
  function FoundAs(file: string): StartOutcome {
    Resolved("", file, 0, map[], None, None)
  }

  const FOUND := FoundAs("")

  function AfterStart(at: Snapshot): Snapshot {
    at.(status := Downloading, gid := Some(at.nextGid), state := Live, nextGid := at.nextGid + 1)
  }

  lemma JobStarted(cfg: Config, s: Audited, job: Row, at: Snapshot, now: Time)
    requires Stands(s, job, at) && at.status == Queued
    ensures Stands(AuditedNext(cfg, s, Start(FOUND, now)), job, AfterStart(at))
  {
    StartStands(cfg, s.core, job, at, now);
    NextStands(cfg, s, Start(FOUND, now), job, at, AfterStart(at));
  }

  lemma StartStands(cfg: Config, c: Core, job: Row, at: Snapshot, now: Time)
    requires CoreStands(c, job, at) && at.status == Queued
    ensures CoreStands(Next(cfg, c, Start(FOUND, now)), job, AfterStart(at))
    ensures Bump(cfg, c, Start(FOUND, now), 1, at.ledger) == at.ledger
  {
    StartIs(cfg, c, FOUND, now);
    StartGoesUnrecorded(cfg, c, now, at.ledger);
    StartStepStands(c, job, at, now);
  }

  lemma StartGoesUnrecorded(cfg: Config, c: Core, now: Time, l: Ledger)
    ensures Bump(cfg, c, Start(FOUND, now), 1, l) == l
  {
  }

  lemma StartStepStands(c: Core, job: Row, at: Snapshot, now: Time)
    requires CoreStands(c, job, at) && at.status == Queued
    ensures CoreStands(StartStep(c, FOUND, now), job, AfterStart(at))
  {
    var claimed := c.(rows := Apply(Claim(1, now), c.rows));
    assert IsLowestClaimable(c.rows, now, 1);
    StartStepOf(c, FOUND, now, 1);
    ApplyToOne(Claim(1, now), c.rows);
    StartOfClaimed(claimed, 1, "", ControlToRemove(claimed.rows, 1, FOUND), now);
  }

  lemma StartOfClaimed(c: Core, id: Id, file: string, control: Option<string>, now: Time)
    requires id in c.rows
    ensures var c' := StartResolved(c, id, FoundAs(file), control, now);
            && c'.nextId == c.nextId && c'.tasks == c.tasks && c'.nextGid == c.nextGid + 1
            && c'.rows == c.rows[id := c.rows[id].(resolvedUrl := Some(""), filename := Some(Sanitize(file)), sizeBytes := Some(0),
                                                    status := Downloading, gid := Some(c.nextGid))]
            && c'.engine == c.engine[c.nextGid := Live]
  {
    ApplyUpdates(UpdateResolving(id, "", Sanitize(file), 0), MarkDownloading(id, c.nextGid), c.rows, id);
  }

  lemma TransferDone(cfg: Config, s: Audited, job: Row, at: Snapshot)
    requires Stands(s, job, at) && at.gid.Some? && at.state == Live
    ensures Stands(AuditedNext(cfg, s, EngineMove(at.gid.value, Some(Complete))), job, AfterArrival(cfg, at))
  {
    NextStands(cfg, s, EngineMove(at.gid.value, Some(Complete)), job, at, AfterArrival(cfg, at));
  }

  function AfterArrival(cfg: Config, at: Snapshot): Snapshot {
    at.(state := Complete, ledger := LedgerAfterArrival(cfg, at.task, at.ledger))
  }

  const QUIET := Report(false, 0, 0, 0, "", false, "")

  /** A complete download for which there is something to do. */
  lemma DownloadSeen(cfg: Config, s: Audited, job: Row, at: Snapshot, env: Surroundings, now: Time)
    requires Stands(s, job, at) && at.status == Downloading && at.gid.Some? && at.state == Complete
    requires PlanFor(cfg, s.core.rows, 1, "", env).Proceed?
    ensures var plan := PlanFor(cfg, s.core.rows, 1, "", env);
            Stands(AuditedNext(cfg, s, Poll(1, QUIET, env, now)), job, AfterDownload(at, plan.task))
  {
    var plan := PlanFor(cfg, s.core.rows, 1, "", env);
    FinishedWithTask(s.core, job, at, plan, now);
    PollIs(cfg, s.core, 1, QUIET, env, now);
    PolledIs(cfg, s.core, 1, QUIET, env, now);
    NextStands(cfg, s, Poll(1, QUIET, env, now), job, at, AfterDownload(at, plan.task));
  }

  /** The stage after a download for which there is something to do; a job that has a task keeps that. */
  function AfterDownload(at: Snapshot, task: Task): Snapshot {
    at.(status := Decrypting, code := None, task := if at.task.Some? then at.task else Some(task),
        ledger := at.ledger.(downloads := at.ledger.downloads + 1))
  }

  lemma FinishedWithTask(c: Core, job: Row, at: Snapshot, plan: Plan, now: Time)
    requires CoreStands(c, job, at) && plan.Proceed? && FindsComplete(c, 1)
    ensures CoreStands(Polled(c, 1, QUIET, plan, now), job, AfterDownload(at, plan.task))
  {
    ApplyToOne(MarkDecrypting(1, 0), c.rows);
  }

  lemma PayloadCalled(cfg: Config, s: Audited, job: Row, at: Snapshot, failed: bool)
    requires Stands(s, job, at) && at.task.Some? && CallsMega(cfg, at.task.value) && at.task.value.payload == Untouched
    ensures Stands(AuditedNext(cfg, s, WorkerPayload(1, failed)), job, AfterCall(at, failed))
  {
    NextStands(cfg, s, WorkerPayload(1, failed), job, at, AfterCall(at, failed));
  }

  function AfterCall(at: Snapshot, failed: bool): Snapshot
    requires at.task.Some?
  {
    at.(task := Some(at.task.value.(payload := if failed then Broken else Unlocked)),
        ledger := LedgerAfterCall(failed, at.ledger))
  }

  /** The only job's task can come to its end. */
  predicate IsCalled(cfg: Config, at: Snapshot) {
    at.task.Some? && (CallsMega(cfg, at.task.value) ==> at.task.value.payload != Untouched)
  }

  lemma RunEnds(cfg: Config, s: Audited, job: Row, at: Snapshot, archiveFailed: bool, now: Time)
    requires Stands(s, job, at) && IsCalled(cfg, at)
    ensures Stands(AuditedNext(cfg, s, WorkerFinished(1, archiveFailed, now)), job, AfterRun(cfg, at, archiveFailed))
  {
    FinishStands(cfg, s.core, job, at, archiveFailed, now);
    NextStands(cfg, s, WorkerFinished(1, archiveFailed, now), job, at, AfterRun(cfg, at, archiveFailed));
  }

  function CodeAfterRun(cfg: Config, task: Task, archiveFailed: bool): Option<string> {
    if CallsMega(cfg, task) && task.payload == Broken then Some("mega_decrypt_failed")
    else if task.decryptArchive && cfg.archive && archiveFailed then Some("archive_decrypt_failed")
    else None
  }

  function AfterRun(cfg: Config, at: Snapshot, archiveFailed: bool): Snapshot
    requires at.task.Some?
  {
    var code := CodeAfterRun(cfg, at.task.value, archiveFailed);
    at.(status := if code.Some? then DecryptFailed else Completed, code := code, task := None,
        ledger := LedgerAfterRun(code.None?, at.gid.Some? && at.state == Live, at.ledger))
  }

  lemma FinishStands(cfg: Config, c: Core, job: Row, at: Snapshot, archiveFailed: bool, now: Time)
    requires CoreStands(c, job, at) && IsCalled(cfg, at)
    ensures CoreStands(FinishStep(cfg, c, 1, archiveFailed, now), job, AfterRun(cfg, at, archiveFailed))
  {
    CodesAreNotBlank();
    ApplyUpdates(FirstClosing(cfg, 1, at.task.value, archiveFailed, now), ClearArchivePassword(1), c.rows, 1);
  }

  lemma FailureRetried(cfg: Config, s: Audited, job: Row, at: Snapshot)
    requires Stands(s, job, at) && at.status == DecryptFailed
    ensures Stands(AuditedNext(cfg, s, Retry(1, Accepted, false)), job,
                   at.(status := Decrypting, ledger := at.ledger.(retries := at.ledger.retries + 1)))
  {
    ApplyToOne(MarkDecryptingRetry(1, s.core.rows[1].bytesDone), s.core.rows);
    LedgerOf(cfg, s, Retry(1, Accepted, false), 1);
  }

  /** A user retries the job while its decrypt run is still going on: it goes back to the queue. */
  lemma BusyRetried(cfg: Config, s: Audited, job: Row, at: Snapshot)
    requires Stands(s, job, at) && at.status == Decrypting && at.gid.Some?
    ensures Stands(AuditedNext(cfg, s, Retry(1, Accepted, false)), job, at.(status := Queued, code := None, gid := None))
  {
    ApplyToOne(Requeue(1), s.core.rows);
    NextStands(cfg, s, Retry(1, Accepted, false), job, at, at.(status := Queued, code := None, gid := None));
  }

  lemma DispatchSeen(cfg: Config, s: Audited, job: Row, at: Snapshot, env: Surroundings, now: Time)
    requires Stands(s, job, at) && at.status == Decrypting && at.task.None? && (cfg.mega || cfg.archive)
    requires PlanFor(cfg, s.core.rows, 1, "", env).Proceed? || PlanFor(cfg, s.core.rows, 1, "", env).Skip?
    ensures var plan := PlanFor(cfg, s.core.rows, 1, "", env);
            Stands(AuditedNext(cfg, s, Dispatch(1, env, now)), job, AfterDispatch(cfg, s.core, at, plan))
  {
    var plan := PlanFor(cfg, s.core.rows, 1, "", env);
    DecryptingIsDispatched(cfg, s.core, 1, env);
    DispatchIs(cfg, s.core, 1, env, now);
    DispatchedIs(cfg, s.core, 1, env, now);
    BumpOfDispatch(cfg, s.core, 1, env, now, at.ledger);
    CarriedOut(cfg, s.core, job, at, plan, now);
    NextStands(cfg, s, Dispatch(1, env, now), job, at, AfterDispatch(cfg, s.core, at, plan));
  }

  function AfterDispatch(cfg: Config, c: Core, at: Snapshot, plan: Plan): Snapshot
    requires 1 in c.rows
  {
    var at' := at.(ledger := LedgerAfterDispatch(cfg, c, 1, plan, at.ledger));
    if plan.Proceed? then at'.(task := Some(plan.task)) else at'.(status := Completed, code := None)
  }

  lemma CarriedOut(cfg: Config, c: Core, job: Row, at: Snapshot, plan: Plan, now: Time)
    requires CoreStands(c, job, at) && at.status == Decrypting && at.task.None? && (plan.Proceed? || plan.Skip?)
    ensures CoreStands(Dispatched(c, 1, plan, now), job, AfterDispatch(cfg, c, at, plan))
  {
  }

  // ---------------------------------------------------------------------
  // What there is to do for the job

  lemma NobodyToWaitFor(t: Table, outDir: string, path: string)
    requires t.Keys == {1}
    ensures !MustWait(t, 1, outDir, path)
  {
  }

  /** After its download a MEGA job with a known file always has something to do. */
  lemma PlanAfterDownload(cfg: Config, t: Table, env: Surroundings)
    requires t.Keys == {1} && t[1].status == Downloading && cfg.mega && t[1].source.mega
    requires !Blank(ArchivePath(t[1])) && !Blank(EntryPath(ArchivePath(t[1]), env.fileExists))
    ensures var plan := PlanFor(cfg, t, 1, "", env);
            && plan.Proceed? && plan.task.decryptMega && plan.task.payload == Untouched
            && plan.task.decryptArchive == ShouldDecryptArchive(cfg, t[1], plan.task.archivePath, plan.task.password, env.autoDecrypt)
            && plan.task.archivePath == EntryPath(ArchivePath(t[1]), env.fileExists)
  {
    NobodyToWaitFor(t, t[1].outDir, EntryPath(ArchivePath(t[1]), env.fileExists));
  }

  // ---------------------------------------------------------------------
  // The runs

  /** A new MEGA job whose file the user has named. */
  predicate NamedMegaJob(job: Row) {
    && IsNewJob(job) && job.source.mega && Sanitize(job.name) != ""
    && CleanPath(ArchivePath(job))
  }

  /** Created, started and downloaded. */
  function Downloaded(job: Row, now: Time): seq<Step> {
    [Create(job), Start(FOUND, now), EngineMove(1, Some(Complete))]
  }

  const READY := Snapshot(Downloading, None, Some(1), Complete, None, BLANK.(arrived := 1), 2)

  /** One more step of a run. */
  lemma RunStands(cfg: Config, steps: seq<Step>, step: Step, job: Row, at: Snapshot)
    requires Stands(AuditedNext(cfg, AuditedRun(cfg, steps), step), job, at)
    ensures Stands(AuditedRun(cfg, steps + [step]), job, at)
  {
    RunSnoc(cfg, steps, step);
  }

  lemma DownloadedStands(cfg: Config, job: Row, now: Time)
    requires IsNewJob(job)
    ensures Stands(AuditedRun(cfg, Downloaded(job, now)), job, READY)
  {
    var one, two := [Create(job)], [Create(job), Start(FOUND, now)];
    assert two == one + [Start(FOUND, now)] && Downloaded(job, now) == two + [EngineMove(1, Some(Complete))];
    JobCreated(cfg, job);
    var at := Snapshot(Queued, None, None, Live, None, BLANK, 1);
    JobStarted(cfg, AuditedRun(cfg, one), job, at, now);
    RunStands(cfg, one, Start(FOUND, now), job, AfterStart(at));
    TransferDone(cfg, AuditedRun(cfg, two), job, AfterStart(at));
    RunStands(cfg, two, EngineMove(1, Some(Complete)), job, AfterArrival(cfg, AfterStart(at)));
  }

  lemma FileKnown(s: Audited, job: Row, at: Snapshot, fileExists: string -> bool)
    requires Stands(s, job, at) && NamedMegaJob(job)
    ensures ArchivePath(s.core.rows[1]) == ArchivePath(job) && s.core.rows[1].source.mega
    ensures !Blank(ArchivePath(job)) && !Blank(EntryPath(ArchivePath(job), fileExists))
  {
    StageFile(s.core.rows[1], job, at);
    EntryPathOfVolume(ArchivePath(job), fileExists);
  }

  /** The download of a named MEGA job is followed by a task, unless it has one already. */
  lemma PolledStands(cfg: Config, steps: seq<Step>, job: Row, at: Snapshot, env: Surroundings, now: Time)
    returns (task: Task)
    requires Stands(AuditedRun(cfg, steps), job, at) && NamedMegaJob(job) && cfg.mega
    requires at.status == Downloading && at.gid.Some? && at.state == Complete
    ensures Stands(AuditedRun(cfg, steps + [Poll(1, QUIET, env, now)]), job, AfterDownload(at, task))
    ensures task.decryptMega && task.payload == Untouched
    ensures cfg.archive && env.autoDecrypt && IsArchiveFile(EntryPath(ArchivePath(job), env.fileExists)) ==> task.decryptArchive
  {
    var s := AuditedRun(cfg, steps);
    var plan := PlanOfStage(cfg, s, job, at, env);
    task := plan.task;
    DownloadSeen(cfg, s, job, at, env, now);
    RunStands(cfg, steps, Poll(1, QUIET, env, now), job, AfterDownload(at, task));
  }

  lemma PlanOfStage(cfg: Config, s: Audited, job: Row, at: Snapshot, env: Surroundings) returns (plan: Plan)
    requires Stands(s, job, at) && NamedMegaJob(job) && cfg.mega && at.status == Downloading
    ensures plan == PlanFor(cfg, s.core.rows, 1, "", env)
    ensures plan.Proceed? && plan.task.decryptMega && plan.task.payload == Untouched
    ensures cfg.archive && env.autoDecrypt && IsArchiveFile(EntryPath(ArchivePath(job), env.fileExists)) ==>
              plan.task.decryptArchive
  {
    plan := PlanFor(cfg, s.core.rows, 1, "", env);
    FileKnown(s, job, at, env.fileExists);
    PlanAfterDownload(cfg, s.core.rows, env);
  }

  lemma PolledOnce(cfg: Config, job: Row, env: Surroundings, now: Time) returns (at: Snapshot)
    requires cfg.mega && NamedMegaJob(job)
    ensures Stands(AuditedRun(cfg, Downloaded(job, now) + [Poll(1, QUIET, env, now)]), job, at) && at.task.Some?
    ensures at == READY.(status := Decrypting, task := at.task, ledger := Ledger(1, 0, 0, 0, 0, 1, 0, 0))
    ensures at.task.value.decryptMega && at.task.value.payload == Untouched
    ensures cfg.archive && env.autoDecrypt && IsArchiveFile(EntryPath(ArchivePath(job), env.fileExists)) ==>
              at.task.value.decryptArchive
  {
    DownloadedStands(cfg, job, now);
    var task := PolledStands(cfg, Downloaded(job, now), job, READY, env, now);
    at := AfterDownload(READY, task);
  }

  /** Downloaded, polled, and the payload handed to the MEGA decryptor. */
  function Called(job: Row, env: Surroundings, failed: bool, now: Time): seq<Step> {
    Downloaded(job, now) + [Poll(1, QUIET, env, now)] + [WorkerPayload(1, failed)]
  }

  lemma CalledStands(cfg: Config, job: Row, env: Surroundings, failed: bool, now: Time) returns (at: Snapshot)
    requires cfg.mega && NamedMegaJob(job)
    ensures Stands(AuditedRun(cfg, Called(job, env, failed, now)), job, at) && at.task.Some?
    ensures at == READY.(status := Decrypting, task := at.task,
                         ledger := Ledger(1, 0, 0, 1, 0, 1, if failed then 0 else 1, 0))
    ensures at.task.value.decryptMega && at.task.value.payload == if failed then Broken else Unlocked
    ensures cfg.archive && env.autoDecrypt && IsArchiveFile(EntryPath(ArchivePath(job), env.fileExists)) ==>
              at.task.value.decryptArchive
  {
    var polled := Downloaded(job, now) + [Poll(1, QUIET, env, now)];
    at := PolledOnce(cfg, job, env, now);
    PayloadCalled(cfg, AuditedRun(cfg, polled), job, at, failed);
    at := AfterCall(at, failed);
    RunStands(cfg, polled, WorkerPayload(1, failed), job, at);
  }

  // ---------------------------------------------------------------------
  // One payload, decrypted twice

  lemma EntryOfOldVolume(path: string, fileExists: string -> bool)
    requires CleanPath(path) && IsOldVolume(Base(path)) && fileExists(FirstVolume(path))
    ensures !IsArchiveFile(path) && IsArchiveFile(EntryPath(path, fileExists))
  {
    CleanPathParts(path);
    OldVolumesAreNotArchives(path);
  }

  /** Extraction fails, the user retries, extraction succeeds. */
  function TwiceRun(job: Row, env: Surroundings, now: Time): seq<Step> {
    Called(job, env, false, now) + [WorkerFinished(1, true, now)] + [Retry(1, Accepted, false)]
      + [Dispatch(1, env, now)] + [WorkerPayload(1, false)] + [WorkerFinished(1, false, now)]
  }

  lemma OldVolumeCalled(job: Row, env: Surroundings, now: Time) returns (at: Snapshot)
    requires NamedMegaJob(job) && IsOldVolume(Base(ArchivePath(job)))
    requires env.autoDecrypt && env.fileExists(FirstVolume(ArchivePath(job)))
    ensures Stands(AuditedRun(Config(true, true), Called(job, env, false, now)), job, at)
    ensures at == READY.(status := Decrypting, task := at.task, ledger := Ledger(1, 0, 0, 1, 0, 1, 1, 0))
    ensures at.task.Some? && at.task.value.payload == Unlocked && at.task.value.decryptArchive
  {
    EntryOfOldVolume(ArchivePath(job), env.fileExists);
    at := CalledStands(Config(true, true), job, env, false, now);
  }

  lemma FailedOnce(job: Row, env: Surroundings, now: Time) returns (at: Snapshot)
    requires NamedMegaJob(job) && IsOldVolume(Base(ArchivePath(job)))
    requires env.autoDecrypt && env.fileExists(FirstVolume(ArchivePath(job)))
    ensures Stands(AuditedRun(Config(true, true), Called(job, env, false, now) + [WorkerFinished(1, true, now)]), job, at)
    ensures at.status == DecryptFailed && at.code == Some("archive_decrypt_failed") && at.task.None?
    ensures at.ledger == Ledger(1, 0, 1, 1, 0, 1, 1, 0)
  {
    var cfg := Config(true, true);
    at := OldVolumeCalled(job, env, now);
    ExtractionFails(cfg, Called(job, env, false, now), job, at, now);
    at := AfterRun(cfg, at, true);
  }

  lemma ExtractionFails(cfg: Config, steps: seq<Step>, job: Row, at: Snapshot, now: Time)
    requires Stands(AuditedRun(cfg, steps), job, at) && cfg.archive && at.gid.Some? && at.state == Complete
    requires at.task.Some? && at.task.value.payload == Unlocked && at.task.value.decryptArchive
    ensures Stands(AuditedRun(cfg, steps + [WorkerFinished(1, true, now)]), job, AfterRun(cfg, at, true))
    ensures AfterRun(cfg, at, true)
         == at.(status := DecryptFailed, code := Some("archive_decrypt_failed"), task := None,
                ledger := at.ledger.(runs := at.ledger.runs + 1))
  {
    RunEnds(cfg, AuditedRun(cfg, steps), job, at, true, now);
    RunStands(cfg, steps, WorkerFinished(1, true, now), job, AfterRun(cfg, at, true));
  }

  /** What a dispatch plans for the only job, sent back after a failure. */
  lemma PlanAfterRetry(cfg: Config, s: Audited, job: Row, at: Snapshot, env: Surroundings)
    requires Stands(s, job, at) && NamedMegaJob(job) && at.status == Decrypting && at.code.Some? && !Blank(at.code.value)
    ensures var plan, archive := PlanFor(cfg, s.core.rows, 1, "", env), IsArchiveFile(ArchivePath(job));
            && (cfg.mega && !archive ==> plan.Proceed? && plan.task.decryptMega && plan.task.payload == Untouched)
            && (!cfg.archive && archive ==> plan.Skip?)
  {
    FileKnown(s, job, at, env.fileExists);
    NobodyToWaitFor(s.core.rows, s.core.rows[1].outDir, EntryPath(ArchivePath(job), env.fileExists));
    PlanOfDecrypting(cfg, s.core.rows, 1, env);
  }

  /**
   * For every MEGA job that the user named like an old-style volume: if the first extraction fails and
   * the job is retried, one download has its payload decrypted twice.
   */
  lemma PayloadDecryptedTwice(job: Row, env: Surroundings, now: Time)
    requires NamedMegaJob(job) && IsOldVolume(Base(ArchivePath(job)))
    requires env.autoDecrypt && env.fileExists(FirstVolume(ArchivePath(job)))
    ensures var s := AuditedRun(Config(true, true), TwiceRun(job, env, now));
            1 in s.ledger && s.ledger[1].downloads == 1 && s.ledger[1].megaRuns == 2
  {
    var cfg, failed := Config(true, true), Called(job, env, false, now) + [WorkerFinished(1, true, now)];
    var retried := failed + [Retry(1, Accepted, false)];
    var dispatched := retried + [Dispatch(1, env, now)];
    var at := FailedOnce(job, env, now);
    EntryOfOldVolume(ArchivePath(job), env.fileExists);
    CodesAreNotBlank();
    FailureRetried(cfg, AuditedRun(cfg, failed), job, at);
    at := at.(status := Decrypting, ledger := at.ledger.(retries := 1));
    RunStands(cfg, failed, Retry(1, Accepted, false), job, at);
    at := SecondTry(cfg, retried, job, at, env, now);
    RunEnds(cfg, AuditedRun(cfg, dispatched + [WorkerPayload(1, false)]), job, at, false, now);
    RunStands(cfg, dispatched + [WorkerPayload(1, false)], WorkerFinished(1, false, now), job, AfterRun(cfg, at, false));
  }

  lemma SecondTry(cfg: Config, steps: seq<Step>, job: Row, at: Snapshot, env: Surroundings, now: Time)
    returns (at': Snapshot)
    requires cfg.mega && NamedMegaJob(job) && !IsArchiveFile(ArchivePath(job)) && Stands(AuditedRun(cfg, steps), job, at)
    requires at.status == Decrypting && at.task.None? && at.code.Some? && !Blank(at.code.value)
    ensures Stands(AuditedRun(cfg, steps + [Dispatch(1, env, now)] + [WorkerPayload(1, false)]), job, at') && IsCalled(cfg, at')
    ensures at'.ledger.downloads == at.ledger.downloads && at'.ledger.megaRuns == at.ledger.megaRuns + 1
  {
    var s := AuditedRun(cfg, steps);
    PlanAfterRetry(cfg, s, job, at, env);
    DispatchSeen(cfg, s, job, at, env, now);
    at' := AfterDispatch(cfg, s.core, at, PlanFor(cfg, s.core.rows, 1, "", env));
    RunStands(cfg, steps, Dispatch(1, env, now), job, at');
    PayloadCalled(cfg, AuditedRun(cfg, steps + [Dispatch(1, env, now)]), job, at', false);
    at' := AfterCall(at', false);
    RunStands(cfg, steps + [Dispatch(1, env, now)], WorkerPayload(1, false), job, at');
  }

  // ---------------------------------------------------------------------
  // A payload that is never decrypted

  /** The payload decryption fails and the user retries. */
  function PassedOverRun(job: Row, env: Surroundings, now: Time): seq<Step> {
    Called(job, env, true, now) + [WorkerFinished(1, false, now)] + [Retry(1, Accepted, false)] + [Dispatch(1, env, now)]
  }

  /**
   * For every MEGA job that the user named like an archive, where archives are not extracted: if the
   * payload decryption fails and the job is retried, it is completed with its payload encrypted.
   */
  lemma FailedPayloadCompleted(job: Row, env: Surroundings, now: Time)
    requires NamedMegaJob(job) && IsArchiveFile(ArchivePath(job))
    ensures CompletedEncrypted(AuditedRun(Config(true, false), PassedOverRun(job, env, now)), 1)
  {
    var cfg, failed := Config(true, false), Called(job, env, true, now) + [WorkerFinished(1, false, now)];
    var at := PayloadFailed(job, env, now);
    CodesAreNotBlank();
    FailureRetried(cfg, AuditedRun(cfg, failed), job, at);
    at := at.(status := Decrypting, ledger := at.ledger.(retries := 1));
    RunStands(cfg, failed, Retry(1, Accepted, false), job, at);
    RunSnoc(cfg, failed + [Retry(1, Accepted, false)], Dispatch(1, env, now));
    Skipped(cfg, AuditedRun(cfg, failed + [Retry(1, Accepted, false)]), job, at, env, now);
  }

  lemma PayloadFailed(job: Row, env: Surroundings, now: Time) returns (at: Snapshot)
    requires NamedMegaJob(job)
    ensures Stands(AuditedRun(Config(true, false), Called(job, env, true, now) + [WorkerFinished(1, false, now)]), job, at)
    ensures at.status == DecryptFailed && at.code == Some("mega_decrypt_failed") && at.task.None?
    ensures at.ledger == Ledger(1, 0, 1, 1, 0, 1, 0, 0)
  {
    var cfg, called := Config(true, false), Called(job, env, true, now);
    at := CalledStands(cfg, job, env, true, now);
    RunEnds(cfg, AuditedRun(cfg, called), job, at, false, now);
    at := AfterRun(cfg, at, false);
    RunStands(cfg, called, WorkerFinished(1, false, now), job, at);
  }

  lemma Skipped(cfg: Config, s: Audited, job: Row, at: Snapshot, env: Surroundings, now: Time)
    requires cfg.mega && !cfg.archive && NamedMegaJob(job) && IsArchiveFile(ArchivePath(job))
    requires Stands(s, job, at) && at.status == Decrypting && at.task.None? && at.code.Some? && !Blank(at.code.value)
    requires at.ledger.unlocked < at.ledger.arrived
    ensures CompletedEncrypted(AuditedNext(cfg, s, Dispatch(1, env, now)), 1)
  {
    PlanAfterRetry(cfg, s, job, at, env);
    DispatchSeen(cfg, s, job, at, env, now);
  }

  // ---------------------------------------------------------------------
  // A retry that comes while a decrypt run is still going on

  /** The payload has been decrypted when the user retries the job, and it is started again. */
  function Restarted(job: Row, env: Surroundings, now: Time): seq<Step> {
    Called(job, env, false, now) + [Retry(1, Accepted, false)] + [Start(FOUND, now)]
  }

  lemma RestartedStands(cfg: Config, job: Row, env: Surroundings, now: Time) returns (at: Snapshot)
    requires cfg.mega && NamedMegaJob(job)
    ensures Stands(AuditedRun(cfg, Restarted(job, env, now)), job, at)
    ensures at.status == Downloading && at.gid == Some(2) && at.state == Live
    ensures at.task.Some? && at.task.value.decryptMega && at.task.value.payload == Unlocked
    ensures at.ledger == Ledger(1, 0, 0, 1, 0, 1, 1, 0)
  {
    at := CalledStands(cfg, job, env, false, now);
    RetriedAndStarted(cfg, Called(job, env, false, now), job, at, now);
    at := AfterStart(at.(status := Queued, code := None, gid := None));
  }

  lemma RetriedAndStarted(cfg: Config, steps: seq<Step>, job: Row, at: Snapshot, now: Time)
    requires Stands(AuditedRun(cfg, steps), job, at) && at.status == Decrypting && at.gid.Some?
    ensures Stands(AuditedRun(cfg, steps + [Retry(1, Accepted, false)] + [Start(FOUND, now)]), job,
                   AfterStart(at.(status := Queued, code := None, gid := None)))
  {
    var retried, queued := steps + [Retry(1, Accepted, false)], at.(status := Queued, code := None, gid := None);
    BusyRetried(cfg, AuditedRun(cfg, steps), job, at);
    RunStands(cfg, steps, Retry(1, Accepted, false), job, queued);
    JobStarted(cfg, AuditedRun(cfg, retried), job, queued, now);
    RunStands(cfg, retried, Start(FOUND, now), job, AfterStart(queued));
  }

  /** The old run completes the job while its new download is running. */
  function ClosedEarly(job: Row, env: Surroundings, now: Time): seq<Step> {
    Restarted(job, env, now) + [WorkerFinished(1, false, now)]
  }

  lemma CompletedWhileDownloading(cfg: Config, job: Row, env: Surroundings, now: Time)
    requires cfg.mega && NamedMegaJob(job)
    ensures var c := AuditedRun(cfg, ClosedEarly(job, env, now)).core;
            IsLoading(c, 1) && c.rows[1].status == Completed
  {
    var at := RestartedStands(cfg, job, env, now);
    RunEnds(cfg, AuditedRun(cfg, Restarted(job, env, now)), job, at, false, now);
    RunStands(cfg, Restarted(job, env, now), WorkerFinished(1, false, now), job, AfterRun(cfg, at, false));
  }

  /** When that download ends nobody looks, and its payload stays encrypted. */
  lemma LastDownloadUnseen(cfg: Config, job: Row, env: Surroundings, now: Time)
    requires cfg.mega && NamedMegaJob(job)
    ensures var s := AuditedRun(cfg, ClosedEarly(job, env, now) + [EngineMove(2, Some(Complete))]);
            CompletedEncrypted(s, 1) && !PendingPostprocess(s.core.rows[1]) && 1 !in s.core.tasks
  {
    var at := RestartedStands(cfg, job, env, now);
    RunEnds(cfg, AuditedRun(cfg, Restarted(job, env, now)), job, at, false, now);
    at := AfterRun(cfg, at, false);
    RunStands(cfg, Restarted(job, env, now), WorkerFinished(1, false, now), job, at);
    ArrivedStands(cfg, ClosedEarly(job, env, now), job, at);
    RunKeepsInv(cfg, ClosedEarly(job, env, now) + [EngineMove(2, Some(Complete))]);
    assert JobOkIn(cfg, AuditedRun(cfg, ClosedEarly(job, env, now) + [EngineMove(2, Some(Complete))]), 1);
  }

  /** Or the new download ends first, and the old run completes the job with the new payload encrypted. */
  lemma NewPayloadPassedOver(cfg: Config, job: Row, env: Surroundings, now: Time)
    requires cfg.mega && NamedMegaJob(job)
    ensures CompletedEncrypted(
              AuditedRun(cfg, Restarted(job, env, now) + [EngineMove(2, Some(Complete))] + [Poll(1, QUIET, env, now)]
                              + [WorkerFinished(1, false, now)]), 1)
  {
    var at := RestartedStands(cfg, job, env, now);
    var ended := Restarted(job, env, now) + [EngineMove(2, Some(Complete))];
    var polled := ended + [Poll(1, QUIET, env, now)];
    ArrivedStands(cfg, Restarted(job, env, now), job, at);
    at := AfterArrival(cfg, at);
    var task := PolledStands(cfg, ended, job, at, env, now);
    at := AfterDownload(at, task);
    RunEnds(cfg, AuditedRun(cfg, polled), job, at, false, now);
    RunStands(cfg, polled, WorkerFinished(1, false, now), job, AfterRun(cfg, at, false));
  }

  /**
   * A run that is still waiting for its worker token when the new download ends does better: it
   * decrypts the new payload.
   */
  lemma WaitingRunDecryptsNewPayload(cfg: Config, job: Row, env: Surroundings, now: Time)
    requires cfg.mega && NamedMegaJob(job)
    ensures var s := AuditedRun(cfg, Rewaited(job, env, now) + [WorkerPayload(1, false)] + [WorkerFinished(1, false, now)]);
            && 1 in s.core.rows && 1 in s.ledger && s.core.rows[1].status == Completed
            && s.ledger[1].arrived == 2 && s.ledger[1].unlocked == 2
  {
    var at := RewaitedStands(cfg, job, env, now);
    var called := Rewaited(job, env, now) + [WorkerPayload(1, false)];
    PayloadCalled(cfg, AuditedRun(cfg, Rewaited(job, env, now)), job, at, false);
    at := AfterCall(at, false);
    RunStands(cfg, Rewaited(job, env, now), WorkerPayload(1, false), job, at);
    RunEnds(cfg, AuditedRun(cfg, called), job, at, false, now);
    RunStands(cfg, called, WorkerFinished(1, false, now), job, AfterRun(cfg, at, false));
  }

  /** Retried and downloaded again while the first task has not got its token. */
  function Rewaited(job: Row, env: Surroundings, now: Time): seq<Step> {
    Downloaded(job, now) + [Poll(1, QUIET, env, now)] + [Retry(1, Accepted, false)] + [Start(FOUND, now)]
      + [EngineMove(2, Some(Complete))]
  }

  lemma RewaitedStands(cfg: Config, job: Row, env: Surroundings, now: Time) returns (at: Snapshot)
    requires cfg.mega && NamedMegaJob(job)
    ensures Stands(AuditedRun(cfg, Rewaited(job, env, now)), job, at)
    ensures at.task.Some? && at.task.value.decryptMega && at.task.value.payload == Untouched
    ensures at.ledger == Ledger(1, 0, 0, 0, 0, 2, 0, 0) && at.gid == Some(2) && at.state == Complete
  {
    var polled := Downloaded(job, now) + [Poll(1, QUIET, env, now)];
    at := PolledOnce(cfg, job, env, now);
    RetriedAndStarted(cfg, polled, job, at, now);
    at := AfterStart(at.(status := Queued, code := None, gid := None));
    ArrivedStands(cfg, polled + [Retry(1, Accepted, false)] + [Start(FOUND, now)], job, at);
    at := AfterArrival(cfg, at);
  }

  lemma ArrivedStands(cfg: Config, steps: seq<Step>, job: Row, at: Snapshot)
    requires Stands(AuditedRun(cfg, steps), job, at) && at.gid.Some? && at.state == Live
    ensures Stands(AuditedRun(cfg, steps + [EngineMove(at.gid.value, Some(Complete))]), job, AfterArrival(cfg, at))
  {
    TransferDone(cfg, AuditedRun(cfg, steps), job, at);
    RunStands(cfg, steps, EngineMove(at.gid.value, Some(Complete)), job, AfterArrival(cfg, at));
  }

  // ---------------------------------------------------------------------
  // Such jobs exist

  function MegaJob(dir: string, name: string): Row {
    NewRow(Source(true, false), dir, name, None, 5)
  }

  /** A directory right below the root. */
  predicate IsTopDirectory(dir: string) {
    2 <= |dir| && dir[0] == '/' && dir[1] != '.' && forall i :: 1 <= i < |dir| ==> dir[i] != '/'
  }

  /** A name as plain as they come. */
  predicate IsPlainName(name: string) {
    && IsUserName(name) && name != "" && name[0] != '.' && !IsSpace(name[0]) && !IsSpace(name[|name| - 1])
  }

  lemma NameKept(name: string)
    requires IsPlainName(name)
    ensures Sanitize(name) == name
  {
    assert NoSlash(name);
    assert LastSlash(name) == -1;
    assert name[0..] == name;
  }

  lemma CleanInTop(dir: string, name: string)
    requires IsTopDirectory(dir) && IsPlainName(name)
    ensures CleanPath(dir + "/" + name)
  {
    var path, n := dir + "/" + name, |dir|;
    assert forall i :: 0 <= i < n ==> path[i] == dir[i];
    assert path[n] == '/' && path[n + 1] == name[0];
    assert forall i :: n < i < |path| ==> path[i] == name[i - n - 1];
  }

  lemma JoinInTop(dir: string, name: string)
    requires IsTopDirectory(dir) && IsPlainName(name)
    ensures Join(dir, name) == dir + "/" + name && Base(dir + "/" + name) == name && IsDirectory(dir)
  {
    BaseOf(dir + "/", name);
  }

  lemma FileOfJob(job: Row)
    requires IsPlainName(job.name) && Sanitize(job.name) == job.name
    ensures ArchivePath(job) == Join(job.outDir, job.name)
  {
  }

  /** A plain name below a top directory makes a named MEGA job. */
  lemma PlainJobs(dir: string, name: string)
    requires IsTopDirectory(dir) && IsPlainName(name)
    ensures NamedMegaJob(MegaJob(dir, name)) && ArchivePath(MegaJob(dir, name)) == dir + "/" + name
    ensures Base(ArchivePath(MegaJob(dir, name))) == name
  {
    NameKept(name);
    FileOfJob(MegaJob(dir, name));
    JoinInTop(dir, name);
    CleanInTop(dir, name);
  }

  lemma OldVolumeName(name: string)
    requires |name| == 5 && name[0] == 'x' && name[1] == '.' && name[2] == 'r' && name[3] == '0' && name[4] == '0'
    ensures IsPlainName(name) && IsOldVolume(name)
  {
    assert ToLower(name)[4] == '0';
  }

  /** The run of `PayloadDecryptedTwice` for the file `x.r00` in the directory `/d`. */
  lemma OldVolumeExample(dir: string, name: string, env: Surroundings, now: Time)
    requires |dir| == 2 && dir[0] == '/' && dir[1] == 'd'
    requires |name| == 5 && name[0] == 'x' && name[1] == '.' && name[2] == 'r' && name[3] == '0' && name[4] == '0'
    requires env.autoDecrypt && forall path :: env.fileExists(path)
    ensures var s := AuditedRun(Config(true, true), TwiceRun(MegaJob(dir, name), env, now));
            1 in s.ledger && s.ledger[1].downloads == 1 && s.ledger[1].megaRuns == 2
  {
    OldVolumeName(name);
    PlainJobs(dir, name);
    PayloadDecryptedTwice(MegaJob(dir, name), env, now);
  }

  lemma ArchiveName(name: string)
    requires |name| == 5 && name[0] == 'x' && name[1] == '.' && name[2] == 'r' && name[3] == 'a' && name[4] == 'r'
    ensures IsPlainName(name) && IsFileName(name) && IsRar(name)
  {
    assert ToLower(name)[1..] == ".rar";
  }

  /** The run of `FailedPayloadCompleted` for the file `x.rar` in the directory `/d`. */
  lemma ArchiveExample(dir: string, name: string, env: Surroundings, now: Time)
    requires |dir| == 2 && dir[0] == '/' && dir[1] == 'd'
    requires |name| == 5 && name[0] == 'x' && name[1] == '.' && name[2] == 'r' && name[3] == 'a' && name[4] == 'r'
    ensures CompletedEncrypted(AuditedRun(Config(true, false), PassedOverRun(MegaJob(dir, name), env, now)), 1)
  {
    ArchiveName(name);
    PlainJobs(dir, name);
    JoinInTop(dir, name);
    RarFilesAreArchives(dir, name);
    FailedPayloadCompleted(MegaJob(dir, name), env, now);
  }
}
