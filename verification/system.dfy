/**
 * The serialised system: table, engine and decrypt tasks, changed by whole service calls, by the
 * runner's handling of one row, by the payload call and the end of a decrypt run, and by the engine itself.
 * Steps are finer than the passes of the runner, which are sequences of them.
 */
module QueueSystem {
  import opened Text
  import opened Jobs
  import opened Planning

  /** The engine's view of a task; a task it has forgotten is absent from the map. */
  datatype TaskState = Live | Complete | Errored | Dropped

  /** How the engine answers a command. */
  datatype Reply = Accepted | NotFound | NotAllowed | OtherError

  datatype Core = Core(
    rows: Table,
    nextId: Id,
    engine: map<Gid, TaskState>,
    nextGid: Gid,
    tasks: map<Id, Task>,    // the decrypt tasks that wait or work, by job
    controls: set<string>    // the control files of the engine, by path
  )

  predicate IsLive(engine: map<Gid, TaskState>, gid: Gid) {
    gid in engine && engine[gid] == Live
  }

  /** The job's download is running. */
  predicate IsLoading(c: Core, id: Id) {
    id in c.rows && c.rows[id].gid.Some? && IsLive(c.engine, c.rows[id].gid.value)
  }

  // ---------------------------------------------------------------------
  // What the environment decides in a step

  datatype ResolverError = LoginRequired | QuotaExceeded | CaptchaNeeded | TemporarilyOff | UnknownSite | OtherCause(msg: string)

  /**
   * What resolving a claimed job yields, and how the file system and the engine would answer the
   * calls that follow: an error from removing the control file, and a refusal of the download.
   */
  datatype StartOutcome =
    | Unresolved(why: ResolverError)
    | WrongEngine(url: string, file: string, size: int)
    | Resolved(url: string, file: string, size: int, options: map<string, string>,
               removeError: Option<string>, refusal: Option<string>)

  /** What a status query reports besides the state of the task. */
  datatype Report = Report(unreachable: bool, bytes: int, total: int, speed: int, path: string, quota: bool, msg: string)

  datatype Step =
    | Create(job: Row)
    | Retry(id: Id, reply: Reply, gone: bool)
    | RemoveJob(id: Id, reply: Reply, gone: bool, now: Time)
    | Clear(now: Time)
    | Pause(id: Id, reply: Reply)
    | Resume(id: Id, reply: Reply, gone: bool)
    | EngineMove(gid: Gid, to: Option<TaskState>)
    | EngineFile(path: string, present: bool)
    | Poll(id: Id, report: Report, env: Surroundings, now: Time)
    | Dispatch(id: Id, env: Surroundings, now: Time)
    | AutoRequeue(id: Id, now: Time)
    | Start(outcome: StartOutcome, now: Time)
    | WorkerCancelled(id: Id)
    | WorkerPayload(id: Id, failed: bool)
    | WorkerFinished(id: Id, archiveFailed: bool, now: Time)

  // ---------------------------------------------------------------------
  // Service calls

  /**
   * Asks the engine to remove a job's task, if it has one. Success, or an answer that the task is
   * unknown, means that the task is not live; after an error it may or may not be gone.
   */
  function RemoveTask(engine: map<Gid, TaskState>, gid: Option<Gid>, reply: Reply, gone: bool): (map<Gid, TaskState>, bool) {
    if gid.None? then (engine, true)
    else
      match reply
      case Accepted => (engine - {gid.value}, true)
      case NotFound => (engine, !IsLive(engine, gid.value))
      case _ => (if gone then engine - {gid.value} else engine, false)
  }

  function RetryStep(c: Core, id: Id, reply: Reply, gone: bool): Core {
    if id !in c.rows then c
    else if c.rows[id].status == DecryptFailed then
      c.(rows := Apply(MarkDecryptingRetry(id, c.rows[id].bytesDone), c.rows))
    else
      var (engine, ok) := RemoveTask(c.engine, c.rows[id].gid, reply, gone);
      c.(engine := engine, rows := if ok then Apply(Requeue(id), c.rows) else c.rows)
  }

  function RemoveStep(c: Core, id: Id, reply: Reply, gone: bool, now: Time): Core {
    if id !in c.rows then c
    else
      var (engine, ok) := RemoveTask(c.engine, c.rows[id].gid, reply, gone);
      c.(engine := engine, rows := if ok then Apply(Remove(id, now), c.rows) else c.rows)
  }

  /** A job that has not started is paused at once; otherwise the engine must accept, and it pauses live tasks only. */
  predicate MayPause(c: Core, id: Id, reply: Reply) {
    && id in c.rows
    && var row := c.rows[id];
       || row.status == Queued || row.status == Resolving
       || (row.gid.Some? && reply == Accepted && IsLive(c.engine, row.gid.value))
  }

  function PauseStep(c: Core, id: Id, reply: Reply): Core {
    if MayPause(c, id, reply) then c.(rows := Apply(MarkPaused(id), c.rows)) else c
  }

  /**
   * Resuming fails only if there is a task that the engine does not give up (for a Webshare job) or
   * neither unpauses nor denies to know.
   */
  predicate MayResume(c: Core, id: Id, reply: Reply, gone: bool) {
    && id in c.rows
    && var row := c.rows[id];
       || row.gid.None?
       || (row.source.webshare && RemoveTask(c.engine, row.gid, reply, gone).1)
       || (!row.source.webshare && reply == (if IsLive(c.engine, row.gid.value) then Accepted else NotFound))
  }

  function ResumeStep(c: Core, id: Id, reply: Reply, gone: bool): Core {
    if id !in c.rows then c
    else
      var row := c.rows[id];
      if row.source.webshare then
        var (engine, ok) := RemoveTask(c.engine, row.gid, reply, gone);
        c.(engine := engine, rows := if ok then Apply(Requeue(id), c.rows) else c.rows)
      else if row.gid.None? then c.(rows := Apply(Requeue(id), c.rows))
      else if reply == Accepted && IsLive(c.engine, row.gid.value)
      then c.(rows := Apply(MarkDownloadingStatus(id), c.rows))
      else if reply == NotFound && !IsLive(c.engine, row.gid.value)
      then c.(rows := Apply(Requeue(id), c.rows))
      else c
  }

  // ---------------------------------------------------------------------
  // The runner, one row at a time

  function Scheduled(tasks: map<Id, Task>, id: Id, task: Task): map<Id, Task> {
    if id in tasks then tasks else tasks[id := task]
  }

  function TaskOf(c: Core, id: Id): Option<Task> {
    if id in c.tasks then Some(c.tasks[id]) else None
  }

  /** The two closing writes of post-processing that cannot go on. */
  function GiveUp(t: Table, id: Id, msg: string, code: string, now: Time): Table {
    Apply(ClearArchivePassword(id), Apply(MarkPostprocessFailed(id, msg, code, now), t))
  }

  /** A download has finished: complete the job, or hand it to post-processing. */
  function DownloadFinished(c: Core, id: Id, report: Report, plan: Plan, now: Time): Core {
    var bytes := if report.bytes == 0 && report.total > 0 then report.total else report.bytes;
    match plan
    case Skip =>
      c.(rows := Apply(MarkCompleted(id, now), Apply(UpdateProgress(id, bytes, true, 0, 0), c.rows)))
    case Reject(msg) => c.(rows := GiveUp(c.rows, id, msg, "postprocess_failed", now))
    case Wait(_) => c.(rows := Apply(MarkDecrypting(id, bytes), c.rows))
    case Proceed(task) =>
      c.(rows := Apply(MarkDecrypting(id, bytes), c.rows), tasks := Scheduled(c.tasks, id, task))
  }

  predicate IsPolled(c: Core, id: Id) {
    id in c.rows && CountsAsDownloading(c.rows[id]) && c.rows[id].gid.Some?
  }

  function EtaOf(report: Report): int {
    if report.speed > 0 && report.total > 0 && report.bytes < report.total
    then (report.total - report.bytes) / report.speed else 0
  }

  function DownloadFailure(id: Id, report: Report, now: Time): Stmt {
    var msg := if report.msg == "" then "download error" else report.msg;
    if report.quota then MarkFailed(id, "quota_exceeded", msg, Some(now + 7200))
    else MarkFailed(id, "download_error", msg, Some(now + 600))
  }

  /** The status query of a polled job reports that its download is complete. */
  predicate FindsComplete(c: Core, id: Id) {
    IsPolled(c, id) && c.rows[id].gid.value in c.engine && c.engine[c.rows[id].gid.value] == Complete
  }

  /** What any other report leads to. */
  function PollStmt(c: Core, id: Id, report: Report, now: Time): (stmt: Stmt)
    requires IsPolled(c, id)
    ensures IsUpdateOf(stmt, id) && (stmt.MarkFailed? || (stmt.UpdateProgress? && !stmt.finished))
  {
    var gid := c.rows[id].gid.value;
    if gid !in c.engine then MarkFailed(id, "gid_not_found", report.msg, Some(now + 120))
    else if c.engine[gid] == Errored then DownloadFailure(id, report, now)
    else UpdateProgress(id, report.bytes, false, report.speed, EtaOf(report))
  }

  /** What a status report does to its row; `plan` says what follows a finished download. */
  function Polled(c: Core, id: Id, report: Report, plan: Plan, now: Time): Core
    requires IsPolled(c, id)
  {
    if FindsComplete(c, id) then DownloadFinished(c, id, report, plan, now)
    else c.(rows := Apply(PollStmt(c, id, report, now), c.rows))
  }

  ghost function PollStep(cfg: Config, c: Core, id: Id, report: Report, env: Surroundings, now: Time): Core {
    if !IsPolled(c, id) || report.unreachable then c
    else Polled(c, id, report, PlanFor(cfg, c.rows, id, report.path, env), now)
  }

  predicate IsDispatched(cfg: Config, c: Core, id: Id, env: Surroundings) {
    && (cfg.mega || cfg.archive)
    && id in c.rows && PendingPostprocess(c.rows[id])
    && (env.autoDecrypt || c.rows[id].status == Decrypting || ShouldDecryptMega(cfg, c.rows[id], ArchivePath(c.rows[id])))
  }

  /** The row after a plan is carried out for a pending job. */
  function RowAfterPlan(row: Row, id: Id, plan: Plan, now: Time): Row {
    match plan
    case Skip =>
      if row.status == Decrypting then Effect(ClearArchivePassword(id), Effect(MarkCompleted(id, now), row)) else row
    case Reject(msg) =>
      Effect(ClearArchivePassword(id), Effect(MarkPostprocessFailed(id, msg, "postprocess_failed", now), row))
    case _ => if row.status == Decrypting then row else Effect(MarkDecrypting(id, row.bytesDone), row)
  }

  function Dispatched(c: Core, id: Id, plan: Plan, now: Time): Core
    requires id in c.rows
  {
    c.(rows := c.rows[id := RowAfterPlan(c.rows[id], id, plan, now)],
       tasks := if plan.Proceed? then Scheduled(c.tasks, id, plan.task) else c.tasks)
  }

  ghost function DispatchStep(cfg: Config, c: Core, id: Id, env: Surroundings, now: Time): Core {
    if !IsDispatched(cfg, c, id, env) then c
    else Dispatched(c, id, PlanFor(cfg, c.rows, id, "", env), now)
  }

  function AutoRequeueStep(c: Core, id: Id, now: Time): Core {
    if id in c.rows && Retryable(c.rows[id], now) then c.(rows := Apply(Requeue(id), c.rows)) else c
  }

  /** Error code and delay before the next attempt when a URL cannot be resolved. */
  function ResolveFailure(id: Id, why: ResolverError, now: Time): (stmt: Stmt)
    ensures stmt.MarkFailed? && stmt.id == id
  {
    match why
    case LoginRequired => MarkFailed(id, "login_required", "login required or file not public", Some(now + 21600))
    case QuotaExceeded => MarkFailed(id, "quota_exceeded", "quota exceeded; retry later", Some(now + 7200))
    case CaptchaNeeded =>
      MarkFailed(id, "captcha_needed", "captcha required; cannot proceed in headless mode", Some(now + 86400))
    case TemporarilyOff =>
      MarkFailed(id, "temporarily_unavailable", "temporarily unavailable; retry later", Some(now + 1800))
    case UnknownSite => MarkFailed(id, "unknown_site", "unknown site; cannot resolve", Some(now + 21600))
    case OtherCause(msg) => MarkFailed(id, "resolve_failed", msg, Some(now + 1800))
  }

  /** What follows the resolution of a job; the failures come with their code and delay. */
  datatype Verdict = Go | GiveBack(stmt: Stmt)

  function StartVerdict(id: Id, outcome: StartOutcome, removes: bool, now: Time): (v: Verdict)
    requires !outcome.Unresolved?
    ensures v.GiveBack? ==> v.stmt.MarkFailed? && v.stmt.id == id
  {
    match outcome
    case WrongEngine(_, _, _) =>
      GiveBack(MarkFailed(id, "unsupported_engine", "resolver returned unsupported engine", Some(now + 1800)))
    case Resolved(_, _, _, _, removeError, refusal) =>
      if removes && removeError.Some? then
        GiveBack(MarkFailed(id, "prepare_output_failed", removeError.value, Some(now + 600)))
      else if refusal.Some? then
        GiveBack(MarkFailed(id, "download_start_failed", refusal.value, Some(now + 600)))
      else Go
  }

  /** A claimed job that could be resolved; `control` is the control file to remove first, if any. */
  function StartResolved(c: Core, id: Id, outcome: StartOutcome, control: Option<string>, now: Time): Core
    requires !outcome.Unresolved?
  {
    var rows := Apply(UpdateResolving(id, outcome.url, Sanitize(outcome.file), outcome.size), c.rows);
    var removed := control.Some? && outcome.Resolved? && outcome.removeError.None?;
    var left := if removed then c.controls - {control.value} else c.controls;
    Followed(c.(rows := rows, controls := left), id, StartVerdict(id, outcome, control.Some?, now))
  }

  function Followed(c: Core, id: Id, verdict: Verdict): Core {
    match verdict
    case Go =>
      c.(rows := Apply(MarkDownloading(id, c.nextGid), c.rows),
         engine := c.engine[c.nextGid := Live], nextGid := c.nextGid + 1)
    case GiveBack(stmt) => c.(rows := Apply(stmt, c.rows))
  }

  /** The statement that ends the start of a resolved job. */
  function VerdictStmt(id: Id, gid: Gid, verdict: Verdict): Stmt {
    if verdict.Go? then MarkDownloading(id, gid) else verdict.stmt
  }

  lemma StartResolvedRows(c: Core, id: Id, outcome: StartOutcome, control: Option<string>, now: Time)
    requires id in c.rows && !outcome.Unresolved?
    ensures var update := UpdateResolving(id, outcome.url, Sanitize(outcome.file), outcome.size);
            var next := VerdictStmt(id, c.nextGid, StartVerdict(id, outcome, control.Some?, now));
            StartResolved(c, id, outcome, control, now).rows == c.rows[id := Effect(next, Effect(update, c.rows[id]))]
  {
    var update := UpdateResolving(id, outcome.url, Sanitize(outcome.file), outcome.size);
    ApplyUpdates(update, VerdictStmt(id, c.nextGid, StartVerdict(id, outcome, control.Some?, now)), c.rows, id);
  }

  /** The control file to remove before a start: that of the output, unless another job at work writes it. */
  ghost function ControlToRemove(t: Table, id: Id, outcome: StartOutcome): Option<string>
    requires id in t && !outcome.Unresolved?
  {
    if outcome.WrongEngine? then None
    else
      var options := StartOptions(t[id], Sanitize(outcome.file), outcome.options);
      var name := Sanitize(OptionOf(options, "out"));
      if name != "" && NeedsFreshStart(options) && !OutputInUse(t, id, t[id].outDir, name, OutputName)
      then Some(ControlPath(t[id].outDir, name)) else None
  }

  /** What happens to a job after it was claimed. */
  ghost function ResolveAndStart(c: Core, id: Id, outcome: StartOutcome, now: Time): Core
    requires id in c.rows
  {
    if c.rows[id].deletedAt.Some? then c
    else if outcome.Unresolved? then c.(rows := Apply(ResolveFailure(id, outcome.why, now), c.rows))
    else StartResolved(c, id, outcome, ControlToRemove(c.rows, id, outcome), now)
  }

  ghost function StartStep(c: Core, outcome: StartOutcome, now: Time): Core {
    if id :| IsLowestClaimable(c.rows, now, id)
    then ResolveAndStart(c.(rows := Apply(Claim(id, now), c.rows)), id, outcome, now)
    else c
  }

  /** There is only one lowest claimable job to start with. */
  lemma StartStepOf(c: Core, outcome: StartOutcome, now: Time, id: Id)
    requires IsLowestClaimable(c.rows, now, id)
    ensures StartStep(c, outcome, now)
         == ResolveAndStart(c.(rows := Apply(Claim(id, now), c.rows)), id, outcome, now)
  {
    forall other: Id | IsLowestClaimable(c.rows, now, other)
      ensures other == id
    {
    }
  }

  // ---------------------------------------------------------------------
  // What polling and dispatching touch

  /** Only the row of `id` may differ. */
  ghost predicate OnlyTouches(t: Table, t': Table, id: Id) {
    t'.Keys == t.Keys && forall x :: x in t && x != id ==> t'[x] == t[x]
  }

  lemma UpdatesTouchOneRow(first: Stmt, second: Stmt, t: Table, id: Id)
    requires id in t && IsUpdateOf(first, id) && IsUpdateOf(second, id)
    ensures OnlyTouches(t, Apply(first, t), id) && OnlyTouches(t, Apply(second, Apply(first, t)), id)
  {
    ApplyUpdates(first, second, t, id);
  }

  lemma PolledTouchesOneRow(c: Core, id: Id, report: Report, plan: Plan, now: Time)
    requires IsPolled(c, id)
    ensures OnlyTouches(c.rows, Polled(c, id, report, plan, now).rows, id)
  {
    var bytes := if report.bytes == 0 && report.total > 0 then report.total else report.bytes;
    var clear := ClearArchivePassword(id);
    if FindsComplete(c, id) {
      match plan {
        case Skip => UpdatesTouchOneRow(UpdateProgress(id, bytes, true, 0, 0), MarkCompleted(id, now), c.rows, id);
        case Reject(msg) =>
          UpdatesTouchOneRow(MarkPostprocessFailed(id, msg, "postprocess_failed", now), clear, c.rows, id);
        case _ => UpdatesTouchOneRow(MarkDecrypting(id, bytes), clear, c.rows, id);
      }
    } else {
      UpdatesTouchOneRow(PollStmt(c, id, report, now), clear, c.rows, id);
    }
  }

  lemma DispatchedTouchesOneRow(c: Core, id: Id, plan: Plan, now: Time)
    requires id in c.rows
    ensures OnlyTouches(c.rows, Dispatched(c, id, plan, now).rows, id)
  {
  }

  /** What happens to the started job's own row does not change which control file has to go. */
  lemma ControlAfterUpdate(t: Table, t': Table, id: Id, outcome: StartOutcome)
    requires id in t && !outcome.Unresolved?
    requires OnlyTouches(t, t', id) && t'[id].outDir == t[id].outDir && t'[id].name == t[id].name
    ensures ControlToRemove(t', id, outcome) == ControlToRemove(t, id, outcome)
  {
    if outcome.Resolved? {
      var options := StartOptions(t[id], Sanitize(outcome.file), outcome.options);
      ConflictsConcernOthers(t, t', id, t[id].outDir, Sanitize(OptionOf(options, "out")), OutputName);
    }
  }

  lemma ConflictsConcernOthers(t: Table, t': Table, id: Id, outDir: string, outName: string, nameOf: Row -> string)
    requires OnlyTouches(t, t', id)
    ensures OutputInUse(t, id, outDir, outName, nameOf) <==> OutputInUse(t', id, outDir, outName, nameOf)
  {
    assert forall other :: other in t && other != id ==> t'[other] == t[other];
  }

  // ---------------------------------------------------------------------
  // Decrypt workers and the engine

  predicate CallsMega(cfg: Config, task: Task) {
    task.decryptMega && cfg.mega
  }

  /** A run that has its worker token calls the MEGA decryptor, once, on the file that is there then. */
  predicate MayCall(cfg: Config, c: Core, id: Id) {
    id in c.tasks && CallsMega(cfg, c.tasks[id]) && c.tasks[id].payload == Untouched
  }

  function PayloadStep(cfg: Config, c: Core, id: Id, failed: bool): Core {
    if MayCall(cfg, c, id)
    then c.(tasks := c.tasks[id := c.tasks[id].(payload := if failed then Broken else Unlocked)])
    else c
  }

  /** A run can end once its payload has been dealt with, if it is to be. */
  predicate MayFinish(cfg: Config, c: Core, id: Id) {
    id in c.tasks && (CallsMega(cfg, c.tasks[id]) ==> c.tasks[id].payload != Untouched)
  }

  /** How a run ends, by its first closing write. */
  function FirstClosing(cfg: Config, id: Id, task: Task, archiveFailed: bool, now: Time): (stmt: Stmt)
    ensures IsUpdateOf(stmt, id) && (stmt.MarkPostprocessFailed? || stmt.MarkCompleted?)
  {
    if CallsMega(cfg, task) && task.payload == Broken
    then MarkPostprocessFailed(id, "mega decrypt failed", "mega_decrypt_failed", now)
    else if task.decryptArchive && cfg.archive && archiveFailed
    then MarkPostprocessFailed(id, "archive decrypt failed", "archive_decrypt_failed", now)
    else MarkCompleted(id, now)
  }

  /** The rest of the run: extraction and the two closing writes. */
  function FinishStep(cfg: Config, c: Core, id: Id, archiveFailed: bool, now: Time): Core {
    if !MayFinish(cfg, c, id) then c
    else
      c.(rows := Apply(ClearArchivePassword(id), Apply(FirstClosing(cfg, id, c.tasks[id], archiveFailed, now), c.rows)),
         tasks := c.tasks - {id})
  }

  /** A run that is cancelled while it waits for a worker token has done nothing. */
  function CancelStep(c: Core, id: Id): Core {
    if id in c.tasks && c.tasks[id].payload == Untouched then c.(tasks := c.tasks - {id}) else c
  }

  /** Tasks end and are forgotten; none comes to life again. */
  function EngineStep(c: Core, gid: Gid, to: Option<TaskState>): Core {
    if gid !in c.engine || to == Some(Live) then c
    else if to.None? then c.(engine := c.engine - {gid})
    else if c.engine[gid] == Live then c.(engine := c.engine[gid := to.value])
    else c
  }

  /** What the service inserts: a clean directory, an acceptable name and at least one attempt. */
  predicate IsNewJob(job: Row) {
    && job == NewRow(job.source, job.outDir, job.name, job.archivePassword, job.maxAttempts)
    && IsDirectory(job.outDir) && IsUserName(job.name) && 1 <= job.maxAttempts
  }

  function CreateStep(c: Core, job: Row): Core {
    if IsNewJob(job) then c.(rows := c.rows[c.nextId := job], nextId := c.nextId + 1) else c
  }

  // ---------------------------------------------------------------------
  // Runs

  ghost function Next(cfg: Config, c: Core, step: Step): Core {
    match step
    case Create(job) => CreateStep(c, job)
    case Retry(id, reply, gone) => RetryStep(c, id, reply, gone)
    case RemoveJob(id, reply, gone, now) => RemoveStep(c, id, reply, gone, now)
    case Clear(now) => c.(rows := Apply(ClearCompleted(now), c.rows))
    case Pause(id, reply) => PauseStep(c, id, reply)
    case Resume(id, reply, gone) => ResumeStep(c, id, reply, gone)
    case EngineMove(gid, to) => EngineStep(c, gid, to)
    case EngineFile(path, present) => c.(controls := if present then c.controls + {path} else c.controls - {path})
    case Poll(id, report, env, now) => PollStep(cfg, c, id, report, env, now)
    case Dispatch(id, env, now) => DispatchStep(cfg, c, id, env, now)
    case AutoRequeue(id, now) => AutoRequeueStep(c, id, now)
    case Start(outcome, now) => StartStep(c, outcome, now)
    case WorkerCancelled(id) => CancelStep(c, id)
    case WorkerPayload(id, failed) => PayloadStep(cfg, c, id, failed)
    case WorkerFinished(id, archiveFailed, now) => FinishStep(cfg, c, id, archiveFailed, now)
  }

  lemma PollIs(cfg: Config, c: Core, id: Id, report: Report, env: Surroundings, now: Time)
    ensures Next(cfg, c, Poll(id, report, env, now)) == PollStep(cfg, c, id, report, env, now)
  {
  }

  lemma StartIs(cfg: Config, c: Core, outcome: StartOutcome, now: Time)
    ensures Next(cfg, c, Start(outcome, now)) == StartStep(c, outcome, now)
  {
  }

  lemma PolledIs(cfg: Config, c: Core, id: Id, report: Report, env: Surroundings, now: Time)
    requires IsPolled(c, id) && !report.unreachable
    ensures PollStep(cfg, c, id, report, env, now)
         == Polled(c, id, report, PlanFor(cfg, c.rows, id, report.path, env), now)
  {
  }

  lemma DispatchIs(cfg: Config, c: Core, id: Id, env: Surroundings, now: Time)
    ensures Next(cfg, c, Dispatch(id, env, now)) == DispatchStep(cfg, c, id, env, now)
  {
  }

  lemma DispatchedIs(cfg: Config, c: Core, id: Id, env: Surroundings, now: Time)
    requires IsDispatched(cfg, c, id, env)
    ensures DispatchStep(cfg, c, id, env, now) == Dispatched(c, id, PlanFor(cfg, c.rows, id, "", env), now)
  {
  }

  lemma DecryptingIsDispatched(cfg: Config, c: Core, id: Id, env: Surroundings)
    requires id in c.rows && Visible(c.rows[id]) && c.rows[id].status == Decrypting && (cfg.mega || cfg.archive)
    ensures IsDispatched(cfg, c, id, env)
  {
  }

  const EMPTY := Core(map[], 1, map[], 1, map[], {})

  ghost function Exec(cfg: Config, c: Core, steps: seq<Step>): Core {
    if steps == [] then c else Next(cfg, Exec(cfg, c, steps[..|steps| - 1]), steps[|steps| - 1])
  }

  lemma ExecSnoc(cfg: Config, c: Core, steps: seq<Step>, step: Step)
    ensures Exec(cfg, c, steps + [step]) == Next(cfg, Exec(cfg, c, steps), step)
  {
    assert (steps + [step])[..|steps|] == steps;
  }

  lemma {:induction false} ExecConcat(cfg: Config, c: Core, a: seq<Step>, b: seq<Step>)
    ensures Exec(cfg, c, a + b) == Exec(cfg, Exec(cfg, c, a), b)
  {
    if b == [] {
      assert a + b == a;
    } else {
      assert (a + b)[..|a + b| - 1] == a + b[..|b| - 1];
      ExecConcat(cfg, c, a, b[..|b| - 1]);
    }
  }

  // ---------------------------------------------------------------------
  // Passes of the runner as sequences of steps

  function PollPass(ids: seq<Id>, reports: Id -> Report, env: Surroundings, now: Time): seq<Step> {
    seq(|ids|, i requires 0 <= i < |ids| => Poll(ids[i], reports(ids[i]), env, now))
  }

  function DispatchPass(ids: seq<Id>, env: Surroundings, now: Time): seq<Step> {
    seq(|ids|, i requires 0 <= i < |ids| => Dispatch(ids[i], env, now))
  }

  function RequeuePass(ids: seq<Id>, now: Time): seq<Step> {
    seq(|ids|, i requires 0 <= i < |ids| => AutoRequeue(ids[i], now))
  }

  lemma PollPassSnoc(cfg: Config, c: Core, ids: seq<Id>, i: nat, reports: Id -> Report, env: Surroundings, now: Time)
    requires i < |ids|
    ensures Exec(cfg, c, PollPass(ids[..i + 1], reports, env, now))
         == PollStep(cfg, Exec(cfg, c, PollPass(ids[..i], reports, env, now)), ids[i], reports(ids[i]), env, now)
  {
    var step := Poll(ids[i], reports(ids[i]), env, now);
    assert PollPass(ids[..i + 1], reports, env, now) == PollPass(ids[..i], reports, env, now) + [step];
    ExecSnoc(cfg, c, PollPass(ids[..i], reports, env, now), step);
  }

  lemma DispatchPassSnoc(cfg: Config, c: Core, ids: seq<Id>, i: nat, env: Surroundings, now: Time)
    requires i < |ids|
    ensures Exec(cfg, c, DispatchPass(ids[..i + 1], env, now))
         == DispatchStep(cfg, Exec(cfg, c, DispatchPass(ids[..i], env, now)), ids[i], env, now)
  {
    var step := Dispatch(ids[i], env, now);
    assert DispatchPass(ids[..i + 1], env, now) == DispatchPass(ids[..i], env, now) + [step];
    ExecSnoc(cfg, c, DispatchPass(ids[..i], env, now), step);
  }

  lemma RequeuePassSnoc(cfg: Config, c: Core, ids: seq<Id>, i: nat, now: Time)
    requires i < |ids|
    ensures Exec(cfg, c, RequeuePass(ids[..i + 1], now))
         == AutoRequeueStep(Exec(cfg, c, RequeuePass(ids[..i], now)), ids[i], now)
  {
    var step := AutoRequeue(ids[i], now);
    assert RequeuePass(ids[..i + 1], now) == RequeuePass(ids[..i], now) + [step];
    ExecSnoc(cfg, c, RequeuePass(ids[..i], now), step);
  }
}
