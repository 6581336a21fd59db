/** Post-processing over whole runs: it cannot loop, and a MEGA archive is decrypted once per download. */
module Postprocess {
  import opened Text
  import opened Jobs
  import opened Volumes
  import opened Planning
  import opened QueueSystem
  import opened Rows

  // ---------------------------------------------------------------------
  // A ledger beside the system

  /** What has happened to a job so far. The system does not look at it. */
  datatype Ledger = Ledger(
    downloads: nat,   // downloads that a poll found complete
    retries: nat,     // failed decryptions sent back by a user
    runs: nat,        // decrypt runs that came to an end
    megaRuns: nat,    // calls of the MEGA decryptor
    reopened: nat,    // tasks given to the job after a failure although its file is not an archive
    arrived: nat,     // downloads that the engine completed
    unlocked: nat,    // which of them was there when the payload was last decrypted
    passedOver: nat   // times that a payload was left behind encrypted
  )

  const BLANK := Ledger(0, 0, 0, 0, 0, 0, 0, 0)

  /** A task that will not call the MEGA decryptor (again) and may end well. */
  predicate IsSpent(cfg: Config, task: Task) {
    !CallsMega(cfg, task) || task.payload == Unlocked
  }

  /** The engine completes a download; a spent task, which is for an older one, passes it over. */
  function LedgerAfterArrival(cfg: Config, task: Option<Task>, l: Ledger): Ledger {
    l.(arrived := l.arrived + 1,
       passedOver := if task.Some? && IsSpent(cfg, task.value) then l.passedOver + 1 else l.passedOver)
  }

  /** A MEGA job that was sent back with the code of an earlier failure is handled by a dispatch. */
  predicate HandledAgain(cfg: Config, row: Row, busy: bool, plan: Plan) {
    && cfg.mega && row.source.mega && row.status == Decrypting && CodeOf(row) != ""
    && (plan.Skip? || (plan.Proceed? && !busy))
  }

  /** It gets a task that decrypts its payload again, since its file is not an archive by name. */
  predicate Reopens(cfg: Config, row: Row, busy: bool, plan: Plan, archive: bool) {
    HandledAgain(cfg, row, busy, plan) && plan.Proceed? && !archive
  }

  /**
   * Its file is an archive by name, so it goes on with its payload encrypted, or is completed while
   * its next download is running.
   */
  predicate PassesOver(cfg: Config, row: Row, busy: bool, plan: Plan, archive: bool, loading: bool, l: Ledger) {
    && HandledAgain(cfg, row, busy, plan) && archive
    && (l.unlocked < l.arrived || (plan.Skip? && loading))
  }

  /**
   * `busy` says whether the job has a task already, `archive` whether its file is an archive by name,
   * and `loading` whether its download is running.
   */
  function LedgerAfterPlan(cfg: Config, row: Row, busy: bool, plan: Plan, archive: bool, loading: bool, l: Ledger): Ledger {
    l.(reopened := if Reopens(cfg, row, busy, plan, archive) then l.reopened + 1 else l.reopened,
       passedOver := if PassesOver(cfg, row, busy, plan, archive, loading, l) then l.passedOver + 1 else l.passedOver)
  }

  function LedgerAfterDispatch(cfg: Config, c: Core, id: Id, plan: Plan, l: Ledger): Ledger
    requires id in c.rows
  {
    LedgerAfterPlan(cfg, c.rows[id], id in c.tasks, plan, IsArchiveFile(ArchivePath(c.rows[id])), IsLoading(c, id), l)
  }

  /** The MEGA decryptor works on the download that is there when it is called. */
  function LedgerAfterCall(failed: bool, l: Ledger): Ledger {
    l.(megaRuns := l.megaRuns + 1, unlocked := if failed then l.unlocked else l.arrived)
  }

  /** A run that completes a job whose next download is running passes that one over. */
  function LedgerAfterRun(completes: bool, loading: bool, l: Ledger): Ledger {
    l.(runs := l.runs + 1, passedOver := if completes && loading then l.passedOver + 1 else l.passedOver)
  }

  predicate RunCompletes(cfg: Config, task: Task, archiveFailed: bool) {
    !(CallsMega(cfg, task) && task.payload == Broken) && !(task.decryptArchive && cfg.archive && archiveFailed)
  }

  /** What one step adds to the ledger of a job. */
  ghost function Bump(cfg: Config, c: Core, step: Step, id: Id, l: Ledger): Ledger {
    match step
    case Poll(target, report, env, _) =>
      if target == id && FindsComplete(c, id) && !report.unreachable then l.(downloads := l.downloads + 1) else l
    case Retry(target, _, _) =>
      if target == id && id in c.rows && c.rows[id].status == DecryptFailed
      then l.(retries := l.retries + 1) else l
    case EngineMove(gid, to) =>
      if IsLoading(c, id) && c.rows[id].gid == Some(gid) && to == Some(Complete)
      then LedgerAfterArrival(cfg, TaskOf(c, id), l) else l
    case Dispatch(target, env, _) => LedgerAfterDispatchStep(cfg, c, target, env, id, l)
    case WorkerPayload(target, failed) =>
      if target == id && MayCall(cfg, c, id) then LedgerAfterCall(failed, l) else l
    case WorkerFinished(target, archiveFailed, _) =>
      if target == id && MayFinish(cfg, c, id)
      then LedgerAfterRun(RunCompletes(cfg, c.tasks[id], archiveFailed), IsLoading(c, id), l) else l
    case _ => l
  }

  ghost function LedgerAfterDispatchStep(cfg: Config, c: Core, target: Id, env: Surroundings, id: Id, l: Ledger): Ledger {
    if target == id && IsDispatched(cfg, c, id, env)
    then LedgerAfterDispatch(cfg, c, id, PlanFor(cfg, c.rows, id, "", env), l) else l
  }

  lemma BumpOfDispatch(cfg: Config, c: Core, id: Id, env: Surroundings, now: Time, l: Ledger)
    ensures Bump(cfg, c, Dispatch(id, env, now), id, l) == LedgerAfterDispatchStep(cfg, c, id, env, id, l)
  {
  }

  datatype Audited = Audited(core: Core, ledger: map<Id, Ledger>)

  ghost function AuditedNext(cfg: Config, s: Audited, step: Step): Audited {
    var c' := Next(cfg, s.core, step);
    Audited(c', map id | id in c'.rows :: if id in s.ledger then Bump(cfg, s.core, step, id, s.ledger[id]) else BLANK)
  }

  ghost function AuditedRun(cfg: Config, steps: seq<Step>): (s: Audited)
    ensures s.core == Exec(cfg, EMPTY, steps) && s.ledger.Keys == s.core.rows.Keys
  {
    if steps == [] then Audited(EMPTY, map[])
    else AuditedNext(cfg, AuditedRun(cfg, steps[..|steps| - 1]), steps[|steps| - 1])
  }

  lemma RunSnoc(cfg: Config, steps: seq<Step>, step: Step)
    ensures AuditedRun(cfg, steps + [step]) == AuditedNext(cfg, AuditedRun(cfg, steps), step)
  {
    assert (steps + [step])[..|steps|] == steps;
  }

  // ---------------------------------------------------------------------
  // The invariant of one job

  /** A job that waits for post-processing, or has a task, holds one run in reserve. */
  predicate RunsCovered(row: Row, l: Ledger, task: Option<Task>) {
    l.runs + (if task.Some? || PendingPostprocess(row) then 1 else 0) <= l.downloads + l.retries
  }

  /** A job may still be about to have its payload decrypted. */
  predicate MegaAhead(cfg: Config, row: Row, task: Option<Task>) {
    && (task.Some? ==> task.value.payload == Untouched)
    && (|| (task.Some? && task.value.decryptMega)
        || (cfg.mega && row.source.mega && row.status == Decrypting && CodeOf(row) == ""))
  }

  predicate MegaCovered(cfg: Config, row: Row, l: Ledger, task: Option<Task>) {
    && (task.Some? && task.value.decryptMega ==> cfg.mega && row.source.mega)
    && (task.Some? && task.value.payload != Untouched ==> task.value.decryptMega)
    && (row.status == DecryptFailed ==> CodeOf(row) != "")
    && (cfg.mega && row.source.mega && row.status == Completed ==> row.archivePassword.None?)
    && l.megaRuns + (if MegaAhead(cfg, row, task) then 1 else 0) <= l.downloads + l.reopened
  }

  predicate JobOk(cfg: Config, row: Row, l: Ledger, task: Option<Task>) {
    RunsCovered(row, l, task) && MegaCovered(cfg, row, l, task)
  }

  ghost predicate JobOkIn(cfg: Config, s: Audited, id: Id) {
    id in s.core.rows && id in s.ledger && JobOk(cfg, s.core.rows[id], s.ledger[id], TaskOf(s.core, id))
  }

  ghost predicate Inv(cfg: Config, s: Audited) {
    && s.ledger.Keys == s.core.rows.Keys
    && (forall id :: id in s.core.rows ==> id < s.core.nextId)
    && s.core.tasks.Keys <= s.core.rows.Keys
    && forall id :: id in s.core.rows ==> JobOkIn(cfg, s, id)
  }

  // ---------------------------------------------------------------------
  // Statements

  /** Statements that never make a job pending, nor reopen its payload. */
  predicate IsQuiet(stmt: Stmt) {
    !stmt.MarkCompleted? && !stmt.MarkDecrypting? && !stmt.MarkDecryptingRetry?
    && !(stmt.UpdateProgress? && stmt.finished) && !stmt.MarkPostprocessFailed?
  }

  lemma QuietKeepsJob(cfg: Config, stmt: Stmt, id: Id, row: Row, l: Ledger, task: Option<Task>)
    requires IsQuiet(stmt) && JobOk(cfg, row, l, task)
    ensures JobOk(cfg, RowAfter(stmt, id, row), l, task)
  {
  }

  lemma CodesAreNotBlank()
    ensures !Blank("postprocess_failed") && !Blank("mega_decrypt_failed") && !Blank("archive_decrypt_failed")
  {
  }

  /** After the two closing writes of a failure the job is done with post-processing. */
  lemma FailedRow(t: Table, id: Id, msg: string, code: string, now: Time)
    requires id in t && !Blank(code)
    ensures var failed := GiveUp(t, id, msg, code, now)[id];
            failed.status == DecryptFailed && CodeOf(failed) != "" && failed.archivePassword.None? && failed.source == t[id].source
  {
  }

  /** The end of a run closes the job. */
  lemma RunClosesJob(cfg: Config, row: Row, l: Ledger, task: Task, completes: bool, loading: bool, closed: Row)
    requires JobOk(cfg, row, l, Some(task)) && closed.source == row.source && closed.archivePassword.None?
    requires closed.status == Completed || (closed.status == DecryptFailed && CodeOf(closed) != "")
    ensures JobOk(cfg, closed, LedgerAfterRun(completes, loading, l), None)
  {
  }

  // ---------------------------------------------------------------------
  // Plans

  /** What the invariant needs to know about a plan; `archive` says whether the file is an archive by name. */
  predicate IsSound(cfg: Config, row: Row, archive: bool, plan: Plan) {
    && (plan.Skip? ==> !OpensPayload(cfg, row, archive))
    && (plan.Wait? || plan.Proceed? ==> plan.task.decryptMega == OpensPayload(cfg, row, archive))
    && (plan.Proceed? ==> plan.task.payload == Untouched)
  }

  predicate PlanSound(cfg: Config, row: Row, path: string, plan: Plan) {
    IsSound(cfg, row, IsArchiveFile(path), plan)
  }

  lemma PlansAreSound(cfg: Config, t: Table, id: Id, statusPath: string, env: Surroundings)
    requires id in t
    ensures PlanSound(cfg, t[id], if statusPath != "" then statusPath else ArchivePath(t[id]),
                      PlanFor(cfg, t, id, statusPath, env))
  {
  }

  lemma DownloadKeepsJob(cfg: Config, c: Core, id: Id, report: Report, plan: Plan, archive: bool, now: Time, l: Ledger)
    requires id in c.rows && CountsAsDownloading(c.rows[id]) && IsSound(cfg, c.rows[id], archive, plan)
    requires JobOk(cfg, c.rows[id], l, TaskOf(c, id))
    ensures var c' := DownloadFinished(c, id, report, plan, now);
            JobOk(cfg, c'.rows[id], l.(downloads := l.downloads + 1), TaskOf(c', id))
  {
    if plan.Reject? {
      CodesAreNotBlank();
      FailedRow(c.rows, id, plan.msg, "postprocess_failed", now);
    }
  }

  lemma PlanKeepsJob(cfg: Config, row: Row, id: Id, plan: Plan, archive: bool, loading: bool, now: Time, l: Ledger,
                     task: Option<Task>)
    requires PendingPostprocess(row) && IsSound(cfg, row, archive, plan) && JobOk(cfg, row, l, task)
    ensures JobOk(cfg, RowAfterPlan(row, id, plan, now), LedgerAfterPlan(cfg, row, task.Some?, plan, archive, loading, l),
                  if plan.Proceed? && task.None? then Some(plan.task) else task)
  {
    CodesAreNotBlank();
    if cfg.mega && row.source.mega {
      assert row.status == Decrypting;
    }
  }

  lemma DispatchKeepsJob(cfg: Config, c: Core, id: Id, plan: Plan, now: Time, l: Ledger)
    requires id in c.rows && PendingPostprocess(c.rows[id]) && PlanSound(cfg, c.rows[id], ArchivePath(c.rows[id]), plan)
    requires JobOk(cfg, c.rows[id], l, TaskOf(c, id))
    ensures var c' := Dispatched(c, id, plan, now);
            JobOk(cfg, c'.rows[id], LedgerAfterDispatch(cfg, c, id, plan, l), TaskOf(c', id))
  {
    PlanKeepsJob(cfg, c.rows[id], id, plan, IsArchiveFile(ArchivePath(c.rows[id])), IsLoading(c, id), now, l, TaskOf(c, id));
  }

  // ---------------------------------------------------------------------
  // Steps, seen from one job

  lemma PollKeepsJob(cfg: Config, c: Core, step: Step, id: Id, l: Ledger)
    requires step.Poll? && id in c.rows && JobOk(cfg, c.rows[id], l, TaskOf(c, id))
    ensures id in Next(cfg, c, step).rows
    ensures JobOk(cfg, Next(cfg, c, step).rows[id], Bump(cfg, c, step, id, l), TaskOf(Next(cfg, c, step), id))
  {
    if IsPolled(c, step.id) && !step.report.unreachable {
      var target := step.id;
      var plan := PlanFor(cfg, c.rows, target, step.report.path, step.env);
      PlansAreSound(cfg, c.rows, target, step.report.path, step.env);
      PolledJob(cfg, c, target, step.report, plan,
                IsArchiveFile(if step.report.path != "" then step.report.path else ArchivePath(c.rows[target])), step.now, id, l);
    }
  }

  lemma PolledJob(cfg: Config, c: Core, target: Id, report: Report, plan: Plan, archive: bool, now: Time, id: Id, l: Ledger)
    requires id in c.rows && JobOk(cfg, c.rows[id], l, TaskOf(c, id))
    requires IsPolled(c, target) && IsSound(cfg, c.rows[target], archive, plan)
    ensures var c' := Polled(c, target, report, plan, now);
            var l' := if id == target && FindsComplete(c, id) then l.(downloads := l.downloads + 1) else l;
            id in c'.rows && JobOk(cfg, c'.rows[id], l', TaskOf(c', id))
  {
    if id != target {
      PollSparesOthers(c, target, report, plan, now, id);
    } else if FindsComplete(c, id) {
      DownloadKeepsJob(cfg, c, id, report, plan, archive, now, l);
    } else {
      UnfinishedKeepsJob(cfg, c, id, report, plan, now, l);
    }
  }

  lemma PollSparesOthers(c: Core, target: Id, report: Report, plan: Plan, now: Time, id: Id)
    requires IsPolled(c, target) && id in c.rows && id != target
    ensures var c' := Polled(c, target, report, plan, now);
            id in c'.rows && c'.rows[id] == c.rows[id] && TaskOf(c', id) == TaskOf(c, id)
  {
    PolledTouchesOneRow(c, target, report, plan, now);
  }

  lemma UnfinishedKeepsJob(cfg: Config, c: Core, id: Id, report: Report, plan: Plan, now: Time, l: Ledger)
    requires IsPolled(c, id) && !FindsComplete(c, id) && JobOk(cfg, c.rows[id], l, TaskOf(c, id))
    ensures var c' := Polled(c, id, report, plan, now);
            id in c'.rows && JobOk(cfg, c'.rows[id], l, TaskOf(c', id))
  {
    QuietKeepsJob(cfg, PollStmt(c, id, report, now), id, c.rows[id], l, TaskOf(c, id));
  }

  lemma DispatchStepKeepsJob(cfg: Config, c: Core, step: Step, id: Id, l: Ledger)
    requires step.Dispatch? && id in c.rows && JobOk(cfg, c.rows[id], l, TaskOf(c, id))
    ensures id in Next(cfg, c, step).rows
    ensures JobOk(cfg, Next(cfg, c, step).rows[id], Bump(cfg, c, step, id, l), TaskOf(Next(cfg, c, step), id))
  {
    if IsDispatched(cfg, c, step.id, step.env) {
      var plan := PlanFor(cfg, c.rows, step.id, "", step.env);
      PlansAreSound(cfg, c.rows, step.id, "", step.env);
      DispatchedJob(cfg, c, step.id, plan, step.now, id, l);
    }
  }

  lemma DispatchedJob(cfg: Config, c: Core, target: Id, plan: Plan, now: Time, id: Id, l: Ledger)
    requires id in c.rows && JobOk(cfg, c.rows[id], l, TaskOf(c, id))
    requires target in c.rows && PendingPostprocess(c.rows[target])
    requires PlanSound(cfg, c.rows[target], ArchivePath(c.rows[target]), plan)
    ensures id in Dispatched(c, target, plan, now).rows
    ensures var l' := if id == target then LedgerAfterDispatch(cfg, c, id, plan, l) else l;
            JobOk(cfg, Dispatched(c, target, plan, now).rows[id], l', TaskOf(Dispatched(c, target, plan, now), id))
  {
    if id == target {
      DispatchKeepsJob(cfg, c, id, plan, now, l);
    }
  }

  lemma WorkerKeepsJob(cfg: Config, c: Core, step: Step, id: Id, l: Ledger)
    requires step.WorkerFinished? || step.WorkerPayload? || step.WorkerCancelled?
    requires id in c.rows && JobOk(cfg, c.rows[id], l, TaskOf(c, id))
    ensures id in Next(cfg, c, step).rows
    ensures JobOk(cfg, Next(cfg, c, step).rows[id], Bump(cfg, c, step, id, l), TaskOf(Next(cfg, c, step), id))
  {
    if step.WorkerFinished? {
      FinishedJob(cfg, c, step.id, step.archiveFailed, step.now, id, l);
    }
  }

  lemma FinishedJob(cfg: Config, c: Core, target: Id, archiveFailed: bool, now: Time, id: Id, l: Ledger)
    requires id in c.rows && JobOk(cfg, c.rows[id], l, TaskOf(c, id))
    ensures var c' := FinishStep(cfg, c, target, archiveFailed, now);
            var l' := if target == id && MayFinish(cfg, c, id)
                      then LedgerAfterRun(RunCompletes(cfg, c.tasks[id], archiveFailed), IsLoading(c, id), l) else l;
            id in c'.rows && JobOk(cfg, c'.rows[id], l', TaskOf(c', id))
  {
    if target == id && MayFinish(cfg, c, id) {
      FinishedRow(cfg, c, id, archiveFailed, now);
      RunClosesJob(cfg, c.rows[id], l, c.tasks[id], RunCompletes(cfg, c.tasks[id], archiveFailed), IsLoading(c, id),
                   FinishStep(cfg, c, id, archiveFailed, now).rows[id]);
    }
  }

  /** A finished run leaves its job completed, or failed with a code, and without a password. */
  lemma FinishedRow(cfg: Config, c: Core, id: Id, archiveFailed: bool, now: Time)
    requires id in c.rows && MayFinish(cfg, c, id)
    ensures var c' := FinishStep(cfg, c, id, archiveFailed, now);
            && id in c'.rows && id !in c'.tasks && c'.engine == c.engine
            && c'.rows[id].source == c.rows[id].source && c'.rows[id].gid == c.rows[id].gid
            && c'.rows[id].archivePassword.None?
            && (c'.rows[id].status == Completed || (c'.rows[id].status == DecryptFailed && CodeOf(c'.rows[id]) != ""))
            && (c'.rows[id].status == Completed <==> RunCompletes(cfg, c.tasks[id], archiveFailed))
  {
    CodesAreNotBlank();
    ApplyUpdates(FirstClosing(cfg, id, c.tasks[id], archiveFailed, now), ClearArchivePassword(id), c.rows, id);
  }

  lemma StartKeepsJob(cfg: Config, c: Core, step: Step, id: Id, l: Ledger)
    requires step.Start? && id in c.rows && JobOk(cfg, c.rows[id], l, TaskOf(c, id))
    ensures id in Next(cfg, c, step).rows
    ensures JobOk(cfg, Next(cfg, c, step).rows[id], l, TaskOf(Next(cfg, c, step), id))
  {
    if target :| IsLowestClaimable(c.rows, step.now, target) {
      var claimed := c.(rows := Apply(Claim(target, step.now), c.rows));
      QuietKeepsJob(cfg, Claim(target, step.now), id, c.rows[id], l, TaskOf(c, id));
      StartedJob(cfg, claimed, target, step.outcome, step.now, id, l);
      StartStepOf(c, step.outcome, step.now, target);
    }
  }

  lemma StartedJob(cfg: Config, c: Core, target: Id, outcome: StartOutcome, now: Time, id: Id, l: Ledger)
    requires id in c.rows && target in c.rows && JobOk(cfg, c.rows[id], l, TaskOf(c, id))
    ensures id in ResolveAndStart(c, target, outcome, now).rows
    ensures JobOk(cfg, ResolveAndStart(c, target, outcome, now).rows[id], l, TaskOf(c, id))
    ensures ResolveAndStart(c, target, outcome, now).tasks == c.tasks
  {
    if outcome.Unresolved? {
      QuietKeepsJob(cfg, ResolveFailure(target, outcome.why, now), id, c.rows[id], l, TaskOf(c, id));
    } else {
      StartResolvedKeepsJob(cfg, c, target, outcome, ControlToRemove(c.rows, target, outcome), now, id, l);
    }
  }

  lemma StartResolvedKeepsJob(cfg: Config, c: Core, target: Id, outcome: StartOutcome, control: Option<string>, now: Time,
                         id: Id, l: Ledger)
    requires id in c.rows && JobOk(cfg, c.rows[id], l, TaskOf(c, id)) && !outcome.Unresolved?
    ensures var c' := StartResolved(c, target, outcome, control, now);
            id in c'.rows && JobOk(cfg, c'.rows[id], l, TaskOf(c, id)) && c'.tasks == c.tasks
  {
    var update := UpdateResolving(target, outcome.url, Sanitize(outcome.file), outcome.size);
    var verdict := StartVerdict(target, outcome, control.Some?, now);
    var next := if verdict.Go? then MarkDownloading(target, c.nextGid) else verdict.stmt;
    QuietKeepsJob(cfg, update, id, c.rows[id], l, TaskOf(c, id));
    QuietKeepsJob(cfg, next, id, RowAfter(update, id, c.rows[id]), l, TaskOf(c, id));
  }

  lemma RetryKeepsJob(cfg: Config, c: Core, step: Step, id: Id, l: Ledger)
    requires step.Retry? && id in c.rows && JobOk(cfg, c.rows[id], l, TaskOf(c, id))
    ensures id in Next(cfg, c, step).rows && Next(cfg, c, step).tasks == c.tasks
    ensures JobOk(cfg, Next(cfg, c, step).rows[id], Bump(cfg, c, step, id, l), TaskOf(c, id))
  {
    QuietKeepsJob(cfg, Requeue(step.id), id, c.rows[id], l, TaskOf(c, id));
  }

  lemma ResumeKeepsJob(cfg: Config, c: Core, step: Step, id: Id, l: Ledger)
    requires step.Resume? && id in c.rows && JobOk(cfg, c.rows[id], l, TaskOf(c, id))
    ensures id in Next(cfg, c, step).rows && Next(cfg, c, step).tasks == c.tasks
    ensures JobOk(cfg, Next(cfg, c, step).rows[id], l, TaskOf(c, id))
  {
    QuietKeepsJob(cfg, Requeue(step.id), id, c.rows[id], l, TaskOf(c, id));
    QuietKeepsJob(cfg, MarkDownloadingStatus(step.id), id, c.rows[id], l, TaskOf(c, id));
  }

  /** The other service calls run quiet statements only. */
  lemma ServiceKeepsJob(cfg: Config, c: Core, step: Step, id: Id, l: Ledger)
    requires step.RemoveJob? || step.Clear? || step.Pause? || step.AutoRequeue?
    requires id in c.rows && JobOk(cfg, c.rows[id], l, TaskOf(c, id))
    ensures id in Next(cfg, c, step).rows && Next(cfg, c, step).tasks == c.tasks
    ensures JobOk(cfg, Next(cfg, c, step).rows[id], l, TaskOf(c, id))
  {
    var row, task := c.rows[id], TaskOf(c, id);
    match step {
      case Clear(now) => QuietKeepsJob(cfg, ClearCompleted(now), id, row, l, task);
      case RemoveJob(target, _, _, now) => QuietKeepsJob(cfg, Remove(target, now), id, row, l, task);
      case Pause(target, _) => QuietKeepsJob(cfg, MarkPaused(target), id, row, l, task);
      case AutoRequeue(target, _) => QuietKeepsJob(cfg, Requeue(target), id, row, l, task);
    }
  }

  // ---------------------------------------------------------------------
  // All runs

  lemma StepKeepsJob(cfg: Config, c: Core, step: Step, id: Id, l: Ledger)
    requires id in c.rows && id < c.nextId && JobOk(cfg, c.rows[id], l, TaskOf(c, id))
    ensures id in Next(cfg, c, step).rows
    ensures JobOk(cfg, Next(cfg, c, step).rows[id], Bump(cfg, c, step, id, l), TaskOf(Next(cfg, c, step), id))
  {
    match step {
      case Poll(_, _, _, _) => PollKeepsJob(cfg, c, step, id, l);
      case Dispatch(_, _, _) => DispatchStepKeepsJob(cfg, c, step, id, l);
      case WorkerFinished(_, _, _) => WorkerKeepsJob(cfg, c, step, id, l);
      case WorkerPayload(_, _) => WorkerKeepsJob(cfg, c, step, id, l);
      case WorkerCancelled(_) => WorkerKeepsJob(cfg, c, step, id, l);
      case Start(_, _) => StartKeepsJob(cfg, c, step, id, l);
      case Create(_) =>
      case EngineMove(_, _) =>
      case EngineFile(_, _) =>
      case Retry(_, _, _) => RetryKeepsJob(cfg, c, step, id, l);
      case Resume(_, _, _) => ResumeKeepsJob(cfg, c, step, id, l);
      case _ => ServiceKeepsJob(cfg, c, step, id, l);
    }
  }

  ghost predicate SameJobs(c: Core, c': Core) {
    c'.rows.Keys == c.rows.Keys && c'.nextId == c.nextId && c'.tasks.Keys <= c.tasks.Keys + c.rows.Keys
  }

  lemma StartFrame(c: Core, outcome: StartOutcome, now: Time)
    ensures SameJobs(c, StartStep(c, outcome, now))
  {
    if id :| IsLowestClaimable(c.rows, now, id) {
      var claimed := c.(rows := Apply(Claim(id, now), c.rows));
      StartStepOf(c, outcome, now, id);
      if outcome.Resolved? || outcome.WrongEngine? {
        ResolvedFrame(claimed, id, outcome, ControlToRemove(claimed.rows, id, outcome), now);
      }
    }
  }

  lemma ResolvedFrame(c: Core, id: Id, outcome: StartOutcome, control: Option<string>, now: Time)
    requires id in c.rows && !outcome.Unresolved?
    ensures SameJobs(c, StartResolved(c, id, outcome, control, now))
  {
    StartResolvedRows(c, id, outcome, control, now);
  }

  lemma PolledFrame(c: Core, id: Id, report: Report, plan: Plan, now: Time)
    requires IsPolled(c, id)
    ensures SameJobs(c, Polled(c, id, report, plan, now))
  {
    PolledTouchesOneRow(c, id, report, plan, now);
  }

  lemma DispatchedFrame(c: Core, id: Id, plan: Plan, now: Time)
    requires id in c.rows
    ensures SameJobs(c, Dispatched(c, id, plan, now))
  {
    DispatchedTouchesOneRow(c, id, plan, now);
  }

  lemma OtherFrame(cfg: Config, c: Core, step: Step)
    requires !step.Create? && !step.Start? && !step.Poll? && !step.Dispatch?
    ensures SameJobs(c, Next(cfg, c, step))
  {
  }

  /** Jobs come into being by creation only, and tasks belong to jobs. */
  lemma StepFrame(cfg: Config, c: Core, step: Step)
    requires !step.Create?
    ensures SameJobs(c, Next(cfg, c, step))
  {
    match step {
      case Start(outcome, now) => StartFrame(c, outcome, now);
      case Poll(id, report, env, now) =>
        if IsPolled(c, id) && !report.unreachable {
          PolledFrame(c, id, report, PlanFor(cfg, c.rows, id, report.path, env), now);
        }
      case Dispatch(id, env, now) =>
        if IsDispatched(cfg, c, id, env) {
          DispatchedFrame(c, id, PlanFor(cfg, c.rows, id, "", env), now);
        }
      case _ => OtherFrame(cfg, c, step);
    }
  }

  lemma NextKeepsInv(cfg: Config, s: Audited, step: Step)
    requires Inv(cfg, s)
    ensures Inv(cfg, AuditedNext(cfg, s, step))
  {
    JobsInOrder(cfg, s.core, step);
    forall id | id in AuditedNext(cfg, s, step).core.rows
      ensures JobOkIn(cfg, AuditedNext(cfg, s, step), id)
    {
      NextJobOk(cfg, s, step, id);
    }
  }

  lemma NextJobOk(cfg: Config, s: Audited, step: Step, id: Id)
    requires Inv(cfg, s) && id in AuditedNext(cfg, s, step).core.rows
    ensures JobOkIn(cfg, AuditedNext(cfg, s, step), id)
  {
    LedgerOf(cfg, s, step, id);
    if id in s.core.rows {
      assert JobOkIn(cfg, s, id);
      StepKeepsJob(cfg, s.core, step, id, s.ledger[id]);
    } else {
      NewJobOk(cfg, s.core, step, id);
    }
  }

  lemma JobsInOrder(cfg: Config, c: Core, step: Step)
    requires (forall id :: id in c.rows ==> id < c.nextId) && c.tasks.Keys <= c.rows.Keys
    ensures var c' := Next(cfg, c, step);
            (forall id :: id in c'.rows ==> id < c'.nextId) && c'.tasks.Keys <= c'.rows.Keys
  {
    if !step.Create? {
      StepFrame(cfg, c, step);
    }
  }

  lemma NewJobOk(cfg: Config, c: Core, step: Step, id: Id)
    requires c.tasks.Keys <= c.rows.Keys && id !in c.rows && id in Next(cfg, c, step).rows
    ensures JobOk(cfg, Next(cfg, c, step).rows[id], BLANK, TaskOf(Next(cfg, c, step), id))
  {
    if !step.Create? {
      StepFrame(cfg, c, step);
    }
  }

  lemma {:induction false} RunKeepsInv(cfg: Config, steps: seq<Step>)
    ensures Inv(cfg, AuditedRun(cfg, steps))
  {
    if steps != [] {
      RunKeepsInv(cfg, steps[..|steps| - 1]);
      NextKeepsInv(cfg, AuditedRun(cfg, steps[..|steps| - 1]), steps[|steps| - 1]);
    }
  }

  /** In every run, finished decrypt runs never outnumber finished downloads and manual retries together. */
  lemma PostprocessingCannotLoop(cfg: Config, steps: seq<Step>, id: Id)
    requires id in AuditedRun(cfg, steps).core.rows
    ensures var l := AuditedRun(cfg, steps).ledger[id];
            l.runs <= l.downloads + l.retries
  {
    RunKeepsInv(cfg, steps);
  }

  /** A run that ends takes its job off the list of pending work. */
  lemma FinishedRunLeavesList(cfg: Config, c: Core, id: Id, archiveFailed: bool, now: Time)
    requires id in c.rows && MayFinish(cfg, c, id)
    ensures var c' := FinishStep(cfg, c, id, archiveFailed, now);
            id in c'.rows && !PendingPostprocess(c'.rows[id]) && id !in c'.tasks
  {
    FinishedRow(cfg, c, id, archiveFailed, now);
  }

  /**
   * In every run the MEGA decryptor is called at most once per finished download, whatever fails and
   * is retried, plus once for each task that `Reopens` gives to the job. A job whose file is an
   * archive by name is never reopened.
   */
  lemma MegaDecryptedOncePerDownload(cfg: Config, steps: seq<Step>, id: Id)
    requires id in AuditedRun(cfg, steps).core.rows
    ensures var l := AuditedRun(cfg, steps).ledger[id];
            l.megaRuns <= l.downloads + l.reopened
  {
    RunKeepsInv(cfg, steps);
  }

  /** A job to which the user gave the name of an archive is never reopened. */
  lemma {:induction false} NamedArchiveNeverReopened(cfg: Config, steps: seq<Step>, id: Id)
    requires id in AuditedRun(cfg, steps).core.rows
    requires Sanitize(AuditedRun(cfg, steps).core.rows[id].name) != ""
    requires IsArchiveFile(ArchivePath(AuditedRun(cfg, steps).core.rows[id]))
    ensures var l := AuditedRun(cfg, steps).ledger[id];
            l.reopened == 0 && l.megaRuns <= l.downloads
  {
    MegaDecryptedOncePerDownload(cfg, steps, id);
    if steps != [] {
      var before, step := steps[..|steps| - 1], steps[|steps| - 1];
      var s := AuditedRun(cfg, before);
      RunKeepsInv(cfg, before);
      if id in s.core.rows {
        SameFile(cfg, s.core, step, id);
        NamedArchiveNeverReopened(cfg, before, id);
        ArchivesStayShut(cfg, s.core, step, id, s.ledger[id]);
      }
      LedgerOf(cfg, s, step, id);
    }
  }

  lemma LedgerOf(cfg: Config, s: Audited, step: Step, id: Id)
    requires id in Next(cfg, s.core, step).rows
    ensures AuditedNext(cfg, s, step).ledger[id]
         == if id in s.ledger then Bump(cfg, s.core, step, id, s.ledger[id]) else BLANK
  {
  }

  lemma ArchivesStayShut(cfg: Config, c: Core, step: Step, id: Id, l: Ledger)
    requires id in c.rows && IsArchiveFile(ArchivePath(c.rows[id]))
    ensures Bump(cfg, c, step, id, l).reopened == l.reopened
  {
  }

  lemma SameFile(cfg: Config, c: Core, step: Step, id: Id)
    requires id in c.rows && id < c.nextId
    ensures id in Next(cfg, c, step).rows
    ensures var row, row' := c.rows[id], Next(cfg, c, step).rows[id];
            row'.source == row.source && row'.name == row.name && (Sanitize(row.name) != "" ==> ArchivePath(row') == ArchivePath(row))
  {
    StepKeepsRows(cfg, c, step);
  }
}
