/** What no step of the system changes about a job, and what a queued job cannot have. */
module Rows {
  import opened Text
  import opened Jobs
  import opened Planning
  import opened QueueSystem

  /** The file name that the resolver found is forgotten whenever a job goes back to the queue. */
  predicate QueuedIsBare(row: Row) {
    row.status == Queued ==> row.filename.None?
  }

  predicate RowKept(row: Row, row': Row) {
    && row'.source == row.source && row'.outDir == row.outDir && row'.name == row.name
    && (QueuedIsBare(row) ==> QueuedIsBare(row'))
  }

  ghost predicate RowsKept(t: Table, t': Table) {
    t'.Keys == t.Keys && forall id :: id in t ==> RowKept(t[id], t'[id])
  }

  lemma RowsKeptOn(t: Table, t': Table, t'': Table)
    requires RowsKept(t, t') && RowsKept(t', t'')
    ensures RowsKept(t, t'')
  {
  }

  /** A resolver's findings are stored only once the job has left the queue. */
  predicate InOrder(stmt: Stmt, t: Table) {
    stmt.UpdateResolving? && stmt.id in t ==> t[stmt.id].status != Queued
  }

  lemma StatementKeepsRows(stmt: Stmt, t: Table)
    requires InOrder(stmt, t)
    ensures RowsKept(t, Apply(stmt, t))
  {
  }

  lemma TwoStatementsKeepRows(first: Stmt, second: Stmt, t: Table)
    requires InOrder(first, t) && !second.UpdateResolving?
    ensures RowsKept(t, Apply(second, Apply(first, t)))
  {
    StatementKeepsRows(first, t);
    StatementKeepsRows(second, Apply(first, t));
    RowsKeptOn(t, Apply(first, t), Apply(second, Apply(first, t)));
  }

  // ---------------------------------------------------------------------
  // Step by step

  lemma PolledKeepsRows(c: Core, id: Id, report: Report, plan: Plan, now: Time)
    requires IsPolled(c, id)
    ensures RowsKept(c.rows, Polled(c, id, report, plan, now).rows)
    ensures Polled(c, id, report, plan, now).controls == c.controls
  {
    if FindsComplete(c, id) {
      FinishedKeepsRows(c, id, report, plan, now);
    } else {
      StatementKeepsRows(PollStmt(c, id, report, now), c.rows);
    }
  }

  lemma FinishedKeepsRows(c: Core, id: Id, report: Report, plan: Plan, now: Time)
    ensures RowsKept(c.rows, DownloadFinished(c, id, report, plan, now).rows)
    ensures DownloadFinished(c, id, report, plan, now).controls == c.controls
  {
    var bytes := if report.bytes == 0 && report.total > 0 then report.total else report.bytes;
    match plan {
      case Skip => TwoStatementsKeepRows(UpdateProgress(id, bytes, true, 0, 0), MarkCompleted(id, now), c.rows);
      case Reject(msg) => GiveUpKeepsRows(c.rows, id, msg, "postprocess_failed", now);
      case _ => StatementKeepsRows(MarkDecrypting(id, bytes), c.rows);
    }
  }

  lemma GiveUpKeepsRows(t: Table, id: Id, msg: string, code: string, now: Time)
    ensures RowsKept(t, GiveUp(t, id, msg, code, now))
  {
    TwoStatementsKeepRows(MarkPostprocessFailed(id, msg, code, now), ClearArchivePassword(id), t);
  }

  lemma DispatchedKeepsRows(c: Core, id: Id, plan: Plan, now: Time)
    requires id in c.rows
    ensures RowsKept(c.rows, Dispatched(c, id, plan, now).rows)
    ensures Dispatched(c, id, plan, now).controls == c.controls
  {
  }

  lemma FinishKeepsRows(cfg: Config, c: Core, id: Id, archiveFailed: bool, now: Time)
    ensures RowsKept(c.rows, FinishStep(cfg, c, id, archiveFailed, now).rows)
    ensures FinishStep(cfg, c, id, archiveFailed, now).controls == c.controls
  {
    if MayFinish(cfg, c, id) {
      TwoStatementsKeepRows(FirstClosing(cfg, id, c.tasks[id], archiveFailed, now), ClearArchivePassword(id), c.rows);
    }
  }

  lemma StartResolvedKeepsRows(c: Core, id: Id, outcome: StartOutcome, control: Option<string>, now: Time)
    requires id in c.rows && c.rows[id].status != Queued && !outcome.Unresolved?
    ensures RowsKept(c.rows, StartResolved(c, id, outcome, control, now).rows)
  {
    var update := UpdateResolving(id, outcome.url, Sanitize(outcome.file), outcome.size);
    var verdict := StartVerdict(id, outcome, control.Some?, now);
    TwoStatementsKeepRows(update, if verdict.Go? then MarkDownloading(id, c.nextGid) else verdict.stmt, c.rows);
  }

  lemma ResolveKeepsRows(c: Core, id: Id, outcome: StartOutcome, now: Time)
    requires id in c.rows && c.rows[id].status != Queued
    ensures RowsKept(c.rows, ResolveAndStart(c, id, outcome, now).rows)
  {
    if outcome.Unresolved? {
      StatementKeepsRows(ResolveFailure(id, outcome.why, now), c.rows);
    } else {
      StartResolvedKeepsRows(c, id, outcome, ControlToRemove(c.rows, id, outcome), now);
    }
  }

  lemma StartKeepsRows(c: Core, outcome: StartOutcome, now: Time)
    ensures RowsKept(c.rows, StartStep(c, outcome, now).rows)
  {
    if id :| IsLowestClaimable(c.rows, now, id) {
      var claimed := c.(rows := Apply(Claim(id, now), c.rows));
      StatementKeepsRows(Claim(id, now), c.rows);
      ResolveKeepsRows(claimed, id, outcome, now);
      RowsKeptOn(c.rows, claimed.rows, ResolveAndStart(claimed, id, outcome, now).rows);
      StartStepOf(c, outcome, now, id);
    }
  }

  lemma MaybeKeepsRows(stmt: Stmt, t: Table, t': Table)
    requires !stmt.UpdateResolving? && (t' == t || t' == Apply(stmt, t))
    ensures RowsKept(t, t')
  {
    StatementKeepsRows(stmt, t);
  }

  lemma RetryKeepsRows(c: Core, id: Id, reply: Reply, gone: bool)
    ensures RowsKept(c.rows, RetryStep(c, id, reply, gone).rows) && RetryStep(c, id, reply, gone).controls == c.controls
  {
    var retries := id in c.rows && c.rows[id].status == DecryptFailed;
    MaybeKeepsRows(if retries then MarkDecryptingRetry(id, c.rows[id].bytesDone) else Requeue(id),
                   c.rows, RetryStep(c, id, reply, gone).rows);
  }

  lemma ResumeKeepsRows(c: Core, id: Id, reply: Reply, gone: bool)
    ensures RowsKept(c.rows, ResumeStep(c, id, reply, gone).rows) && ResumeStep(c, id, reply, gone).controls == c.controls
  {
    var unpaused := id in c.rows && !c.rows[id].source.webshare && c.rows[id].gid.Some? && reply == Accepted;
    MaybeKeepsRows(if unpaused then MarkDownloadingStatus(id) else Requeue(id), c.rows, ResumeStep(c, id, reply, gone).rows);
  }

  lemma ServiceKeepsRows(cfg: Config, c: Core, step: Step)
    requires step.Retry? || step.RemoveJob? || step.Clear? || step.Pause? || step.Resume? || step.AutoRequeue?
    ensures RowsKept(c.rows, Next(cfg, c, step).rows) && Next(cfg, c, step).controls == c.controls
  {
    match step {
      case Retry(id, reply, gone) => RetryKeepsRows(c, id, reply, gone);
      case RemoveJob(id, reply, gone, now) => MaybeKeepsRows(Remove(id, now), c.rows, RemoveStep(c, id, reply, gone, now).rows);
      case Clear(now) => StatementKeepsRows(ClearCompleted(now), c.rows);
      case Pause(id, reply) => MaybeKeepsRows(MarkPaused(id), c.rows, PauseStep(c, id, reply).rows);
      case Resume(id, reply, gone) => ResumeKeepsRows(c, id, reply, gone);
      case AutoRequeue(id, now) => MaybeKeepsRows(Requeue(id), c.rows, AutoRequeueStep(c, id, now).rows);
    }
  }

  /** No step but a creation adds a job, and none but a start or the engine touches a control file. */
  lemma StepKeepsRows(cfg: Config, c: Core, step: Step)
    ensures !step.Create? ==> RowsKept(c.rows, Next(cfg, c, step).rows)
    ensures !step.Start? && !step.EngineFile? ==> Next(cfg, c, step).controls == c.controls
  {
    match step {
      case Create(_) =>
      case EngineMove(_, _) =>
      case EngineFile(_, _) =>
      case WorkerCancelled(_) =>
      case Start(outcome, now) => StartKeepsRows(c, outcome, now);
      case Poll(id, report, env, now) =>
        if IsPolled(c, id) && !report.unreachable {
          PolledKeepsRows(c, id, report, PlanFor(cfg, c.rows, id, report.path, env), now);
        }
      case Dispatch(id, env, now) =>
        if IsDispatched(cfg, c, id, env) {
          DispatchedKeepsRows(c, id, PlanFor(cfg, c.rows, id, "", env), now);
        }
      case WorkerPayload(_, _) =>
      case WorkerFinished(id, archiveFailed, now) => FinishKeepsRows(cfg, c, id, archiveFailed, now);
      case _ => ServiceKeepsRows(cfg, c, step);
    }
  }

  // ---------------------------------------------------------------------
  // All runs

  /** A row as runs produce it. */
  predicate WellFormed(row: Row) {
    IsDirectory(row.outDir) && IsUserName(row.name) && QueuedIsBare(row)
  }

  ghost predicate AllWellFormed(t: Table) {
    forall id :: id in t ==> WellFormed(t[id])
  }

  lemma {:induction false} RunRowsWellFormed(cfg: Config, steps: seq<Step>)
    ensures AllWellFormed(Exec(cfg, EMPTY, steps).rows)
  {
    if steps != [] {
      var c, step := Exec(cfg, EMPTY, steps[..|steps| - 1]), steps[|steps| - 1];
      RunRowsWellFormed(cfg, steps[..|steps| - 1]);
      StepKeepsRows(cfg, c, step);
      if step.Create? {
        CreationWellFormed(c, step.job);
      }
    }
  }

  lemma CreationWellFormed(c: Core, job: Row)
    requires AllWellFormed(c.rows)
    ensures AllWellFormed(CreateStep(c, job).rows)
  {
  }
}
