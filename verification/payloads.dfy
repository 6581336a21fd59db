/** Whether a completed MEGA job has had the payload of its last download decrypted. */
module Payloads {
  import opened Jobs
  import opened Volumes
  import opened Planning
  import opened QueueSystem
  import Orphans
  import opened Postprocess

  /** The job is shown as completed, but the download that arrived last has not been decrypted. */
  ghost predicate CompletedEncrypted(s: Audited, id: Id) {
    && id in s.core.rows && id in s.ledger
    && s.core.rows[id].status == Completed && s.ledger[id].unlocked < s.ledger[id].arrived
  }

  /** Completed too early, or with a task that is done with the payload and has not seen the last download. */
  predicate IsAtRisk(cfg: Config, row: Row, l: Ledger, task: Option<Task>, loading: bool) {
    || (row.status == Completed && (l.unlocked < l.arrived || loading))
    || (task.Some? && IsSpent(cfg, task.value) && l.unlocked < l.arrived)
  }

  ghost predicate AtRisk(cfg: Config, s: Audited, id: Id) {
    && id in s.core.rows && id in s.ledger
    && IsAtRisk(cfg, s.core.rows[id], s.ledger[id], TaskOf(s.core, id), IsLoading(s.core, id))
  }

  // ---------------------------------------------------------------------
  // What it means to be at risk

  /** The job is completed with its payload encrypted, now or after one step of the engine or of its decrypt run. */
  ghost predicate EndsEncrypted(cfg: Config, s: Audited, id: Id) {
    || CompletedEncrypted(s, id)
    || exists step: Step :: (step.EngineMove? || step.WorkerFinished?) && CompletedEncrypted(AuditedNext(cfg, s, step), id)
  }

  lemma AtRiskMeansEndsEncrypted(cfg: Config, s: Audited, id: Id)
    requires s.ledger.Keys == s.core.rows.Keys && id in s.ledger && s.ledger[id].unlocked <= s.ledger[id].arrived
    ensures AtRisk(cfg, s, id) <==> EndsEncrypted(cfg, s, id)
  {
    if AtRisk(cfg, s, id) && !CompletedEncrypted(s, id) {
      if s.core.rows[id].status == Completed && IsLoading(s.core, id) {
        ArrivalShows(cfg, s, id);
      } else {
        RunShows(cfg, s, id);
      }
    }
    forall step: Step | (step.EngineMove? || step.WorkerFinished?) && CompletedEncrypted(AuditedNext(cfg, s, step), id)
      ensures AtRisk(cfg, s, id)
    {
      LedgerOf(cfg, s, step, id);
      if step.WorkerFinished? {
        FinishShown(cfg, s.core, step.id, step.archiveFailed, step.now, id, s.ledger[id]);
      }
    }
  }

  lemma ArrivalShows(cfg: Config, s: Audited, id: Id)
    requires id in s.core.rows && id in s.ledger && s.ledger[id].unlocked <= s.ledger[id].arrived
    requires s.core.rows[id].status == Completed && IsLoading(s.core, id)
    ensures CompletedEncrypted(AuditedNext(cfg, s, EngineMove(s.core.rows[id].gid.value, Some(Complete))), id)
  {
    LedgerOf(cfg, s, EngineMove(s.core.rows[id].gid.value, Some(Complete)), id);
  }

  lemma RunShows(cfg: Config, s: Audited, id: Id)
    requires id in s.core.rows && id in s.ledger && id in s.core.tasks
    requires IsSpent(cfg, s.core.tasks[id]) && s.ledger[id].unlocked < s.ledger[id].arrived
    ensures CompletedEncrypted(AuditedNext(cfg, s, WorkerFinished(id, false, 0)), id)
  {
    FinishedRow(cfg, s.core, id, false, 0);
    LedgerOf(cfg, s, WorkerFinished(id, false, 0), id);
  }

  lemma FinishShown(cfg: Config, c: Core, target: Id, archiveFailed: bool, now: Time, id: Id, l: Ledger)
    requires id in c.rows && id in FinishStep(cfg, c, target, archiveFailed, now).rows
    requires FinishStep(cfg, c, target, archiveFailed, now).rows[id].status == Completed && l.unlocked < l.arrived
    ensures IsAtRisk(cfg, c.rows[id], l, TaskOf(c, id), IsLoading(c, id))
  {
    if target == id && MayFinish(cfg, c, id) {
      FinishedRow(cfg, c, id, archiveFailed, now);
    }
  }

  // ---------------------------------------------------------------------
  // The invariant of one job

  /** Unless it was passed over, a MEGA job is not at risk. */
  predicate IsSafe(cfg: Config, row: Row, l: Ledger, task: Option<Task>, loading: bool) {
    && l.unlocked <= l.arrived
    && (cfg.mega && row.source.mega && l.passedOver == 0 ==> !IsAtRisk(cfg, row, l, task, loading))
  }

  ghost predicate SafeIn(cfg: Config, s: Audited, id: Id) {
    && id in s.core.rows && id in s.ledger
    && IsSafe(cfg, s.core.rows[id], s.ledger[id], TaskOf(s.core, id), IsLoading(s.core, id))
  }

  /** Nothing happens to the job that could complete it, and its download does not start. */
  ghost predicate IsCalm(c: Core, c': Core, id: Id) {
    && id in c.rows && id in c'.rows && c'.rows[id].source == c.rows[id].source
    && TaskOf(c', id) == TaskOf(c, id)
    && (c'.rows[id].status == Completed ==>
          c.rows[id].status == Completed && (IsLoading(c', id) ==> IsLoading(c, id)))
  }

  lemma CalmStaysSafe(cfg: Config, c: Core, c': Core, id: Id, l: Ledger, l': Ledger)
    requires IsCalm(c, c', id) && l'.arrived == l.arrived && l'.unlocked == l.unlocked && l'.passedOver == l.passedOver
    requires IsSafe(cfg, c.rows[id], l, TaskOf(c, id), IsLoading(c, id))
    ensures IsSafe(cfg, c'.rows[id], l', TaskOf(c', id), IsLoading(c', id))
  {
  }

  /** A statement that does not complete jobs is calm, as long as no task comes to life. */
  lemma StatementIsCalm(c: Core, c': Core, stmt: Stmt, id: Id)
    requires id in c.rows && (IsQuiet(stmt) || stmt.MarkDecryptingRetry?)
    requires c'.rows == c.rows || c'.rows == Apply(stmt, c.rows)
    requires c'.tasks == c.tasks && Orphans.NothingRevived(c, c')
    ensures IsCalm(c, c', id)
  {
  }

  // ---------------------------------------------------------------------
  // Step by step

  lemma RetryIsCalm(c: Core, target: Id, reply: Reply, gone: bool, id: Id)
    requires id in c.rows
    ensures IsCalm(c, RetryStep(c, target, reply, gone), id)
  {
    var c' := RetryStep(c, target, reply, gone);
    if target in c.rows {
      Orphans.RemovalContract(c.engine, c.rows[target].gid, reply, gone);
      var sentBack := c.rows[target].status == DecryptFailed;
      StatementIsCalm(c, c', if sentBack then MarkDecryptingRetry(target, c.rows[target].bytesDone) else Requeue(target), id);
    }
  }

  lemma RemoveIsCalm(c: Core, target: Id, reply: Reply, gone: bool, now: Time, id: Id)
    requires id in c.rows
    ensures IsCalm(c, RemoveStep(c, target, reply, gone, now), id)
  {
    if target in c.rows {
      Orphans.RemovalContract(c.engine, c.rows[target].gid, reply, gone);
      StatementIsCalm(c, RemoveStep(c, target, reply, gone, now), Remove(target, now), id);
    }
  }

  lemma ResumeIsCalm(c: Core, target: Id, reply: Reply, gone: bool, id: Id)
    requires id in c.rows
    ensures IsCalm(c, ResumeStep(c, target, reply, gone), id)
  {
    if target in c.rows {
      Orphans.RemovalContract(c.engine, c.rows[target].gid, reply, gone);
      var row := c.rows[target];
      var unpaused := !row.source.webshare && row.gid.Some? && reply == Accepted;
      StatementIsCalm(c, ResumeStep(c, target, reply, gone),
                      if unpaused then MarkDownloadingStatus(target) else Requeue(target), id);
    }
  }

  lemma ServiceIsCalm(cfg: Config, c: Core, step: Step, id: Id)
    requires id in c.rows && id < c.nextId
    requires step.Create? || step.Retry? || step.RemoveJob? || step.Clear? || step.Pause? || step.Resume?
             || step.AutoRequeue? || step.EngineFile?
    ensures IsCalm(c, Next(cfg, c, step), id)
  {
    match step {
      case Retry(target, reply, gone) => RetryIsCalm(c, target, reply, gone, id);
      case RemoveJob(target, reply, gone, now) => RemoveIsCalm(c, target, reply, gone, now, id);
      case Clear(now) => StatementIsCalm(c, Next(cfg, c, step), ClearCompleted(now), id);
      case Pause(target, reply) => StatementIsCalm(c, PauseStep(c, target, reply), MarkPaused(target), id);
      case Resume(target, reply, gone) => ResumeIsCalm(c, target, reply, gone, id);
      case AutoRequeue(target, now) => StatementIsCalm(c, AutoRequeueStep(c, target, now), Requeue(target), id);
      case Create(_) =>
      case EngineFile(_, _) =>
    }
  }

  /** Nobody completed has the identifier of the task that a start adds. */
  lemma StartIsCalm(c: Core, outcome: StartOutcome, now: Time, id: Id)
    requires Orphans.GidsDistinct(c) && id in c.rows
    ensures IsCalm(c, StartStep(c, outcome, now), id)
  {
    if target :| IsLowestClaimable(c.rows, now, target) {
      var claimed := c.(rows := Apply(Claim(target, now), c.rows));
      StatementIsCalm(c, claimed, Claim(target, now), id);
      ResolvingIsCalm(claimed, target, outcome, now, id);
      StartStepOf(c, outcome, now, target);
    }
  }

  lemma ResolvingIsCalm(c: Core, target: Id, outcome: StartOutcome, now: Time, id: Id)
    requires Orphans.GidsDistinct(c) && id in c.rows && target in c.rows
    ensures IsCalm(c, ResolveAndStart(c, target, outcome, now), id)
  {
    if outcome.Unresolved? {
      StatementIsCalm(c, ResolveAndStart(c, target, outcome, now), ResolveFailure(target, outcome.why, now), id);
    } else {
      StartingIsCalm(c, target, outcome, ControlToRemove(c.rows, target, outcome), now, id);
    }
  }

  lemma StartingIsCalm(c: Core, target: Id, outcome: StartOutcome, control: Option<string>, now: Time, id: Id)
    requires Orphans.GidsDistinct(c) && id in c.rows && target in c.rows && !outcome.Unresolved?
    ensures IsCalm(c, StartResolved(c, target, outcome, control, now), id)
  {
    if id != target {
      StartSparesOthers(c, target, outcome, control, now, id);
    } else {
      StartedRow(c, id, outcome, control, now);
    }
  }

  lemma StartedRow(c: Core, id: Id, outcome: StartOutcome, control: Option<string>, now: Time)
    requires id in c.rows && !outcome.Unresolved?
    ensures var c' := StartResolved(c, id, outcome, control, now);
            && id in c'.rows && c'.rows[id].source == c.rows[id].source && c'.rows[id].status != Completed
            && TaskOf(c', id) == TaskOf(c, id)
  {
    StartResolvedRows(c, id, outcome, control, now);
  }

  lemma StartSparesOthers(c: Core, target: Id, outcome: StartOutcome, control: Option<string>, now: Time, id: Id)
    requires Orphans.GidsDistinct(c) && id in c.rows && target in c.rows && id != target && !outcome.Unresolved?
    ensures var c' := StartResolved(c, target, outcome, control, now);
            && id in c'.rows && c'.rows[id] == c.rows[id] && TaskOf(c', id) == TaskOf(c, id)
            && IsLoading(c', id) == IsLoading(c, id)
  {
    StartResolvedRows(c, target, outcome, control, now);
  }

  lemma EngineStaysSafe(cfg: Config, c: Core, gid: Gid, to: Option<TaskState>, id: Id, l: Ledger)
    requires id in c.rows && IsSafe(cfg, c.rows[id], l, TaskOf(c, id), IsLoading(c, id))
    ensures var c' := EngineStep(c, gid, to);
            IsSafe(cfg, c'.rows[id], Bump(cfg, c, EngineMove(gid, to), id, l), TaskOf(c', id), IsLoading(c', id))
  {
  }

  lemma PollStaysSafe(cfg: Config, c: Core, target: Id, report: Report, plan: Plan, archive: bool, now: Time, id: Id, l: Ledger)
    requires IsPolled(c, target) && id in c.rows && IsSound(cfg, c.rows[target], archive, plan)
    requires JobOk(cfg, c.rows[id], l, TaskOf(c, id)) && IsSafe(cfg, c.rows[id], l, TaskOf(c, id), IsLoading(c, id))
    ensures var c' := Polled(c, target, report, plan, now);
            id in c'.rows && IsSafe(cfg, c'.rows[id], l, TaskOf(c', id), IsLoading(c', id))
  {
    var c' := Polled(c, target, report, plan, now);
    if id != target {
      PollSparesOthers(c, target, report, plan, now, id);
      PolledKeepsEngine(c, target, report, plan, now);
    } else if FindsComplete(c, id) {
      FinishedDownload(c, id, report, plan, now);
    } else {
      StatementIsCalm(c, c', PollStmt(c, id, report, now), id);
      CalmStaysSafe(cfg, c, c', id, l, l);
    }
  }

  lemma PolledKeepsEngine(c: Core, id: Id, report: Report, plan: Plan, now: Time)
    requires IsPolled(c, id)
    ensures Polled(c, id, report, plan, now).engine == c.engine
  {
  }

  lemma FinishedDownload(c: Core, id: Id, report: Report, plan: Plan, now: Time)
    requires IsPolled(c, id) && FindsComplete(c, id)
    ensures var c' := Polled(c, id, report, plan, now);
            && id in c'.rows && c'.rows[id].source == c.rows[id].source && c'.engine == c.engine
            && c'.rows[id].status == (if plan.Skip? then Completed else if plan.Reject? then DecryptFailed else Decrypting)
            && TaskOf(c', id) == if plan.Proceed? && id !in c.tasks then Some(plan.task) else TaskOf(c, id)
  {
  }

  lemma DispatchStaysSafe(cfg: Config, c: Core, target: Id, plan: Plan, now: Time, id: Id, l: Ledger)
    requires target in c.rows && PendingPostprocess(c.rows[target]) && id in c.rows
    requires PlanSound(cfg, c.rows[target], ArchivePath(c.rows[target]), plan)
    requires JobOk(cfg, c.rows[id], l, TaskOf(c, id)) && IsSafe(cfg, c.rows[id], l, TaskOf(c, id), IsLoading(c, id))
    ensures var c', l' := Dispatched(c, target, plan, now), if id == target then LedgerAfterDispatch(cfg, c, id, plan, l) else l;
            id in c'.rows && IsSafe(cfg, c'.rows[id], l', TaskOf(c', id), IsLoading(c', id))
  {
    if id == target {
      PlanStaysSafe(cfg, c.rows[id], id, plan, IsArchiveFile(ArchivePath(c.rows[id])), IsLoading(c, id), now, l, TaskOf(c, id));
    }
  }

  lemma PlanStaysSafe(cfg: Config, row: Row, id: Id, plan: Plan, archive: bool, loading: bool, now: Time, l: Ledger,
                      task: Option<Task>)
    requires PendingPostprocess(row) && IsSound(cfg, row, archive, plan) && JobOk(cfg, row, l, task)
    requires IsSafe(cfg, row, l, task, loading)
    ensures RowAfterPlan(row, id, plan, now).gid == row.gid
    ensures IsSafe(cfg, RowAfterPlan(row, id, plan, now), LedgerAfterPlan(cfg, row, task.Some?, plan, archive, loading, l),
                   if plan.Proceed? && task.None? then Some(plan.task) else task, loading)
  {
    if cfg.mega && row.source.mega {
      assert row.status == Decrypting;
    }
  }

  lemma WorkerStaysSafe(cfg: Config, c: Core, step: Step, id: Id, l: Ledger)
    requires step.WorkerFinished? || step.WorkerPayload? || step.WorkerCancelled?
    requires id in c.rows && IsSafe(cfg, c.rows[id], l, TaskOf(c, id), IsLoading(c, id))
    ensures var c' := Next(cfg, c, step);
            id in c'.rows && IsSafe(cfg, c'.rows[id], Bump(cfg, c, step, id, l), TaskOf(c', id), IsLoading(c', id))
  {
    if step.WorkerFinished? {
      FinishStaysSafe(cfg, c, step.id, step.archiveFailed, step.now, id, l);
    }
  }

  lemma FinishStaysSafe(cfg: Config, c: Core, target: Id, archiveFailed: bool, now: Time, id: Id, l: Ledger)
    requires id in c.rows && IsSafe(cfg, c.rows[id], l, TaskOf(c, id), IsLoading(c, id))
    ensures var c' := FinishStep(cfg, c, target, archiveFailed, now);
            var l' := if target == id && MayFinish(cfg, c, id)
                      then LedgerAfterRun(RunCompletes(cfg, c.tasks[id], archiveFailed), IsLoading(c, id), l) else l;
            id in c'.rows && IsSafe(cfg, c'.rows[id], l', TaskOf(c', id), IsLoading(c', id))
  {
    if target == id && MayFinish(cfg, c, id) {
      FinishedRow(cfg, c, id, archiveFailed, now);
    }
  }

  /** One step, seen from one job. */
  lemma StepStaysSafe(cfg: Config, c: Core, step: Step, id: Id, l: Ledger)
    requires Orphans.GidsDistinct(c) && id in c.rows && id < c.nextId
    requires JobOk(cfg, c.rows[id], l, TaskOf(c, id)) && IsSafe(cfg, c.rows[id], l, TaskOf(c, id), IsLoading(c, id))
    ensures var c' := Next(cfg, c, step);
            id in c'.rows && IsSafe(cfg, c'.rows[id], Bump(cfg, c, step, id, l), TaskOf(c', id), IsLoading(c', id))
  {
    match step {
      case Poll(target, report, env, now) => PollStepStaysSafe(cfg, c, step, id, l);
      case Dispatch(target, env, now) => DispatchStepStaysSafe(cfg, c, step, id, l);
      case WorkerFinished(_, _, _) => WorkerStaysSafe(cfg, c, step, id, l);
      case WorkerPayload(_, _) => WorkerStaysSafe(cfg, c, step, id, l);
      case WorkerCancelled(_) => WorkerStaysSafe(cfg, c, step, id, l);
      case EngineMove(gid, to) => EngineStaysSafe(cfg, c, gid, to, id, l);
      case _ => CalmStepStaysSafe(cfg, c, step, id, l);
    }
  }

  lemma CalmStepStaysSafe(cfg: Config, c: Core, step: Step, id: Id, l: Ledger)
    requires step.Create? || step.Retry? || step.RemoveJob? || step.Clear? || step.Pause? || step.Resume?
             || step.AutoRequeue? || step.EngineFile? || step.Start?
    requires Orphans.GidsDistinct(c) && id in c.rows && id < c.nextId
    requires IsSafe(cfg, c.rows[id], l, TaskOf(c, id), IsLoading(c, id))
    ensures var c' := Next(cfg, c, step);
            id in c'.rows && IsSafe(cfg, c'.rows[id], Bump(cfg, c, step, id, l), TaskOf(c', id), IsLoading(c', id))
  {
    if step.Start? {
      StartIs(cfg, c, step.outcome, step.now);
      StartIsCalm(c, step.outcome, step.now, id);
    } else {
      ServiceIsCalm(cfg, c, step, id);
    }
    CalmBump(cfg, c, step, id, l);
    CalmStaysSafe(cfg, c, Next(cfg, c, step), id, l, Bump(cfg, c, step, id, l));
  }

  lemma CalmBump(cfg: Config, c: Core, step: Step, id: Id, l: Ledger)
    requires !step.EngineMove? && !step.Dispatch? && !step.WorkerPayload? && !step.WorkerFinished?
    ensures var l' := Bump(cfg, c, step, id, l);
            l'.arrived == l.arrived && l'.unlocked == l.unlocked && l'.passedOver == l.passedOver
  {
  }

  lemma PollStepStaysSafe(cfg: Config, c: Core, step: Step, id: Id, l: Ledger)
    requires step.Poll? && id in c.rows
    requires JobOk(cfg, c.rows[id], l, TaskOf(c, id)) && IsSafe(cfg, c.rows[id], l, TaskOf(c, id), IsLoading(c, id))
    ensures var c' := Next(cfg, c, step);
            id in c'.rows && IsSafe(cfg, c'.rows[id], Bump(cfg, c, step, id, l), TaskOf(c', id), IsLoading(c', id))
  {
    if IsPolled(c, step.id) && !step.report.unreachable {
      var path := if step.report.path != "" then step.report.path else ArchivePath(c.rows[step.id]);
      PlansAreSound(cfg, c.rows, step.id, step.report.path, step.env);
      PollStaysSafe(cfg, c, step.id, step.report, PlanFor(cfg, c.rows, step.id, step.report.path, step.env),
                    IsArchiveFile(path), step.now, id, l);
    }
  }

  lemma DispatchStepStaysSafe(cfg: Config, c: Core, step: Step, id: Id, l: Ledger)
    requires step.Dispatch? && id in c.rows
    requires JobOk(cfg, c.rows[id], l, TaskOf(c, id)) && IsSafe(cfg, c.rows[id], l, TaskOf(c, id), IsLoading(c, id))
    ensures var c' := Next(cfg, c, step);
            id in c'.rows && IsSafe(cfg, c'.rows[id], Bump(cfg, c, step, id, l), TaskOf(c', id), IsLoading(c', id))
  {
    if IsDispatched(cfg, c, step.id, step.env) {
      PlansAreSound(cfg, c.rows, step.id, "", step.env);
      DispatchStaysSafe(cfg, c, step.id, PlanFor(cfg, c.rows, step.id, "", step.env), step.now, id, l);
    }
  }

  // ---------------------------------------------------------------------
  // All runs

  lemma NextStaysSafe(cfg: Config, s: Audited, step: Step, id: Id)
    requires Postprocess.Inv(cfg, s) && Orphans.GidsDistinct(s.core)
    requires id in AuditedNext(cfg, s, step).core.rows && (id in s.core.rows ==> SafeIn(cfg, s, id))
    ensures SafeIn(cfg, AuditedNext(cfg, s, step), id)
  {
    LedgerOf(cfg, s, step, id);
    if id in s.core.rows {
      assert JobOkIn(cfg, s, id);
      StepStaysSafe(cfg, s.core, step, id, s.ledger[id]);
    } else {
      NewJobSafe(cfg, s.core, step, id);
    }
  }

  lemma NewJobSafe(cfg: Config, c: Core, step: Step, id: Id)
    requires c.tasks.Keys <= c.rows.Keys && id !in c.rows && id in Next(cfg, c, step).rows
    ensures var c' := Next(cfg, c, step);
            IsSafe(cfg, c'.rows[id], BLANK, TaskOf(c', id), IsLoading(c', id))
  {
    if !step.Create? {
      StepFrame(cfg, c, step);
    }
  }

  lemma {:induction false} RunStaysSafe(cfg: Config, steps: seq<Step>, id: Id)
    requires id in AuditedRun(cfg, steps).core.rows
    ensures SafeIn(cfg, AuditedRun(cfg, steps), id)
  {
    if steps != [] {
      var before := steps[..|steps| - 1];
      RunKeepsInv(cfg, before);
      Orphans.RunKeepsInv(cfg, before);
      if id in AuditedRun(cfg, before).core.rows {
        RunStaysSafe(cfg, before, id);
      }
      NextStaysSafe(cfg, AuditedRun(cfg, before), steps[|steps| - 1], id);
    }
  }

  /** In every run, a MEGA job that was never passed over is completed only with its payload decrypted. */
  lemma CompletedMeansDecrypted(cfg: Config, steps: seq<Step>, id: Id)
    requires cfg.mega && id in AuditedRun(cfg, steps).core.rows && AuditedRun(cfg, steps).core.rows[id].source.mega
    requires AuditedRun(cfg, steps).ledger[id].passedOver == 0
    ensures !CompletedEncrypted(AuditedRun(cfg, steps), id)
  {
    RunStaysSafe(cfg, steps, id);
  }

  // ---------------------------------------------------------------------
  // Being passed over, and being at risk

  /** What every step keeps of a job and its ledger. */
  lemma StepRecords(cfg: Config, s: Audited, step: Step, id: Id)
    requires Postprocess.Inv(cfg, s) && id in s.core.rows
    ensures var s' := AuditedNext(cfg, s, step);
            && id in s'.core.rows && id in s'.ledger && s'.core.rows[id].source == s.core.rows[id].source
            && s.ledger[id].passedOver <= s'.ledger[id].passedOver
  {
    SameFile(cfg, s.core, step, id);
    LedgerOf(cfg, s, step, id);
    BumpsOnlyGrow(cfg, s.core, step, id, s.ledger[id]);
  }

  lemma BumpsOnlyGrow(cfg: Config, c: Core, step: Step, id: Id, l: Ledger)
    requires id in c.rows
    ensures l.passedOver <= Bump(cfg, c, step, id, l).passedOver
  {
  }

  /** Whoever is passed over is at risk from then on, until something else happens. */
  lemma PassedOverIsAtRisk(cfg: Config, s: Audited, step: Step, id: Id)
    requires Postprocess.Inv(cfg, s) && SafeIn(cfg, s, id)
    requires AuditedNext(cfg, s, step).ledger.Keys == AuditedNext(cfg, s, step).core.rows.Keys
    requires Bump(cfg, s.core, step, id, s.ledger[id]).passedOver > s.ledger[id].passedOver
    ensures AtRisk(cfg, AuditedNext(cfg, s, step), id)
  {
    StepRecords(cfg, s, step, id);
    LedgerOf(cfg, s, step, id);
    match step {
      case EngineMove(gid, to) => ArrivalPassesOver(cfg, s.core, gid, to, id, s.ledger[id]);
      case Dispatch(target, env, now) => DispatchPassesOver(cfg, s.core, step, id, s.ledger[id]);
      case WorkerFinished(target, archiveFailed, now) => FinishedRow(cfg, s.core, id, archiveFailed, now);
    }
  }

  lemma ArrivalPassesOver(cfg: Config, c: Core, gid: Gid, to: Option<TaskState>, id: Id, l: Ledger)
    requires id in c.rows && l.unlocked <= l.arrived
    requires Bump(cfg, c, EngineMove(gid, to), id, l).passedOver > l.passedOver
    ensures var c' := EngineStep(c, gid, to);
            IsAtRisk(cfg, c'.rows[id], Bump(cfg, c, EngineMove(gid, to), id, l), TaskOf(c', id), IsLoading(c', id))
  {
  }

  lemma DispatchPassesOver(cfg: Config, c: Core, step: Step, id: Id, l: Ledger)
    requires step.Dispatch? && id in c.rows && Bump(cfg, c, step, id, l).passedOver > l.passedOver
    ensures var c' := Next(cfg, c, step);
            id in c'.rows && IsAtRisk(cfg, c'.rows[id], Bump(cfg, c, step, id, l), TaskOf(c', id), IsLoading(c', id))
  {
    var plan := PlanFor(cfg, c.rows, id, "", step.env);
    PlansAreSound(cfg, c.rows, id, "", step.env);
    DispatchIs(cfg, c, id, step.env, step.now);
    DispatchedIs(cfg, c, id, step.env, step.now);
    BumpOfDispatch(cfg, c, id, step.env, step.now, l);
    PlanPassesOver(cfg, c, id, plan, IsArchiveFile(ArchivePath(c.rows[id])), step.now, l);
  }

  lemma PlanPassesOver(cfg: Config, c: Core, id: Id, plan: Plan, archive: bool, now: Time, l: Ledger)
    requires id in c.rows && IsSound(cfg, c.rows[id], archive, plan)
    requires PassesOver(cfg, c.rows[id], id in c.tasks, plan, archive, IsLoading(c, id), l)
    ensures var c' := Dispatched(c, id, plan, now);
            IsAtRisk(cfg, c'.rows[id], LedgerAfterPlan(cfg, c.rows[id], id in c.tasks, plan, archive, IsLoading(c, id), l),
                     TaskOf(c', id), IsLoading(c', id))
  {
  }

  ghost predicate EndsEncryptedAt(cfg: Config, steps: seq<Step>, k: nat, id: Id)
    requires k <= |steps|
  {
    EndsEncrypted(cfg, AuditedRun(cfg, steps[..k]), id)
  }

  /**
   * For every run and every MEGA job: at some moment of the run the job is completed with its payload
   * encrypted, or is one step of the engine or of its decrypt run away from that, exactly if it was
   * passed over. That happens in three ways. It is dispatched with the code of a failure and the name
   * of an archive while its payload is encrypted, or completed so while its download is running; a
   * download arrives while it has a task that is done with the payload; or a run completes it while
   * its download is running.
   */
  lemma PassedOverIff(cfg: Config, steps: seq<Step>, id: Id)
    requires cfg.mega && id in AuditedRun(cfg, steps).core.rows && AuditedRun(cfg, steps).core.rows[id].source.mega
    ensures AuditedRun(cfg, steps).ledger[id].passedOver > 0 <==>
              exists k :: 0 <= k <= |steps| && EndsEncryptedAt(cfg, steps, k, id)
  {
    if AuditedRun(cfg, steps).ledger[id].passedOver > 0 {
      PassedOverEnds(cfg, steps, id);
    }
    forall k: nat | 0 <= k <= |steps| && EndsEncryptedAt(cfg, steps, k, id)
      ensures AuditedRun(cfg, steps).ledger[id].passedOver > 0
    {
      EndsPassedOver(cfg, steps, id, k);
    }
  }

  lemma {:induction false} PassedOverEnds(cfg: Config, steps: seq<Step>, id: Id)
    requires id in AuditedRun(cfg, steps).core.rows && AuditedRun(cfg, steps).ledger[id].passedOver > 0
    ensures exists k :: 0 <= k <= |steps| && EndsEncryptedAt(cfg, steps, k, id)
  {
    var before, step := steps[..|steps| - 1], steps[|steps| - 1];
    var s := AuditedRun(cfg, before);
    RunKeepsInv(cfg, before);
    OldJob(cfg, s, step, id);
    RunStaysSafe(cfg, before, id);
    if s.ledger[id].passedOver > 0 {
      PassedOverEnds(cfg, before, id);
      EndedBefore(cfg, before, steps, id);
    } else {
      PassedOverIsAtRisk(cfg, s, step, id);
      RunStaysSafe(cfg, steps, id);
      AtRiskMeansEndsEncrypted(cfg, AuditedRun(cfg, steps), id);
      EndsHere(cfg, steps, id);
    }
  }

  lemma EndsHere(cfg: Config, steps: seq<Step>, id: Id)
    requires EndsEncrypted(cfg, AuditedRun(cfg, steps), id)
    ensures exists k :: 0 <= k <= |steps| && EndsEncryptedAt(cfg, steps, k, id)
  {
    assert steps[..|steps|] == steps;
    assert EndsEncryptedAt(cfg, steps, |steps|, id);
  }

  lemma EndedBefore(cfg: Config, before: seq<Step>, steps: seq<Step>, id: Id)
    requires before <= steps && exists k :: 0 <= k <= |before| && EndsEncryptedAt(cfg, before, k, id)
    ensures exists k :: 0 <= k <= |steps| && EndsEncryptedAt(cfg, steps, k, id)
  {
    var k :| 0 <= k <= |before| && EndsEncryptedAt(cfg, before, k, id);
    assert before[..k] == steps[..k];
    assert EndsEncryptedAt(cfg, steps, k, id);
  }

  /** A job with something in its ledger was there before the step. */
  lemma OldJob(cfg: Config, s: Audited, step: Step, id: Id)
    requires Postprocess.Inv(cfg, s) && id in AuditedNext(cfg, s, step).ledger
    requires AuditedNext(cfg, s, step).ledger[id].passedOver > 0
    ensures id in s.core.rows && AuditedNext(cfg, s, step).ledger[id] == Bump(cfg, s.core, step, id, s.ledger[id])
  {
    LedgerOf(cfg, s, step, id);
  }

  lemma EndsPassedOver(cfg: Config, steps: seq<Step>, id: Id, k: nat)
    requires cfg.mega && id in AuditedRun(cfg, steps).core.rows && AuditedRun(cfg, steps).core.rows[id].source.mega
    requires k <= |steps| && EndsEncryptedAt(cfg, steps, k, id)
    ensures AuditedRun(cfg, steps).ledger[id].passedOver > 0
  {
    var s := AuditedRun(cfg, steps[..k]);
    RunKeepsInv(cfg, steps[..k]);
    EndsHasJob(cfg, s, id);
    RunStaysSafe(cfg, steps[..k], id);
    AtRiskMeansEndsEncrypted(cfg, s, id);
    PassedOverGrows(cfg, steps, id, k);
  }

  lemma EndsHasJob(cfg: Config, s: Audited, id: Id)
    requires s.ledger.Keys == s.core.rows.Keys && EndsEncrypted(cfg, s, id)
    ensures id in s.core.rows
  {
    if !CompletedEncrypted(s, id) {
      var step: Step :| (step.EngineMove? || step.WorkerFinished?) && CompletedEncrypted(AuditedNext(cfg, s, step), id);
      StepFrame(cfg, s.core, step);
    }
  }

  lemma {:induction false} PassedOverGrows(cfg: Config, steps: seq<Step>, id: Id, k: nat)
    requires k <= |steps| && id in AuditedRun(cfg, steps[..k]).core.rows
    ensures id in AuditedRun(cfg, steps).core.rows
    ensures AuditedRun(cfg, steps[..k]).ledger[id].passedOver <= AuditedRun(cfg, steps).ledger[id].passedOver
    ensures AuditedRun(cfg, steps[..k]).core.rows[id].source == AuditedRun(cfg, steps).core.rows[id].source
    decreases |steps|
  {
    if k == |steps| {
      assert steps[..k] == steps;
    } else {
      var before := steps[..|steps| - 1];
      assert before[..k] == steps[..k];
      PassedOverGrows(cfg, before, id, k);
      RunKeepsInv(cfg, before);
      StepRecords(cfg, AuditedRun(cfg, before), steps[|steps| - 1], id);
    }
  }
}
