/** Live engine tasks and job rows belong together, in every run. */
module Orphans {
  import opened Jobs
  import opened Planning
  import opened QueueSystem

  /** What holds of a row on its own, given the state of the engine. */
  predicate RowSafe(engine: map<Gid, TaskState>, row: Row) {
    && Pristine(row)
    && (row.status == Failed && row.gid.Some? ==> !IsLive(engine, row.gid.value))
    && (row.status == Downloading ==> row.gid.Some?)
  }

  ghost predicate Owned(c: Core, gid: Gid) {
    exists id :: id in c.rows && c.rows[id].gid == Some(gid)
  }

  ghost predicate RowsSafe(c: Core) {
    forall id :: id in c.rows ==> id < c.nextId && RowSafe(c.engine, c.rows[id])
  }

  /** Identifiers below the next one, each stored at most once. */
  ghost predicate GidsDistinct(c: Core) {
    && (forall id :: id in c.rows && c.rows[id].gid.Some? ==> c.rows[id].gid.value < c.nextGid)
    && (forall gid :: gid in c.engine ==> gid < c.nextGid)
    && (forall a, b :: a in c.rows && b in c.rows && a != b && c.rows[a].gid.Some? ==> c.rows[a].gid != c.rows[b].gid)
  }

  ghost predicate LiveOwned(c: Core) {
    forall gid :: IsLive(c.engine, gid) ==> Owned(c, gid)
  }

  ghost predicate Inv(c: Core) {
    RowsSafe(c) && GidsDistinct(c) && LiveOwned(c)
  }

  /** Tasks that stay live keep their owners. */
  lemma OwnersKept(c: Core, c': Core)
    requires LiveOwned(c) && forall gid :: IsLive(c'.engine, gid) ==> IsLive(c.engine, gid)
    requires c.rows.Keys <= c'.rows.Keys
    requires forall id :: id in c.rows && c.rows[id].gid.Some? && IsLive(c'.engine, c.rows[id].gid.value) ==>
               c'.rows[id].gid == c.rows[id].gid
    ensures LiveOwned(c')
  {
    forall gid: Gid | IsLive(c'.engine, gid)
      ensures Owned(c', gid)
    {
      assert Owned(c, gid);
      var owner :| owner in c.rows && c.rows[owner].gid == Some(gid);
      assert c'.rows[owner].gid == Some(gid);
    }
  }

  /** Jobs do not disappear, and a stored task is only ever cleared, not replaced. */
  ghost predicate GidsKept(c: Core, c': Core) {
    forall id :: id in c.rows ==>
      id in c'.rows && (c.rows[id].gid.Some? ==> c'.rows[id].gid == c.rows[id].gid || c'.rows[id].gid.None?)
  }

  ghost predicate NothingRevived(c: Core, c': Core) {
    c'.engine.Keys <= c.engine.Keys && forall gid :: IsLive(c'.engine, gid) ==> IsLive(c.engine, gid)
  }

  ghost predicate SameCounters(c: Core, c': Core) {
    c'.nextId == c.nextId && c'.nextGid == c.nextGid
  }

  /** Nothing but the row `id` differs, its task is kept or let go when dead, and the engine loses tasks at most. */
  ghost predicate Replaces(c: Core, c': Core, id: Id) {
    && id in c.rows && id in c'.rows && c'.rows == c.rows[id := c'.rows[id]]
    && SameCounters(c, c') && NothingRevived(c, c')
    && RowSafe(c'.engine, c'.rows[id])
    && (|| c'.rows[id].gid == c.rows[id].gid
        || (c'.rows[id].gid.None? && !IsLive(c'.engine, c.rows[id].gid.value)))
  }

  lemma ReplaceKeepsInv(c: Core, c': Core, id: Id)
    requires Inv(c) && Replaces(c, c', id)
    ensures Inv(c') && GidsKept(c, c')
  {
    OwnersKept(c, c');
  }

  lemma EngineKeepsInv(c: Core, c': Core)
    requires Inv(c) && c'.rows == c.rows && SameCounters(c, c') && NothingRevived(c, c')
    ensures Inv(c') && GidsKept(c, c')
  {
    OwnersKept(c, c');
  }

  /** An update that leaves the task alone, or lets go of a dead one, replaces one row. */
  lemma UpdateReplaces(c: Core, c': Core, stmt: Stmt, id: Id)
    requires id in c.rows && IsUpdateOf(stmt, id) && c'.rows == Apply(stmt, c.rows)
    requires SameCounters(c, c') && NothingRevived(c, c') && RowSafe(c'.engine, Effect(stmt, c.rows[id]))
    requires !stmt.MarkDownloading?
    requires stmt.Requeue? && c.rows[id].gid.Some? ==> !IsLive(c'.engine, c.rows[id].gid.value)
    ensures Replaces(c, c', id)
  {
    ApplyToOne(stmt, c.rows);
  }

  /** Two updates of one row that leave its task alone. */
  lemma UpdatesReplace(c: Core, c': Core, first: Stmt, second: Stmt, id: Id)
    requires id in c.rows && IsUpdateOf(first, id) && IsUpdateOf(second, id)
    requires c'.rows == Apply(second, Apply(first, c.rows)) && SameCounters(c, c') && c'.engine == c.engine
    requires RowSafe(c.engine, Effect(second, Effect(first, c.rows[id])))
    requires !first.MarkDownloading? && !first.Requeue? && !second.MarkDownloading? && !second.Requeue?
    ensures Replaces(c, c', id)
  {
    ApplyUpdates(first, second, c.rows, id);
  }

  // ---------------------------------------------------------------------
  // Service calls

  lemma RemovalContract(engine: map<Gid, TaskState>, gid: Option<Gid>, reply: Reply, gone: bool)
    ensures RemoveTask(engine, gid, reply, gone).0.Keys <= engine.Keys
    ensures forall g :: IsLive(RemoveTask(engine, gid, reply, gone).0, g) ==> IsLive(engine, g)
    ensures RemoveTask(engine, gid, reply, gone).1 && gid.Some? ==>
              !IsLive(RemoveTask(engine, gid, reply, gone).0, gid.value)
  {
  }

  /** Removing the task and then changing the row, as retry, remove and resume do. */
  lemma RemoveThenUpdate(c: Core, c': Core, id: Id, reply: Reply, gone: bool, stmt: Stmt)
    requires Inv(c) && id in c.rows
    requires stmt == Requeue(id) || (stmt.Remove? && stmt.id == id)
    requires c' == c.(engine := RemoveTask(c.engine, c.rows[id].gid, reply, gone).0,
                      rows := if RemoveTask(c.engine, c.rows[id].gid, reply, gone).1 then Apply(stmt, c.rows) else c.rows)
    ensures Inv(c') && GidsKept(c, c')
  {
    RemovalContract(c.engine, c.rows[id].gid, reply, gone);
    if RemoveTask(c.engine, c.rows[id].gid, reply, gone).1 {
      UpdateReplaces(c, c', stmt, id);
      ReplaceKeepsInv(c, c', id);
    } else {
      EngineKeepsInv(c, c');
    }
  }

  lemma RetryKeepsInv(c: Core, id: Id, reply: Reply, gone: bool)
    requires Inv(c)
    ensures Inv(RetryStep(c, id, reply, gone)) && GidsKept(c, RetryStep(c, id, reply, gone))
  {
    var c' := RetryStep(c, id, reply, gone);
    if id in c.rows {
      if c.rows[id].status == DecryptFailed {
        UpdateReplaces(c, c', MarkDecryptingRetry(id, c.rows[id].bytesDone), id);
        ReplaceKeepsInv(c, c', id);
      } else {
        RemoveThenUpdate(c, c', id, reply, gone, Requeue(id));
      }
    }
  }

  lemma PauseKeepsInv(c: Core, id: Id, reply: Reply)
    requires Inv(c)
    ensures Inv(PauseStep(c, id, reply)) && GidsKept(c, PauseStep(c, id, reply))
  {
    var c' := PauseStep(c, id, reply);
    if c' != c {
      UpdateReplaces(c, c', MarkPaused(id), id);
      ReplaceKeepsInv(c, c', id);
    }
  }

  lemma PlainResumeReplaces(c: Core, id: Id, reply: Reply, gone: bool)
    requires id in c.rows && !c.rows[id].source.webshare && RowSafe(c.engine, c.rows[id])
    requires ResumeStep(c, id, reply, gone) != c
    ensures Replaces(c, ResumeStep(c, id, reply, gone), id)
  {
    var c' := ResumeStep(c, id, reply, gone);
    UpdateReplaces(c, c', if c.rows[id].gid.None? || reply == NotFound then Requeue(id) else MarkDownloadingStatus(id), id);
  }

  lemma ResumeKeepsInv(c: Core, id: Id, reply: Reply, gone: bool)
    requires Inv(c)
    ensures Inv(ResumeStep(c, id, reply, gone)) && GidsKept(c, ResumeStep(c, id, reply, gone))
  {
    var c' := ResumeStep(c, id, reply, gone);
    if id in c.rows && c.rows[id].source.webshare {
      RemoveThenUpdate(c, c', id, reply, gone, Requeue(id));
    } else if c' != c {
      PlainResumeReplaces(c, id, reply, gone);
      ReplaceKeepsInv(c, c', id);
    }
  }

  lemma ClearKeepsInv(c: Core, now: Time)
    requires Inv(c)
    ensures Inv(c.(rows := Apply(ClearCompleted(now), c.rows)))
    ensures GidsKept(c, c.(rows := Apply(ClearCompleted(now), c.rows)))
  {
    var c' := c.(rows := Apply(ClearCompleted(now), c.rows));
    assert forall id :: id in c.rows ==> c'.rows[id].gid == c.rows[id].gid;
    OwnersKept(c, c');
  }

  // ---------------------------------------------------------------------
  // Runner and workers

  lemma PolledReplaces(c: Core, id: Id, report: Report, plan: Plan, now: Time)
    requires IsPolled(c, id) && RowSafe(c.engine, c.rows[id])
    ensures Replaces(c, Polled(c, id, report, plan, now), id)
  {
    var c' := Polled(c, id, report, plan, now);
    if FindsComplete(c, id) {
      FinishedReplaces(c, id, report, plan, now);
    } else {
      UpdateReplaces(c, c', PollStmt(c, id, report, now), id);
    }
  }

  lemma FinishedReplaces(c: Core, id: Id, report: Report, plan: Plan, now: Time)
    requires id in c.rows && RowSafe(c.engine, c.rows[id])
    ensures Replaces(c, DownloadFinished(c, id, report, plan, now), id)
  {
    var c' := DownloadFinished(c, id, report, plan, now);
    var bytes := if report.bytes == 0 && report.total > 0 then report.total else report.bytes;
    match plan {
      case Skip => UpdatesReplace(c, c', UpdateProgress(id, bytes, true, 0, 0), MarkCompleted(id, now), id);
      case Reject(msg) =>
        UpdatesReplace(c, c', MarkPostprocessFailed(id, msg, "postprocess_failed", now), ClearArchivePassword(id), id);
      case _ => UpdateReplaces(c, c', MarkDecrypting(id, bytes), id);
    }
  }

  lemma DispatchedReplaces(c: Core, id: Id, plan: Plan, now: Time)
    requires id in c.rows && RowSafe(c.engine, c.rows[id])
    ensures Replaces(c, Dispatched(c, id, plan, now), id)
  {
  }

  lemma FinishedRunReplaces(cfg: Config, c: Core, id: Id, archiveFailed: bool, now: Time)
    requires id in c.rows && MayFinish(cfg, c, id) && RowSafe(c.engine, c.rows[id])
    ensures Replaces(c, FinishStep(cfg, c, id, archiveFailed, now), id)
  {
    UpdatesReplace(c, FinishStep(cfg, c, id, archiveFailed, now),
                   FirstClosing(cfg, id, c.tasks[id], archiveFailed, now), ClearArchivePassword(id), id);
  }

  /** Writes about a job that does not exist change nothing. */
  lemma FinishedRunOfNobody(cfg: Config, c: Core, id: Id, archiveFailed: bool, now: Time)
    requires id !in c.rows
    ensures FinishStep(cfg, c, id, archiveFailed, now).rows == c.rows
  {
    if MayFinish(cfg, c, id) {
      ApplyToOne(FirstClosing(cfg, id, c.tasks[id], archiveFailed, now), c.rows);
      ApplyToOne(ClearArchivePassword(id), c.rows);
    }
  }

  lemma FinishKeepsInv(cfg: Config, c: Core, id: Id, archiveFailed: bool, now: Time)
    requires Inv(c)
    ensures Inv(FinishStep(cfg, c, id, archiveFailed, now)) && GidsKept(c, FinishStep(cfg, c, id, archiveFailed, now))
  {
    var c' := FinishStep(cfg, c, id, archiveFailed, now);
    if id !in c.rows {
      FinishedRunOfNobody(cfg, c, id, archiveFailed, now);
      EngineKeepsInv(c, c');
    } else if MayFinish(cfg, c, id) {
      FinishedRunReplaces(cfg, c, id, archiveFailed, now);
      ReplaceKeepsInv(c, c', id);
    }
  }

  /** A claimed job fails without a task, or gets a fresh one. */
  lemma ResolveKeepsInv(c: Core, id: Id, outcome: StartOutcome, now: Time)
    requires Inv(c) && id in c.rows && c.rows[id].status == Resolving
    ensures Inv(ResolveAndStart(c, id, outcome, now)) && GidsKept(c, ResolveAndStart(c, id, outcome, now))
  {
    if outcome.Unresolved? {
      var c' := ResolveAndStart(c, id, outcome, now);
      UpdateReplaces(c, c', ResolveFailure(id, outcome.why, now), id);
      ReplaceKeepsInv(c, c', id);
    } else {
      StartResolvedKeepsInv(c, id, outcome, ControlToRemove(c.rows, id, outcome), now);
    }
  }

  lemma StartResolvedKeepsInv(c: Core, id: Id, outcome: StartOutcome, control: Option<string>, now: Time)
    requires Inv(c) && id in c.rows && c.rows[id].status == Resolving && !outcome.Unresolved?
    ensures var c' := StartResolved(c, id, outcome, control, now);
            Inv(c') && GidsKept(c, c')
  {
    var c', verdict := StartResolved(c, id, outcome, control, now), StartVerdict(id, outcome, control.Some?, now);
    var update := UpdateResolving(id, outcome.url, Text.Sanitize(outcome.file), outcome.size);
    if verdict.Go? {
      var updated := c.(rows := Apply(update, c.rows), controls := c'.controls);
      UpdateReplaces(c, updated, update, id);
      ReplaceKeepsInv(c, updated, id);
      FreshTaskKeepsInv(updated, c', id);
      GidsKeptBy(c, updated, c', id);
    } else {
      GivenBackReplaces(c, c', id, update, verdict.stmt);
      ReplaceKeepsInv(c, c', id);
    }
  }

  lemma GidsKeptBy(c: Core, updated: Core, c': Core, id: Id)
    requires Replaces(c, updated, id) && updated.rows[id].gid == c.rows[id].gid && GidsKept(updated, c')
    ensures GidsKept(c, c')
  {
  }

  lemma GivenBackReplaces(c: Core, c': Core, id: Id, update: Stmt, failure: Stmt)
    requires id in c.rows && c.rows[id].status == Resolving && RowSafe(c.engine, c.rows[id])
    requires update.UpdateResolving? && update.id == id && failure.MarkFailed? && failure.id == id
    requires c'.rows == Apply(failure, Apply(update, c.rows)) && SameCounters(c, c') && c'.engine == c.engine
    ensures Replaces(c, c', id)
  {
    UpdatesReplace(c, c', update, failure, id);
  }

  lemma FreshTaskKeepsInv(c: Core, c': Core, id: Id)
    requires Inv(c) && id in c.rows && c.rows[id].status == Resolving
    requires c' == c.(rows := Apply(MarkDownloading(id, c.nextGid), c.rows),
                      engine := c.engine[c.nextGid := Live], nextGid := c.nextGid + 1)
    ensures Inv(c') && GidsKept(c, c')
  {
    ApplyToOne(MarkDownloading(id, c.nextGid), c.rows);
    var before := c'.(engine := c.engine);
    OwnersKept(c, before);
    forall gid: Gid | IsLive(c'.engine, gid)
      ensures Owned(c', gid)
    {
      if gid == c.nextGid {
        assert c'.rows[id].gid == Some(gid);
      } else {
        assert IsLive(before.engine, gid) && Owned(before, gid);
      }
    }
  }

  lemma ClaimReplaces(c: Core, id: Id, now: Time)
    requires id in c.rows && c.rows[id].status == Queued && RowSafe(c.engine, c.rows[id])
    ensures Replaces(c, c.(rows := Apply(Claim(id, now), c.rows)), id)
    ensures Apply(Claim(id, now), c.rows)[id].status == Resolving
  {
    ApplyToOne(Claim(id, now), c.rows);
  }

  lemma StartKeepsInv(c: Core, outcome: StartOutcome, now: Time)
    requires Inv(c)
    ensures Inv(StartStep(c, outcome, now)) && GidsKept(c, StartStep(c, outcome, now))
  {
    if id :| IsLowestClaimable(c.rows, now, id) {
      var claimed := c.(rows := Apply(Claim(id, now), c.rows));
      ClaimReplaces(c, id, now);
      ReplaceKeepsInv(c, claimed, id);
      ResolveKeepsInv(claimed, id, outcome, now);
      StartStepOf(c, outcome, now, id);
    }
  }

  lemma CreateKeepsInv(c: Core, job: Row)
    requires Inv(c)
    ensures Inv(CreateStep(c, job)) && GidsKept(c, CreateStep(c, job))
  {
    var c' := CreateStep(c, job);
    if IsNewJob(job) {
      NewJobsAreSafe(c.engine, job);
      AddKeepsGids(c, c', job);
      OwnersKept(c, c');
    }
  }

  lemma NewJobsAreSafe(engine: map<Gid, TaskState>, job: Row)
    requires IsNewJob(job)
    ensures RowSafe(engine, job) && job.gid.None?
  {
  }

  lemma AddKeepsGids(c: Core, c': Core, job: Row)
    requires RowsSafe(c) && GidsDistinct(c) && job.gid.None? && RowSafe(c.engine, job)
    requires c' == c.(rows := c.rows[c.nextId := job], nextId := c.nextId + 1)
    ensures RowsSafe(c') && GidsDistinct(c') && GidsKept(c, c')
  {
  }

  // ---------------------------------------------------------------------
  // All runs

  lemma ServiceKeepsInv(cfg: Config, c: Core, step: Step)
    requires Inv(c) && (step.Retry? || step.RemoveJob? || step.Clear? || step.Pause? || step.Resume? || step.Create?)
    ensures Inv(Next(cfg, c, step)) && GidsKept(c, Next(cfg, c, step))
  {
    match step {
      case Create(job) => CreateKeepsInv(c, job);
      case Retry(id, reply, gone) => RetryKeepsInv(c, id, reply, gone);
      case RemoveJob(id, reply, gone, now) =>
        if id in c.rows {
          RemoveThenUpdate(c, RemoveStep(c, id, reply, gone, now), id, reply, gone, Remove(id, now));
        }
      case Clear(now) => ClearKeepsInv(c, now);
      case Pause(id, reply) => PauseKeepsInv(c, id, reply);
      case Resume(id, reply, gone) => ResumeKeepsInv(c, id, reply, gone);
    }
  }

  lemma PolledKeepsInv(c: Core, id: Id, report: Report, plan: Plan, now: Time)
    requires Inv(c) && IsPolled(c, id)
    ensures Inv(Polled(c, id, report, plan, now)) && GidsKept(c, Polled(c, id, report, plan, now))
  {
    PolledReplaces(c, id, report, plan, now);
    ReplaceKeepsInv(c, Polled(c, id, report, plan, now), id);
  }

  lemma DispatchedKeepsInv(c: Core, id: Id, plan: Plan, now: Time)
    requires Inv(c) && id in c.rows
    ensures Inv(Dispatched(c, id, plan, now)) && GidsKept(c, Dispatched(c, id, plan, now))
  {
    DispatchedReplaces(c, id, plan, now);
    ReplaceKeepsInv(c, Dispatched(c, id, plan, now), id);
  }

  lemma PollKeepsInv(cfg: Config, c: Core, id: Id, report: Report, env: Surroundings, now: Time)
    requires Inv(c)
    ensures Inv(PollStep(cfg, c, id, report, env, now)) && GidsKept(c, PollStep(cfg, c, id, report, env, now))
  {
    if IsPolled(c, id) && !report.unreachable {
      PolledKeepsInv(c, id, report, PlanFor(cfg, c.rows, id, report.path, env), now);
    }
  }

  lemma DispatchKeepsInv(cfg: Config, c: Core, id: Id, env: Surroundings, now: Time)
    requires Inv(c)
    ensures Inv(DispatchStep(cfg, c, id, env, now)) && GidsKept(c, DispatchStep(cfg, c, id, env, now))
  {
    if IsDispatched(cfg, c, id, env) {
      DispatchedKeepsInv(c, id, PlanFor(cfg, c.rows, id, "", env), now);
    }
  }

  lemma AutoRequeueKeepsInv(c: Core, id: Id, now: Time)
    requires Inv(c)
    ensures Inv(AutoRequeueStep(c, id, now)) && GidsKept(c, AutoRequeueStep(c, id, now))
  {
    if id in c.rows && Retryable(c.rows[id], now) {
      UpdateReplaces(c, AutoRequeueStep(c, id, now), Requeue(id), id);
      ReplaceKeepsInv(c, AutoRequeueStep(c, id, now), id);
    }
  }

  lemma RunnerKeepsInv(cfg: Config, c: Core, step: Step)
    requires Inv(c) && (step.Poll? || step.Dispatch? || step.AutoRequeue?)
    ensures Inv(Next(cfg, c, step)) && GidsKept(c, Next(cfg, c, step))
  {
    match step {
      case Poll(id, report, env, now) => PollKeepsInv(cfg, c, id, report, env, now);
      case Dispatch(id, env, now) => DispatchKeepsInv(cfg, c, id, env, now);
      case AutoRequeue(id, now) => AutoRequeueKeepsInv(c, id, now);
    }
  }

  lemma NextKeepsInv(cfg: Config, c: Core, step: Step)
    requires Inv(c)
    ensures Inv(Next(cfg, c, step)) && GidsKept(c, Next(cfg, c, step))
  {
    match step {
      case EngineMove(gid, to) => EngineKeepsInv(c, EngineStep(c, gid, to));
      case Poll(_, _, _, _) => RunnerKeepsInv(cfg, c, step);
      case Dispatch(_, _, _) => RunnerKeepsInv(cfg, c, step);
      case AutoRequeue(_, _) => RunnerKeepsInv(cfg, c, step);
      case Start(outcome, now) => StartKeepsInv(c, outcome, now);
      case EngineFile(_, _) => EngineKeepsInv(c, Next(cfg, c, step));
      case WorkerCancelled(id) => EngineKeepsInv(c, CancelStep(c, id));
      case WorkerPayload(id, failed) => EngineKeepsInv(c, PayloadStep(cfg, c, id, failed));
      case WorkerFinished(id, archiveFailed, now) => FinishKeepsInv(cfg, c, id, archiveFailed, now);
      case _ => ServiceKeepsInv(cfg, c, step);
    }
  }

  lemma {:induction false} ExecKeepsInv(cfg: Config, c: Core, steps: seq<Step>)
    requires Inv(c)
    ensures Inv(Exec(cfg, c, steps))
  {
    if steps != [] {
      ExecKeepsInv(cfg, c, steps[..|steps| - 1]);
      NextKeepsInv(cfg, Exec(cfg, c, steps[..|steps| - 1]), steps[|steps| - 1]);
    }
  }

  lemma RunKeepsInv(cfg: Config, steps: seq<Step>)
    ensures Inv(Exec(cfg, EMPTY, steps))
  {
    ExecKeepsInv(cfg, EMPTY, steps);
  }

  /** Exactly one job stores the identifier of a live task. */
  ghost predicate ExactlyOneOwner(c: Core, gid: Gid) {
    exists id :: id in c.rows && c.rows[id].gid == Some(gid)
              && forall other :: other in c.rows && c.rows[other].gid == Some(gid) ==> other == id
  }

  /**
   * In every run: each live task belongs to exactly one job, no failed job has a live task,
   * and every downloading job has a task.
   */
  lemma NoOrphanedDownloads(cfg: Config, steps: seq<Step>)
    ensures forall gid :: IsLive(Exec(cfg, EMPTY, steps).engine, gid) ==> ExactlyOneOwner(Exec(cfg, EMPTY, steps), gid)
    ensures forall id :: id in Exec(cfg, EMPTY, steps).rows ==> RowSafe(Exec(cfg, EMPTY, steps).engine, Exec(cfg, EMPTY, steps).rows[id])
  {
    RunKeepsInv(cfg, steps);
    var c := Exec(cfg, EMPTY, steps);
    forall gid | IsLive(c.engine, gid)
      ensures ExactlyOneOwner(c, gid)
    {
      assert Owned(c, gid);
    }
  }

  /** In every run a stored task is cleared before another one takes its place. */
  lemma TasksNeverOverwritten(cfg: Config, steps: seq<Step>, step: Step)
    ensures GidsKept(Exec(cfg, EMPTY, steps), Exec(cfg, EMPTY, steps + [step]))
  {
    RunKeepsInv(cfg, steps);
    ExecSnoc(cfg, EMPTY, steps, step);
    NextKeepsInv(cfg, Exec(cfg, EMPTY, steps), step);
  }

  /**
   * Serialisation is needed: a requeue issued on a stale read, with no removal of the task before
   * it, leaves the task of any running download without an owner.
   */
  lemma StaleRequeueOrphans(c: Core, id: Id)
    requires Inv(c) && id in c.rows && c.rows[id].gid.Some? && IsLive(c.engine, c.rows[id].gid.value)
    ensures !Owned(c.(rows := Apply(Requeue(id), c.rows)), c.rows[id].gid.value)
  {
    ApplyToOne(Requeue(id), c.rows);
  }
}
