/** When a download that is running is watched: its job is polled, or paused and can be resumed. */
module Watch {
  import opened Jobs
  import opened Planning
  import opened QueueSystem
  import opened Orphans

  predicate IsWatched(row: Row) {
    Visible(row) && (row.status == Downloading || row.status == Paused)
  }

  ghost predicate AllWatched(c: Core) {
    forall id :: IsLoading(c, id) ==> IsWatched(c.rows[id])
  }

  /** A decrypt run ends for a job whose download is running (again). */
  predicate EndsWhileLoading(cfg: Config, c: Core, step: Step) {
    step.WorkerFinished? && MayFinish(cfg, c, step.id) && IsLoading(c, step.id)
  }

  // ---------------------------------------------------------------------
  // Step by step

  /** One row changes, and it is watched if its download is running. */
  lemma OneRowChanges(c: Core, c': Core, id: Id)
    requires AllWatched(c) && OnlyTouches(c.rows, c'.rows, id) && NothingRevived(c, c')
    requires IsLoading(c', id) ==> IsWatched(c'.rows[id])
    ensures AllWatched(c')
  {
    forall x | IsLoading(c', x)
      ensures IsWatched(c'.rows[x])
    {
      assert x != id ==> IsLoading(c, x);
    }
  }

  lemma EngineChanges(c: Core, c': Core)
    requires AllWatched(c) && c'.rows == c.rows && NothingRevived(c, c')
    ensures AllWatched(c')
  {
    assert forall x :: IsLoading(c', x) ==> IsLoading(c, x);
  }

  /** The row takes a statement that stops neither its download nor its being watched, or has no download running. */
  lemma UpdateWatched(c: Core, c': Core, stmt: Stmt, id: Id)
    requires AllWatched(c) && id in c.rows && IsUpdateOf(stmt, id) && c'.rows == Apply(stmt, c.rows) && NothingRevived(c, c')
    requires !stmt.MarkDownloading?
    requires || !IsLoading(c', id) || stmt.MarkPaused? || stmt.MarkDownloadingStatus? || stmt.Requeue?
             || (stmt.UpdateProgress? && !stmt.finished)
    ensures AllWatched(c')
  {
    ApplyToOne(stmt, c.rows);
    assert IsLoading(c', id) ==> IsLoading(c, id);
    OneRowChanges(c, c', id);
  }

  lemma RetryWatched(c: Core, id: Id, reply: Reply, gone: bool)
    requires AllWatched(c)
    ensures AllWatched(RetryStep(c, id, reply, gone))
  {
    var c' := RetryStep(c, id, reply, gone);
    if id in c.rows {
      if c.rows[id].status == DecryptFailed {
        UpdateWatched(c, c', MarkDecryptingRetry(id, c.rows[id].bytesDone), id);
      } else {
        RemoveWatched(c, c', id, reply, gone, Requeue(id));
      }
    }
  }

  lemma RemoveWatched(c: Core, c': Core, id: Id, reply: Reply, gone: bool, stmt: Stmt)
    requires AllWatched(c) && id in c.rows
    requires stmt == Requeue(id) || (stmt.Remove? && stmt.id == id)
    requires c' == c.(engine := RemoveTask(c.engine, c.rows[id].gid, reply, gone).0,
                      rows := if RemoveTask(c.engine, c.rows[id].gid, reply, gone).1 then Apply(stmt, c.rows) else c.rows)
    ensures AllWatched(c')
  {
    RemovalContract(c.engine, c.rows[id].gid, reply, gone);
    if RemoveTask(c.engine, c.rows[id].gid, reply, gone).1 {
      ApplyToOne(stmt, c.rows);
      UpdateWatched(c, c', stmt, id);
    } else {
      EngineChanges(c, c');
    }
  }

  lemma PauseWatched(c: Core, id: Id, reply: Reply)
    requires AllWatched(c) && RowsSafe(c)
    ensures AllWatched(PauseStep(c, id, reply))
  {
    if MayPause(c, id, reply) {
      UpdateWatched(c, PauseStep(c, id, reply), MarkPaused(id), id);
    }
  }

  lemma ResumeWatched(c: Core, id: Id, reply: Reply, gone: bool)
    requires AllWatched(c)
    ensures AllWatched(ResumeStep(c, id, reply, gone))
  {
    var c' := ResumeStep(c, id, reply, gone);
    if id in c.rows && c.rows[id].source.webshare {
      RemoveWatched(c, c', id, reply, gone, Requeue(id));
    } else if c' != c {
      PlainResumeWatched(c, id, reply, gone);
    }
  }

  lemma PlainResumeWatched(c: Core, id: Id, reply: Reply, gone: bool)
    requires AllWatched(c) && id in c.rows && !c.rows[id].source.webshare && ResumeStep(c, id, reply, gone) != c
    ensures AllWatched(ResumeStep(c, id, reply, gone))
  {
    UpdateWatched(c, ResumeStep(c, id, reply, gone),
                  if c.rows[id].gid.None? || reply == NotFound then Requeue(id) else MarkDownloadingStatus(id), id);
  }

  lemma ClearWatched(c: Core, now: Time)
    requires AllWatched(c)
    ensures AllWatched(c.(rows := Apply(ClearCompleted(now), c.rows)))
  {
    var c' := c.(rows := Apply(ClearCompleted(now), c.rows));
    forall x | IsLoading(c', x)
      ensures IsWatched(c'.rows[x])
    {
      assert IsLoading(c, x);
    }
  }

  lemma PolledWatched(c: Core, id: Id, report: Report, plan: Plan, now: Time)
    requires AllWatched(c) && IsPolled(c, id) && RowSafe(c.engine, c.rows[id])
    ensures AllWatched(Polled(c, id, report, plan, now))
  {
    var c' := Polled(c, id, report, plan, now);
    if FindsComplete(c, id) {
      PolledReplaces(c, id, report, plan, now);
      OneRowChanges(c, c', id);
    } else {
      UpdateWatched(c, c', PollStmt(c, id, report, now), id);
    }
  }

  lemma DispatchedWatched(c: Core, id: Id, plan: Plan, now: Time)
    requires AllWatched(c) && id in c.rows && PendingPostprocess(c.rows[id])
    ensures AllWatched(Dispatched(c, id, plan, now))
  {
    assert !IsLoading(c, id);
    OneRowChanges(c, Dispatched(c, id, plan, now), id);
  }

  lemma PollWatched(cfg: Config, c: Core, id: Id, report: Report, env: Surroundings, now: Time)
    requires AllWatched(c) && RowsSafe(c)
    ensures AllWatched(PollStep(cfg, c, id, report, env, now))
  {
    if IsPolled(c, id) && !report.unreachable {
      PolledWatched(c, id, report, PlanFor(cfg, c.rows, id, report.path, env), now);
    }
  }

  lemma DispatchWatched(cfg: Config, c: Core, id: Id, env: Surroundings, now: Time)
    requires AllWatched(c)
    ensures AllWatched(DispatchStep(cfg, c, id, env, now))
  {
    if IsDispatched(cfg, c, id, env) {
      DispatchedWatched(c, id, PlanFor(cfg, c.rows, id, "", env), now);
    }
  }

  lemma AutoRequeueWatched(c: Core, id: Id, now: Time)
    requires AllWatched(c)
    ensures AllWatched(AutoRequeueStep(c, id, now))
  {
    if id in c.rows && Retryable(c.rows[id], now) {
      UpdateWatched(c, AutoRequeueStep(c, id, now), Requeue(id), id);
    }
  }

  lemma FinishWatched(cfg: Config, c: Core, id: Id, archiveFailed: bool, now: Time)
    requires AllWatched(c)
    ensures AllWatched(FinishStep(cfg, c, id, archiveFailed, now)) <==> !(MayFinish(cfg, c, id) && IsLoading(c, id))
  {
    var c' := FinishStep(cfg, c, id, archiveFailed, now);
    if id in c.rows && MayFinish(cfg, c, id) {
      ApplyUpdates(FirstClosing(cfg, id, c.tasks[id], archiveFailed, now), ClearArchivePassword(id), c.rows, id);
      if IsLoading(c, id) {
        assert IsLoading(c', id) && !IsWatched(c'.rows[id]);
      } else {
        OneRowChanges(c, c', id);
      }
    } else {
      FinishedRunOfNobodyHere(cfg, c, id, archiveFailed, now);
      EngineChanges(c, c');
    }
  }

  lemma FinishedRunOfNobodyHere(cfg: Config, c: Core, id: Id, archiveFailed: bool, now: Time)
    requires id !in c.rows || !MayFinish(cfg, c, id)
    ensures FinishStep(cfg, c, id, archiveFailed, now).rows == c.rows
  {
    if id !in c.rows {
      FinishedRunOfNobody(cfg, c, id, archiveFailed, now);
    }
  }

  /** A claimed job downloads in full view, or fails without a task; nobody else has its new identifier. */
  lemma ResolvedWatched(c: Core, id: Id, outcome: StartOutcome, now: Time)
    requires AllWatched(c) && GidsDistinct(c) && id in c.rows && c.rows[id].status == Resolving && Pristine(c.rows[id])
    ensures AllWatched(ResolveAndStart(c, id, outcome, now))
  {
    if outcome.Unresolved? {
      UpdateWatched(c, ResolveAndStart(c, id, outcome, now), ResolveFailure(id, outcome.why, now), id);
    } else {
      StartedWatched(c, id, outcome, ControlToRemove(c.rows, id, outcome), now);
    }
  }

  lemma StartedWatched(c: Core, id: Id, outcome: StartOutcome, control: Option<string>, now: Time)
    requires AllWatched(c) && GidsDistinct(c) && id in c.rows && c.rows[id].status == Resolving && Pristine(c.rows[id])
    requires !outcome.Unresolved?
    ensures AllWatched(StartResolved(c, id, outcome, control, now))
  {
    var c' := StartResolved(c, id, outcome, control, now);
    StartResolvedRows(c, id, outcome, control, now);
    forall x | IsLoading(c', x)
      ensures IsWatched(c'.rows[x])
    {
      assert x != id ==> c'.rows[x] == c.rows[x] && IsLoading(c, x);
    }
  }

  lemma StartWatched(c: Core, outcome: StartOutcome, now: Time)
    requires Inv(c) && AllWatched(c)
    ensures AllWatched(StartStep(c, outcome, now))
  {
    if id :| IsLowestClaimable(c.rows, now, id) {
      var claimed := c.(rows := Apply(Claim(id, now), c.rows));
      ClaimReplaces(c, id, now);
      ReplaceKeepsInv(c, claimed, id);
      OneRowChanges(c, claimed, id);
      ResolvedWatched(claimed, id, outcome, now);
      StartStepOf(c, outcome, now, id);
    }
  }

  lemma CreateWatched(c: Core, job: Row)
    requires AllWatched(c)
    ensures AllWatched(CreateStep(c, job))
  {
    var c' := CreateStep(c, job);
    forall x | IsLoading(c', x)
      ensures IsWatched(c'.rows[x])
    {
      assert IsLoading(c, x);
    }
  }

  lemma ServiceWatched(cfg: Config, c: Core, step: Step)
    requires step.Retry? || step.RemoveJob? || step.Clear? || step.Pause? || step.Resume? || step.Create?
    requires RowsSafe(c) && AllWatched(c)
    ensures AllWatched(Next(cfg, c, step))
  {
    match step {
      case Create(job) => CreateWatched(c, job);
      case Retry(id, reply, gone) => RetryWatched(c, id, reply, gone);
      case RemoveJob(id, reply, gone, now) =>
        if id in c.rows {
          RemoveWatched(c, RemoveStep(c, id, reply, gone, now), id, reply, gone, Remove(id, now));
        }
      case Clear(now) => ClearWatched(c, now);
      case Pause(id, reply) => PauseWatched(c, id, reply);
      case Resume(id, reply, gone) => ResumeWatched(c, id, reply, gone);
    }
  }

  lemma RunnerWatched(cfg: Config, c: Core, step: Step)
    requires step.Poll? || step.Dispatch? || step.AutoRequeue? || step.Start?
    requires Inv(c) && AllWatched(c)
    ensures AllWatched(Next(cfg, c, step))
  {
    match step {
      case Poll(id, report, env, now) => PollWatched(cfg, c, id, report, env, now);
      case Dispatch(id, env, now) => DispatchWatched(cfg, c, id, env, now);
      case AutoRequeue(id, now) => AutoRequeueWatched(c, id, now);
      case Start(outcome, now) => StartWatched(c, outcome, now);
    }
  }

  /** Every step keeps all running downloads watched, but for the end of a decrypt run of a job that is loading. */
  lemma StepWatched(cfg: Config, c: Core, step: Step)
    requires Inv(c) && AllWatched(c)
    ensures AllWatched(Next(cfg, c, step)) <==> !EndsWhileLoading(cfg, c, step)
  {
    match step {
      case EngineMove(gid, to) => EngineChanges(c, EngineStep(c, gid, to));
      case EngineFile(_, _) => EngineChanges(c, Next(cfg, c, step));
      case WorkerCancelled(id) => EngineChanges(c, CancelStep(c, id));
      case WorkerPayload(id, failed) => EngineChanges(c, PayloadStep(cfg, c, id, failed));
      case WorkerFinished(id, archiveFailed, now) => FinishWatched(cfg, c, id, archiveFailed, now);
      case Poll(_, _, _, _) => RunnerWatched(cfg, c, step);
      case Dispatch(_, _, _) => RunnerWatched(cfg, c, step);
      case AutoRequeue(_, _) => RunnerWatched(cfg, c, step);
      case Start(_, _) => RunnerWatched(cfg, c, step);
      case _ => ServiceWatched(cfg, c, step);
    }
  }

  // ---------------------------------------------------------------------
  // All runs

  ghost predicate WatchedAt(cfg: Config, steps: seq<Step>, k: nat)
    requires k <= |steps|
  {
    AllWatched(Exec(cfg, EMPTY, steps[..k]))
  }

  ghost predicate LosesSightAt(cfg: Config, steps: seq<Step>, k: nat)
    requires k < |steps|
  {
    EndsWhileLoading(cfg, Exec(cfg, EMPTY, steps[..k]), steps[k])
  }

  lemma WatchedNext(cfg: Config, steps: seq<Step>, k: nat)
    requires k < |steps| && WatchedAt(cfg, steps, k)
    ensures WatchedAt(cfg, steps, k + 1) <==> !LosesSightAt(cfg, steps, k)
  {
    RunKeepsInv(cfg, steps[..k]);
    assert steps[..k + 1] == steps[..k] + [steps[k]];
    ExecSnoc(cfg, EMPTY, steps[..k], steps[k]);
    StepWatched(cfg, Exec(cfg, EMPTY, steps[..k]), steps[k]);
  }

  lemma {:induction false} WatchedUpTo(cfg: Config, steps: seq<Step>, k: nat)
    requires k <= |steps| && forall i :: 0 <= i < |steps| ==> !LosesSightAt(cfg, steps, i)
    ensures WatchedAt(cfg, steps, k)
  {
    if k == 0 {
      assert steps[..0] == [];
    } else {
      WatchedUpTo(cfg, steps, k - 1);
      WatchedNext(cfg, steps, k - 1);
    }
  }

  /**
   * For every run: each running download is watched at every moment exactly if no decrypt run ends for
   * a job whose download is running.
   */
  lemma WatchedThroughoutIff(cfg: Config, steps: seq<Step>)
    ensures (forall k :: 0 <= k <= |steps| ==> WatchedAt(cfg, steps, k))
       <==> (forall k :: 0 <= k < |steps| ==> !LosesSightAt(cfg, steps, k))
  {
    if forall k :: 0 <= k < |steps| ==> !LosesSightAt(cfg, steps, k) {
      forall k: nat | 0 <= k <= |steps|
        ensures WatchedAt(cfg, steps, k)
      {
        WatchedUpTo(cfg, steps, k);
      }
    }
    if forall k :: 0 <= k <= |steps| ==> WatchedAt(cfg, steps, k) {
      forall k: nat | 0 <= k < |steps|
        ensures !LosesSightAt(cfg, steps, k)
      {
        WatchedNext(cfg, steps, k);
      }
    }
  }
}
