/** What the steps of the system do to the row of their job, column by column. */
module RowEffects {
  import opened Text
  import opened Jobs
  import opened Planning
  import opened QueueSystem

  // ---------------------------------------------------------------------
  // The runner polls

  /** A download that goes on shows its progress. */
  lemma PollShowsProgress(c: Core, id: Id, report: Report, plan: Plan, now: Time)
    requires IsPolled(c, id) && c.rows[id].gid.value in c.engine
    requires c.engine[c.rows[id].gid.value] != Complete && c.engine[c.rows[id].gid.value] != Errored
    ensures Polled(c, id, report, plan, now)
         == c.(rows := c.rows[id := c.rows[id].(
                 bytesDone := report.bytes, downloadSpeed := report.speed,
                 etaSeconds := Some(if report.speed > 0 && report.total > 0 && report.bytes < report.total
                                    then (report.total - report.bytes) / report.speed else 0))])
  {
    ApplyToOne(PollStmt(c, id, report, now), c.rows);
  }

  /** A download that failed, or is unknown to the engine, is recorded with the time of its next attempt. */
  lemma PollRecordsFailure(c: Core, id: Id, report: Report, plan: Plan, now: Time)
    requires IsPolled(c, id)
    requires c.rows[id].gid.value in c.engine ==> c.engine[c.rows[id].gid.value] == Errored
    ensures var row, known := c.rows[id], c.rows[id].gid.value in c.engine;
            Polled(c, id, report, plan, now)
              == c.(rows := c.rows[id := row.(
                      status := Failed, downloadSpeed := 0, etaSeconds := None, attempts := row.attempts + 1,
                      error := Some(if known && report.msg == "" then "download error" else report.msg),
                      errorCode := Some(if !known then "gid_not_found"
                                        else if report.quota then "quota_exceeded" else "download_error"),
                      nextRetryAt := Some(now + (if !known then 120 else if report.quota then 7200 else 600)))])
  {
    ApplyToOne(PollStmt(c, id, report, now), c.rows);
  }

  /** A finished download without anything to do is completed; its size stands in for a missing count of bytes. */
  lemma PollCompletes(c: Core, id: Id, report: Report, now: Time)
    requires FindsComplete(c, id)
    ensures var row := c.rows[id];
            var bytes := if report.bytes == 0 && report.total > 0 then report.total else report.bytes;
            Polled(c, id, report, Skip, now)
              == c.(rows := c.rows[id := row.(
                      status := Completed, downloadSpeed := 0, etaSeconds := None, error := None, errorCode := None,
                      bytesDone := if bytes == 0 && row.sizeBytes.Some? then row.sizeBytes.value else bytes,
                      completedAt := Some(now))])
  {
    var bytes := if report.bytes == 0 && report.total > 0 then report.total else report.bytes;
    ApplyUpdates(UpdateProgress(id, bytes, true, 0, 0), MarkCompleted(id, now), c.rows, id);
  }

  /** Otherwise it is decrypting, with a task unless it waits; a job with a task keeps that. */
  lemma PollHandsOver(c: Core, id: Id, report: Report, plan: Plan, now: Time)
    requires FindsComplete(c, id) && (plan.Wait? || plan.Proceed?)
    ensures var row := c.rows[id];
            var bytes := if report.bytes == 0 && report.total > 0 then report.total else report.bytes;
            Polled(c, id, report, plan, now)
              == c.(rows := c.rows[id := row.(
                      status := Decrypting, downloadSpeed := 0, etaSeconds := None, error := None, errorCode := None,
                      bytesDone := if bytes > 0 then bytes else row.bytesDone)],
                    tasks := if plan.Proceed? && id !in c.tasks then c.tasks[id := plan.task] else c.tasks)
  {
    var bytes := if report.bytes == 0 && report.total > 0 then report.total else report.bytes;
    ApplyToOne(MarkDecrypting(id, bytes), c.rows);
  }

  /** What is left of a row when post-processing fails: no password, the first time of completion, the error. */
  lemma GivenUp(t: Table, id: Id, msg: string, code: string, now: Time)
    requires id in t && !Blank(code)
    ensures GiveUp(t, id, msg, code, now)
         == t[id := t[id].(status := DecryptFailed, downloadSpeed := 0, etaSeconds := None, archivePassword := None,
                           error := Some(msg), errorCode := Some(code),
                           completedAt := if t[id].completedAt.Some? then t[id].completedAt else Some(now))]
  {
    ApplyUpdates(MarkPostprocessFailed(id, msg, code, now), ClearArchivePassword(id), t, id);
  }

  /** A blank code is replaced. */
  lemma CodeOfFailure(t: Table, id: Id, msg: string, code: string, now: Time)
    requires id in t
    ensures Apply(MarkPostprocessFailed(id, msg, code, now), t)[id].errorCode
         == Some(if Blank(code) then "archive_decrypt_failed" else code)
  {
  }

  lemma PollGivesUp(c: Core, id: Id, report: Report, msg: string, now: Time)
    requires FindsComplete(c, id)
    ensures Polled(c, id, report, Reject(msg), now) == c.(rows := GiveUp(c.rows, id, msg, "postprocess_failed", now))
  {
  }

  // ---------------------------------------------------------------------
  // Post-processing

  /** What carrying out a plan does to a pending job. */
  lemma DispatchEffect(c: Core, id: Id, plan: Plan, now: Time)
    requires id in c.rows && !plan.Reject?
    ensures var row := c.rows[id];
            var marked := row.(status := Decrypting, downloadSpeed := 0, etaSeconds := None, error := None, errorCode := None);
            Dispatched(c, id, plan, now)
              == c.(rows := c.rows[id := if !plan.Skip? then (if row.status == Decrypting then row else marked)
                                         else if row.status != Decrypting then row
                                         else row.(status := Completed, downloadSpeed := 0, etaSeconds := None,
                                                   error := None, errorCode := None, archivePassword := None,
                                                   bytesDone := if row.bytesDone == 0 && row.sizeBytes.Some?
                                                                then row.sizeBytes.value else row.bytesDone,
                                                   completedAt := Some(now))],
                    tasks := if plan.Proceed? && id !in c.tasks then c.tasks[id := plan.task] else c.tasks)
  {
  }

  lemma DispatchGivesUp(c: Core, id: Id, msg: string, now: Time)
    requires id in c.rows
    ensures Dispatched(c, id, Reject(msg), now) == c.(rows := GiveUp(c.rows, id, msg, "postprocess_failed", now))
  {
    ApplyUpdates(MarkPostprocessFailed(id, msg, "postprocess_failed", now), ClearArchivePassword(id), c.rows, id);
  }

  /** The end of a decrypt run: failed on the payload, failed on the archive, or completed. */
  lemma RunEndEffect(cfg: Config, c: Core, id: Id, archiveFailed: bool, now: Time)
    requires id in c.rows && MayFinish(cfg, c, id)
    ensures var row, task := c.rows[id], c.tasks[id];
            FinishStep(cfg, c, id, archiveFailed, now)
              == c.(tasks := c.tasks - {id},
                    rows := if task.decryptMega && cfg.mega && task.payload == Broken
                            then GiveUp(c.rows, id, "mega decrypt failed", "mega_decrypt_failed", now)
                            else if task.decryptArchive && cfg.archive && archiveFailed
                            then GiveUp(c.rows, id, "archive decrypt failed", "archive_decrypt_failed", now)
                            else c.rows[id := row.(status := Completed, downloadSpeed := 0, etaSeconds := None,
                                                   error := None, errorCode := None, archivePassword := None,
                                                   bytesDone := if row.bytesDone == 0 && row.sizeBytes.Some?
                                                                then row.sizeBytes.value else row.bytesDone,
                                                   completedAt := Some(now))])
  {
    ApplyUpdates(FirstClosing(cfg, id, c.tasks[id], archiveFailed, now), ClearArchivePassword(id), c.rows, id);
  }

  // ---------------------------------------------------------------------
  // Starts

  /** A claimed job whose start fails has failed once more; `delay` is the time to the next attempt. */
  ghost predicate FailsAfter(row: Row, row': Row, now: Time, delay: int, code: string) {
    && row'.status == Failed && row'.attempts == row.attempts + 1 && row'.nextRetryAt == Some(now + delay)
    && row'.errorCode == Some(code) && row'.error.Some? && row'.downloadSpeed == 0 && row'.etaSeconds.None?
    && row'.maxAttempts == row.maxAttempts && row'.deletedAt == row.deletedAt && row'.gid == row.gid
    && row'.archivePassword == row.archivePassword && row'.startedAt == Some(now)
  }

  lemma UnresolvedEffect(c: Core, id: Id, outcome: StartOutcome, now: Time)
    requires IsLowestClaimable(c.rows, now, id) && outcome.Unresolved?
    ensures var c', why := StartStep(c, outcome, now), outcome.why;
            && OnlyTouches(c.rows, c'.rows, id) && c'.engine == c.engine
            && FailsAfter(c.rows[id], c'.rows[id], now,
                          if why.LoginRequired? || why.UnknownSite? then 21600
                          else if why.QuotaExceeded? then 7200
                          else if why.CaptchaNeeded? then 86400 else 1800,
                          if why.LoginRequired? then "login_required" else if why.QuotaExceeded? then "quota_exceeded"
                          else if why.CaptchaNeeded? then "captcha_needed" else if why.TemporarilyOff? then "temporarily_unavailable"
                          else if why.UnknownSite? then "unknown_site" else "resolve_failed")
  {
    var claimed := Apply(Claim(id, now), c.rows);
    ApplyToOne(Claim(id, now), c.rows);
    StartStepOf(c, outcome, now, id);
    ApplyToOne(ResolveFailure(id, outcome.why, now), claimed);
  }

  /** Why a resolved job is not started, if it is not: the wrong engine, its control file, or a refusal of the engine. */
  function StartTrouble(outcome: StartOutcome, removes: bool): (string, int)
    requires !outcome.Unresolved?
  {
    if outcome.WrongEngine? then ("unsupported_engine", 1800)
    else if removes && outcome.removeError.Some? then ("prepare_output_failed", 600)
    else if outcome.refusal.Some? then ("download_start_failed", 600)
    else ("", 0)
  }

  lemma TroubleEffect(c: Core, id: Id, outcome: StartOutcome, control: Option<string>, now: Time)
    requires id in c.rows && c.rows[id].startedAt == Some(now) && !outcome.Unresolved?
    requires StartTrouble(outcome, control.Some?).0 != ""
    ensures var c', trouble := StartResolved(c, id, outcome, control, now), StartTrouble(outcome, control.Some?);
            && OnlyTouches(c.rows, c'.rows, id) && c'.engine == c.engine
            && FailsAfter(c.rows[id], c'.rows[id], now, trouble.1, trouble.0)
  {
    StartResolvedRows(c, id, outcome, control, now);
  }

  lemma NotStartedEffect(c: Core, id: Id, outcome: StartOutcome, now: Time)
    requires IsLowestClaimable(c.rows, now, id) && !outcome.Unresolved?
    requires StartTrouble(outcome, ControlToRemove(c.rows, id, outcome).Some?).0 != ""
    ensures var c', trouble := StartStep(c, outcome, now), StartTrouble(outcome, ControlToRemove(c.rows, id, outcome).Some?);
            && OnlyTouches(c.rows, c'.rows, id) && c'.engine == c.engine
            && FailsAfter(c.rows[id], c'.rows[id], now, trouble.1, trouble.0)
  {
    var claimed := c.(rows := Apply(Claim(id, now), c.rows));
    ApplyToOne(Claim(id, now), c.rows);
    StartStepOf(c, outcome, now, id);
    ControlAfterUpdate(c.rows, claimed.rows, id, outcome);
    TroubleEffect(claimed, id, outcome, ControlToRemove(c.rows, id, outcome), now);
  }

  /** A started job is downloading under a new task, with what the resolver found. */
  lemma StartEffect(c: Core, id: Id, outcome: StartOutcome, now: Time)
    requires IsLowestClaimable(c.rows, now, id) && !outcome.Unresolved?
    requires StartTrouble(outcome, ControlToRemove(c.rows, id, outcome).Some?).0 == ""
    ensures var c' := StartStep(c, outcome, now);
            && c'.rows == c.rows[id := c.rows[id].(
                            status := Downloading, startedAt := Some(now), resolvedUrl := Some(outcome.url),
                            filename := Some(Sanitize(outcome.file)), sizeBytes := Some(outcome.size), gid := Some(c.nextGid))]
            && c'.engine == c.engine[c.nextGid := Live] && c'.nextGid == c.nextGid + 1 && c'.tasks == c.tasks
  {
    var claimed := c.(rows := Apply(Claim(id, now), c.rows));
    ApplyToOne(Claim(id, now), c.rows);
    StartStepOf(c, outcome, now, id);
    ControlAfterUpdate(c.rows, claimed.rows, id, outcome);
    StartedEffect(claimed, id, outcome, ControlToRemove(c.rows, id, outcome), now);
  }

  lemma StartedEffect(c: Core, id: Id, outcome: StartOutcome, control: Option<string>, now: Time)
    requires id in c.rows && !outcome.Unresolved? && StartTrouble(outcome, control.Some?).0 == ""
    ensures var c' := StartResolved(c, id, outcome, control, now);
            && c'.rows == c.rows[id := c.rows[id].(
                            status := Downloading, resolvedUrl := Some(outcome.url),
                            filename := Some(Sanitize(outcome.file)), sizeBytes := Some(outcome.size), gid := Some(c.nextGid))]
            && c'.engine == c.engine[c.nextGid := Live] && c'.nextGid == c.nextGid + 1 && c'.tasks == c.tasks
  {
    StartResolvedRows(c, id, outcome, control, now);
  }

  // ---------------------------------------------------------------------
  // Service calls

  /** A row that goes back to the queue: as new, but for its attempts. */
  function AsNew(row: Row): Row {
    Row(row.source, row.outDir, row.name, row.archivePassword, None, None, None, 0, 0, None, Queued, None, None, None,
        row.attempts, row.maxAttempts, None, None, None, None)
  }

  /** A failed decryption is sent back; any other job is queued again once its task is gone. */
  lemma RetryEffect(c: Core, id: Id, reply: Reply, gone: bool)
    requires id in c.rows
    ensures var row, c' := c.rows[id], RetryStep(c, id, reply, gone);
            var removed := row.gid.None? || reply == Accepted || (reply == NotFound && !IsLive(c.engine, row.gid.value));
            && (row.status == DecryptFailed ==>
                  c' == c.(rows := c.rows[id := row.(status := Decrypting, downloadSpeed := 0, etaSeconds := None)]))
            && (row.status != DecryptFailed ==> c'.rows == if removed then c.rows[id := AsNew(row)] else c.rows)
  {
    ApplyToOne(MarkDecryptingRetry(id, c.rows[id].bytesDone), c.rows);
    ApplyToOne(Requeue(id), c.rows);
  }

  lemma RemoveEffect(c: Core, id: Id, reply: Reply, gone: bool, now: Time)
    requires id in c.rows
    ensures var row, c' := c.rows[id], RemoveStep(c, id, reply, gone, now);
            var removed := row.gid.None? || reply == Accepted || (reply == NotFound && !IsLive(c.engine, row.gid.value));
            c'.rows == if removed then c.rows[id := row.(status := Deleted, deletedAt := Some(now))] else c.rows
  {
    ApplyToOne(Remove(id, now), c.rows);
  }

  /** A job that has not started pauses at once, any other if its task is live and the engine accepts. */
  lemma PauseEffect(c: Core, id: Id, reply: Reply)
    requires id in c.rows
    ensures var row := c.rows[id];
            PauseStep(c, id, reply)
              == if row.status == Queued || row.status == Resolving
                    || (row.gid.Some? && reply == Accepted && IsLive(c.engine, row.gid.value))
                 then c.(rows := c.rows[id := row.(status := Paused)]) else c
  {
    ApplyToOne(MarkPaused(id), c.rows);
  }

  /** A job with a live task goes on; one without is queued again, and so is every Webshare job once its task is gone. */
  lemma ResumeEffect(c: Core, id: Id, reply: Reply, gone: bool)
    requires id in c.rows
    ensures var row, c' := c.rows[id], ResumeStep(c, id, reply, gone);
            var live := row.gid.Some? && IsLive(c.engine, row.gid.value);
            c'.rows == if row.gid.None? || (reply == NotFound && !live) || (reply == Accepted && row.source.webshare)
                       then c.rows[id := AsNew(row)]
                       else if reply == Accepted && live then c.rows[id := row.(status := Downloading)] else c.rows
  {
    ApplyToOne(Requeue(id), c.rows);
    ApplyToOne(MarkDownloadingStatus(id), c.rows);
  }

  lemma ClearEffect(t: Table, now: Time, id: Id)
    requires id in t
    ensures Apply(ClearCompleted(now), t)[id]
         == if t[id].status == Completed then t[id].(status := Deleted, deletedAt := Some(now)) else t[id]
  {
  }

  // ---------------------------------------------------------------------
  // Automatic retries

  /** A visible job with a recorded failure is queued again exactly when its time has come, if it has attempts left. */
  lemma FailureRetriedIff(c: Core, id: Id, code: string, msg: string, at: Option<Time>, now: Time)
    requires id in c.rows && c.rows[id].deletedAt.None?
    ensures var row := c.rows[id];
            var failed := c.(rows := Apply(MarkFailed(id, code, msg, at), c.rows));
            var c' := AutoRequeueStep(failed, id, now);
            && id in c'.rows
            && (c'.rows[id].status == Queued <==> at.Some? && at.value <= now && row.attempts + 1 < row.maxAttempts)
            && (c'.rows[id].status == Queued ==> c'.rows[id] == AsNew(row).(attempts := row.attempts + 1))
  {
    ApplyToOne(MarkFailed(id, code, msg, at), c.rows);
    ApplyToOne(Requeue(id), Apply(MarkFailed(id, code, msg, at), c.rows));
  }

  /** The runner never queues a job again that has not failed, is deleted, or has used up its attempts. */
  lemma RequeuedIff(c: Core, id: Id, now: Time)
    requires id in c.rows
    ensures var row := c.rows[id];
            AutoRequeueStep(c, id, now).rows
              == if row.status == Failed && row.deletedAt.None? && row.nextRetryAt.Some? && row.nextRetryAt.value <= now
                    && row.attempts < row.maxAttempts
                 then c.rows[id := AsNew(row)] else c.rows
  {
    ApplyToOne(Requeue(id), c.rows);
  }

  /** From the poll that finds the failure: two minutes, ten minutes, or two hours for an exceeded quota. */
  lemma PollFailureRetriedIff(c: Core, id: Id, report: Report, plan: Plan, now: Time, later: Time)
    requires id in c.rows && c.rows[id].status == Downloading && c.rows[id].deletedAt.None? && c.rows[id].gid.Some?
    requires c.rows[id].gid.value in c.engine ==> c.engine[c.rows[id].gid.value] == Errored
    ensures var row := c.rows[id];
            var delay := if row.gid.value !in c.engine then 120 else if report.quota then 7200 else 600;
            var c' := AutoRequeueStep(Polled(c, id, report, plan, now), id, later);
            id in c'.rows && (c'.rows[id].status == Queued <==> now + delay <= later && row.attempts + 1 < row.maxAttempts)
  {
    PollRecordsFailure(c, id, report, plan, now);
    RequeuedIff(Polled(c, id, report, plan, now), id, later);
  }

  /** From the start that fails to resolve the job: half an hour to a day. */
  lemma UnresolvedRetriedIff(c: Core, id: Id, outcome: StartOutcome, now: Time, later: Time)
    requires IsLowestClaimable(c.rows, now, id) && outcome.Unresolved?
    ensures var row, why := c.rows[id], outcome.why;
            var delay := if why.LoginRequired? || why.UnknownSite? then 21600 else if why.QuotaExceeded? then 7200
                         else if why.CaptchaNeeded? then 86400 else 1800;
            var c' := AutoRequeueStep(StartStep(c, outcome, now), id, later);
            id in c'.rows && (c'.rows[id].status == Queued <==> now + delay <= later && row.attempts + 1 < row.maxAttempts)
  {
    UnresolvedEffect(c, id, outcome, now);
    RequeuedIff(StartStep(c, outcome, now), id, later);
  }

  /** From the start that fails after that: half an hour on the wrong engine, else ten minutes. */
  lemma NotStartedRetriedIff(c: Core, id: Id, outcome: StartOutcome, now: Time, later: Time)
    requires IsLowestClaimable(c.rows, now, id) && !outcome.Unresolved?
    requires outcome.WrongEngine? || outcome.refusal.Some?
             || (outcome.removeError.Some? && ControlToRemove(c.rows, id, outcome).Some?)
    ensures var row := c.rows[id];
            var delay := if outcome.WrongEngine? then 1800 else 600;
            var c' := AutoRequeueStep(StartStep(c, outcome, now), id, later);
            id in c'.rows && (c'.rows[id].status == Queued <==> now + delay <= later && row.attempts + 1 < row.maxAttempts)
  {
    NotStartedEffect(c, id, outcome, now);
    RequeuedIff(StartStep(c, outcome, now), id, later);
  }
}
