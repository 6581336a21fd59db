/** Multi-volume archives: when extraction may start, and when a MEGA payload would be decrypted again. */
module Multipart {
  import opened Text
  import opened Jobs
  import opened Volumes
  import opened Planning
  import opened QueueSystem
  import opened Rows
  import opened Postprocess

  // ---------------------------------------------------------------------
  // Extraction starts only when no volume is on its way

  /**
   * Another visible job of the same archive has not been downloaded yet. A job belongs to an archive
   * by its output name: the one the user gave, or else the one the resolver found. A queued job
   * without a name of its own has none yet, so it is in no archive; see `QueuedSeenByUserName`.
   */
  ghost predicate VolumeOnItsWay(t: Table, id: Id, outDir: string, path: string) {
    && GroupKey(path).0 != ""
    && exists other :: other in t && other != id && t[other].deletedAt.None? && t[other].outDir == outDir
         && GroupKey(ArchivePath(t[other])).0 == GroupKey(path).0
         && (t[other].status == Queued || t[other].status == Resolving
             || t[other].status == Downloading || t[other].status == Paused)
  }

  lemma WaitMeansOnItsWay(t: Table, id: Id, outDir: string, path: string)
    ensures MustWait(t, id, outDir, path) <==> VolumeOnItsWay(t, id, outDir, path)
  {
    WaitReadOut(t, id, outDir, path);
  }

  /** A job is seen as a volume exactly if its output name gives it the same key. */
  lemma SeenByOutputName(t: Table, id: Id, outDir: string, path: string, other: Id)
    requires GroupKey(path).0 != "" && other in t
    ensures other in PendingSiblings(t, id, outDir, path) <==>
              && other != id && Visible(t[other]) && t[other].outDir == outDir
              && (t[other].status == Queued || t[other].status == Resolving
                  || t[other].status == Downloading || t[other].status == Paused)
              && OutputName(t[other]) != "" && GroupKey(Join(outDir, OutputName(t[other]))).0 == GroupKey(path).0
  {
    NoNameNoKey();
    assert RowKey(t[other]) == GroupKey(ArchivePath(t[other]));
  }

  lemma NoNameNoKey()
    ensures GroupKey("").0 == ""
  {
  }

  /**
   * In every run a queued job is seen as a volume only through the name the user gave it, since a
   * job in the queue has no resolved name. Without such a name the scan does not see it.
   */
  lemma QueuedSeenByUserName(cfg: Config, steps: seq<Step>, id: Id, outDir: string, path: string, other: Id)
    requires GroupKey(path).0 != "" && other in Exec(cfg, EMPTY, steps).rows
    requires Exec(cfg, EMPTY, steps).rows[other].status == Queued
    ensures var t := Exec(cfg, EMPTY, steps).rows;
            other in PendingSiblings(t, id, outDir, path) <==>
              && other != id && Visible(t[other]) && t[other].outDir == outDir
              && Sanitize(t[other].name) != "" && GroupKey(Join(outDir, Sanitize(t[other].name))).0 == GroupKey(path).0
  {
    RunRowsWellFormed(cfg, steps);
    SeenByOutputName(Exec(cfg, EMPTY, steps).rows, id, outDir, path, other);
  }

  lemma ProceedMeansComplete(cfg: Config, t: Table, id: Id, statusPath: string, env: Surroundings, task: Task)
    requires id in t && PlanFor(cfg, t, id, statusPath, env) == Proceed(task) && task.decryptArchive
    ensures !VolumeOnItsWay(t, id, t[id].outDir, task.archivePath)
  {
    WaitMeansOnItsWay(t, id, t[id].outDir, task.archivePath);
  }

  /** Whatever step schedules an archive task, no other volume known to belong to that archive is on its way. */
  lemma ArchiveTasksStartComplete(cfg: Config, c: Core, step: Step, id: Id)
    requires id !in c.tasks && id in Next(cfg, c, step).tasks && Next(cfg, c, step).tasks[id].decryptArchive
    ensures id in c.rows
    ensures var key := GroupKey(Next(cfg, c, step).tasks[id].archivePath).0;
            key != "" ==>
              forall other :: (other in c.rows && other != id && c.rows[other].deletedAt.None?
                               && c.rows[other].outDir == c.rows[id].outDir && GroupKey(ArchivePath(c.rows[other])).0 == key) ==>
                  c.rows[other].status != Queued && c.rows[other].status != Resolving
                  && c.rows[other].status != Downloading && c.rows[other].status != Paused
  {
    var task := Next(cfg, c, step).tasks[id];
    match step {
      case Poll(target, report, env, now) =>
        PolledTask(c, target, report, PlanFor(cfg, c.rows, target, report.path, env), now, id);
        ProceedMeansComplete(cfg, c.rows, id, report.path, env, task);
      case Dispatch(target, env, now) =>
        DispatchedTask(c, target, PlanFor(cfg, c.rows, target, "", env), now, id);
        ProceedMeansComplete(cfg, c.rows, id, "", env, task);
      case Start(outcome, now) => StartSchedulesNothing(c, outcome, now);
      case _ =>
    }
  }

  lemma StartSchedulesNothing(c: Core, outcome: StartOutcome, now: Time)
    ensures StartStep(c, outcome, now).tasks == c.tasks
  {
  }

  lemma PolledTask(c: Core, target: Id, report: Report, plan: Plan, now: Time, id: Id)
    requires IsPolled(c, target) && id !in c.tasks && id in Polled(c, target, report, plan, now).tasks
    ensures id == target && plan == Proceed(Polled(c, target, report, plan, now).tasks[id])
  {
  }

  lemma DispatchedTask(c: Core, target: Id, plan: Plan, now: Time, id: Id)
    requires target in c.rows && id !in c.tasks && id in Dispatched(c, target, plan, now).tasks
    ensures id == target && plan == Proceed(Dispatched(c, target, plan, now).tasks[id])
  {
  }

  // ---------------------------------------------------------------------
  // A dispatch pass leaves nobody behind

  /** Dispatching one job leaves the others alone and puts no volume back on its way. */
  ghost predicate OnlySettles(c: Core, c': Core, target: Id) {
    && c'.rows.Keys == c.rows.Keys && c.tasks.Keys <= c'.tasks.Keys
    && (forall x :: x in c.rows && x != target ==> c'.rows[x] == c.rows[x])
    && (target in c.rows && c'.rows[target] != c.rows[target] ==> !SiblingPending(c'.rows[target].status))
  }

  lemma DispatchedSettles(c: Core, id: Id, plan: Plan, now: Time)
    requires id in c.rows
    ensures OnlySettles(c, Dispatched(c, id, plan, now), id)
  {
    DispatchedTouchesOneRow(c, id, plan, now);
    DispatchedStatus(c, id, plan, now);
  }

  lemma DispatchedStatus(c: Core, id: Id, plan: Plan, now: Time)
    requires id in c.rows
    ensures var c' := Dispatched(c, id, plan, now);
            id in c'.rows && (c'.rows[id] == c.rows[id] || !SiblingPending(c'.rows[id].status))
  {
  }

  lemma DispatchSettles(cfg: Config, c: Core, id: Id, env: Surroundings, now: Time)
    ensures OnlySettles(c, DispatchStep(cfg, c, id, env, now), id)
  {
    if IsDispatched(cfg, c, id, env) {
      DispatchedSettles(c, id, PlanFor(cfg, c.rows, id, "", env), now);
    }
  }

  lemma SettlingAddsNoSiblings(c: Core, c': Core, target: Id, id: Id, outDir: string, path: string)
    requires OnlySettles(c, c', target)
    ensures PendingSiblings(c'.rows, id, outDir, path) <= PendingSiblings(c.rows, id, outDir, path)
  {
    forall other | other in PendingSiblings(c'.rows, id, outDir, path)
      ensures other in PendingSiblings(c.rows, id, outDir, path)
    {
      assert c'.rows[other] == c.rows[other];
    }
  }

  /** A decrypting job whose archive is complete; dispatching it gives it a task. */
  ghost predicate ReadyToExtract(t: Table, id: Id, env: Surroundings) {
    && id in t && Visible(t[id]) && t[id].status == Decrypting
    && !Blank(ArchivePath(t[id]))
    && var entry := EntryPath(ArchivePath(t[id]), env.fileExists);
       !Blank(entry) && IsArchiveFile(entry) && !MustWait(t, id, t[id].outDir, entry)
  }

  lemma ReadyIsScheduled(cfg: Config, c: Core, id: Id, env: Surroundings, now: Time)
    requires cfg.archive && ReadyToExtract(c.rows, id, env)
    ensures id in DispatchStep(cfg, c, id, env, now).tasks
  {
    ReadyProceeds(cfg, c.rows, id, env);
    ProceedSchedules(cfg, c, id, env, now);
  }

  lemma ReadyProceeds(cfg: Config, t: Table, id: Id, env: Surroundings)
    requires cfg.archive && ReadyToExtract(t, id, env)
    ensures PlanFor(cfg, t, id, "", env).Proceed?
  {
    var entry := EntryPath(ArchivePath(t[id]), env.fileExists);
    assert forall password :: ShouldDecryptArchive(cfg, t[id], entry, password, env.autoDecrypt);
  }

  lemma ProceedSchedules(cfg: Config, c: Core, id: Id, env: Surroundings, now: Time)
    requires cfg.mega || cfg.archive
    requires id in c.rows && Visible(c.rows[id]) && c.rows[id].status == Decrypting
    requires PlanFor(cfg, c.rows, id, "", env).Proceed?
    ensures id in DispatchStep(cfg, c, id, env, now).tasks
  {
    PlanSchedules(c, id, PlanFor(cfg, c.rows, id, "", env), now);
  }

  lemma PlanSchedules(c: Core, id: Id, plan: Plan, now: Time)
    requires id in c.rows && plan.Proceed?
    ensures id in Dispatched(c, id, plan, now).tasks
  {
  }

  lemma ReadyStaysReady(c: Core, c': Core, target: Id, id: Id, env: Surroundings)
    requires OnlySettles(c, c', target) && id != target && ReadyToExtract(c.rows, id, env)
    ensures ReadyToExtract(c'.rows, id, env)
  {
    SettlingAddsNoSiblings(c, c', target, id, c.rows[id].outDir, EntryPath(ArchivePath(c.rows[id]), env.fileExists));
  }

  /** What a pass owes to a job: a task, or its readiness for the rest of the pass. */
  ghost predicate Served(c: Core, id: Id, env: Surroundings, visited: bool) {
    if visited then id in c.tasks else ReadyToExtract(c.rows, id, env)
  }

  lemma DispatchServes(cfg: Config, c: Core, target: Id, id: Id, env: Surroundings, now: Time, visited: bool)
    requires cfg.archive && Served(c, id, env, visited)
    ensures Served(DispatchStep(cfg, c, target, env, now), id, env, visited || id == target)
  {
    DispatchSettles(cfg, c, target, env, now);
    if !visited {
      if id == target {
        ReadyIsScheduled(cfg, c, id, env, now);
      } else {
        ReadyStaysReady(c, DispatchStep(cfg, c, target, env, now), target, id, env);
      }
    }
  }

  /**
   * After a dispatch pass over all pending jobs, every decrypting archive none of whose volumes is
   * on its way has a task; volumes that are themselves decrypting do not hold each other up.
   */
  lemma {:induction false} DispatchPassSchedules(cfg: Config, c: Core, ids: seq<Id>, env: Surroundings, now: Time, id: Id)
    requires cfg.archive && ReadyToExtract(c.rows, id, env)
    ensures Served(Exec(cfg, c, DispatchPass(ids, env, now)), id, env, id in ids)
    decreases |ids|
  {
    if ids != [] {
      var n := |ids| - 1;
      PassPrefixes(ids);
      DispatchPassSchedules(cfg, c, ids[..n], env, now, id);
      DispatchPassSnoc(cfg, c, ids, n, env, now);
      DispatchServes(cfg, Exec(cfg, c, DispatchPass(ids[..n], env, now)), ids[n], id, env, now, id in ids[..n]);
    }
  }

  lemma PassPrefixes(ids: seq<Id>)
    requires ids != []
    ensures ids[..|ids| - 1 + 1] == ids && ids == ids[..|ids| - 1] + [ids[|ids| - 1]]
  {
  }

  /** In particular a pass over the complete list of pending jobs leaves no ready job behind. */
  lemma DispatchPassLeavesNobodyBehind(cfg: Config, c: Core, ids: seq<Id>, env: Surroundings, now: Time)
    requires cfg.archive
    requires forall id :: id in ids <==> id in c.rows && PendingPostprocess(c.rows[id])
    ensures forall id :: id in c.rows && ReadyToExtract(c.rows, id, env) ==>
              id in Exec(cfg, c, DispatchPass(ids, env, now)).tasks
  {
    forall id | id in c.rows && ReadyToExtract(c.rows, id, env)
      ensures id in Exec(cfg, c, DispatchPass(ids, env, now)).tasks
    {
      DispatchPassSchedules(cfg, c, ids, env, now, id);
    }
  }

  // ---------------------------------------------------------------------
  // What becomes of a job that failed and is retried

  /** Whether a retried job has its payload decrypted: not if it is an archive by name that failed with a code. */
  predicate DecryptsPayload(cfg: Config, row: Row) {
    cfg.mega && row.source.mega && !(IsArchiveFile(ArchivePath(row)) && CodeOf(row) != "")
  }

  /** Whether a retried job is extracted. */
  predicate Extracts(cfg: Config, row: Row, env: Surroundings) {
    && cfg.archive
    && (|| (row.archivePassword.Some? && !Blank(row.archivePassword.value))
        || IsArchiveFile(EntryPath(ArchivePath(row), env.fileExists)))
  }

  /** A file that would be needed has no known name. */
  predicate LacksName(cfg: Config, row: Row, env: Surroundings) {
    || (DecryptsPayload(cfg, row) && Blank(ArchivePath(row)))
    || (Extracts(cfg, row, env) && Blank(EntryPath(ArchivePath(row), env.fileExists)))
  }

  ghost predicate MustWaitFor(cfg: Config, t: Table, id: Id, env: Surroundings)
    requires id in t
  {
    Extracts(cfg, t[id], env) && MustWait(t, id, t[id].outDir, EntryPath(ArchivePath(t[id]), env.fileExists))
  }

  /** The plan for a job that is decrypting, case by case. */
  lemma PlanOfDecrypting(cfg: Config, t: Table, id: Id, env: Surroundings)
    requires id in t && t[id].status == Decrypting
    ensures var plan := PlanFor(cfg, t, id, "", env);
            var mega, extract := DecryptsPayload(cfg, t[id]), Extracts(cfg, t[id], env);
            && (plan.Skip? <==> !mega && !extract)
            && (plan.Reject? <==> LacksName(cfg, t[id], env))
            && (plan.Wait? <==> !LacksName(cfg, t[id], env) && MustWaitFor(cfg, t, id, env))
            && (plan.Proceed? ==> plan.task.decryptMega == mega && plan.task.decryptArchive == extract)
  {
  }

  /** What carrying out a plan makes of a decrypting job without a task. */
  lemma FateOfDecrypting(c: Core, id: Id, plan: Plan, now: Time)
    requires id in c.rows && c.rows[id].status == Decrypting && id !in c.tasks
    ensures var c' := Dispatched(c, id, plan, now);
            && id in c'.rows && TaskOf(c', id) == (if plan.Proceed? then Some(plan.task) else None)
            && c'.rows[id].status == (if plan.Skip? then Completed else if plan.Reject? then DecryptFailed else Decrypting)
  {
  }

  /** The retry of a failed decryption keeps everything that the next plan depends on. */
  lemma RetryKeepsRow(c: Core, id: Id, reply: Reply, gone: bool)
    requires id in c.rows && c.rows[id].status == DecryptFailed
    ensures var c', row := RetryStep(c, id, reply, gone), c.rows[id];
            && c'.tasks == c.tasks && OnlyTouches(c.rows, c'.rows, id)
            && c'.rows[id] == Effect(MarkDecryptingRetry(id, row.bytesDone), row)
  {
    ApplyToOne(MarkDecryptingRetry(id, c.rows[id].bytesDone), c.rows);
  }

  lemma SameWait(cfg: Config, t: Table, t': Table, id: Id, env: Surroundings)
    requires id in t && OnlyTouches(t, t', id)
    requires t'[id].outDir == t[id].outDir && ArchivePath(t'[id]) == ArchivePath(t[id])
    requires t'[id].archivePassword == t[id].archivePassword
    ensures MustWaitFor(cfg, t', id, env) == MustWaitFor(cfg, t, id, env)
  {
    var entry := EntryPath(ArchivePath(t[id]), env.fileExists);
    SameSiblings(t, t', id, t[id].outDir, GroupKey(entry).0, RowKey);
  }

  lemma SameSiblings(t: Table, t': Table, id: Id, outDir: string, key: string, keyOf: Row -> (string, bool))
    requires OnlyTouches(t, t', id)
    ensures Matching(t', id, outDir, key, keyOf) == Matching(t, id, outDir, key, keyOf)
  {
    assert forall x :: x in t && x != id ==> t'[x] == t[x];
  }

  /**
   * Retry, then dispatch: everything that can become of a visible job whose post-processing failed,
   * each with its exact condition on configuration, row and siblings before the retry. It gets a task
   * (with the payload decryption exactly if `DecryptsPayload`), is completed, fails again, or stays
   * decrypting without a task, because it waits for volumes or because no decryptor is configured.
   */
  lemma RetriedThenDispatched(cfg: Config, c: Core, id: Id, reply: Reply, gone: bool, env: Surroundings, now: Time)
    requires id in c.rows && Visible(c.rows[id]) && c.rows[id].status == DecryptFailed && id !in c.tasks
    ensures var c', row := DispatchStep(cfg, RetryStep(c, id, reply, gone), id, env, now), c.rows[id];
            var mega, extract := DecryptsPayload(cfg, row), Extracts(cfg, row, env);
            && id in c'.rows
            && (id in c'.tasks <==>
                  (mega || extract) && !LacksName(cfg, row, env) && !MustWaitFor(cfg, c.rows, id, env))
            && (id in c'.tasks ==> c'.tasks[id].decryptMega == mega && c'.tasks[id].decryptArchive == extract)
            && (c'.rows[id].status == Completed <==> (cfg.mega || cfg.archive) && !mega && !extract)
            && (c'.rows[id].status == DecryptFailed <==> LacksName(cfg, row, env))
            && (c'.rows[id].status == Completed || c'.rows[id].status == DecryptFailed || c'.rows[id].status == Decrypting)
  {
    var retried := RetryStep(c, id, reply, gone);
    RetryKeepsRow(c, id, reply, gone);
    SameJudgement(cfg, c.rows[id], retried.rows[id], env);
    SameWait(cfg, c.rows, retried.rows, id, env);
    DispatchOfDecrypting(cfg, retried, id, env, now);
  }

  lemma SameJudgement(cfg: Config, row: Row, row': Row, env: Surroundings)
    requires row' == Effect(MarkDecryptingRetry(0, row.bytesDone), row)
    ensures ArchivePath(row') == ArchivePath(row) && DecryptsPayload(cfg, row') == DecryptsPayload(cfg, row)
    ensures Extracts(cfg, row', env) == Extracts(cfg, row, env) && LacksName(cfg, row', env) == LacksName(cfg, row, env)
  {
  }

  lemma DispatchOfDecrypting(cfg: Config, c: Core, id: Id, env: Surroundings, now: Time)
    requires id in c.rows && Visible(c.rows[id]) && c.rows[id].status == Decrypting && id !in c.tasks
    ensures var c', row := DispatchStep(cfg, c, id, env, now), c.rows[id];
            var mega, extract := DecryptsPayload(cfg, row), Extracts(cfg, row, env);
            && id in c'.rows
            && (id in c'.tasks <==>
                  (mega || extract) && !LacksName(cfg, row, env) && !MustWaitFor(cfg, c.rows, id, env))
            && (id in c'.tasks ==> c'.tasks[id].decryptMega == mega && c'.tasks[id].decryptArchive == extract)
            && (c'.rows[id].status == Completed <==> (cfg.mega || cfg.archive) && !mega && !extract)
            && (c'.rows[id].status == DecryptFailed <==> LacksName(cfg, row, env))
            && (c'.rows[id].status == Completed || c'.rows[id].status == DecryptFailed || c'.rows[id].status == Decrypting)
  {
    if cfg.mega || cfg.archive {
      PlanOfDecrypting(cfg, c.rows, id, env);
      FateOfDecrypting(c, id, PlanFor(cfg, c.rows, id, "", env), now);
    }
  }

  /**
   * A failed payload decryption of an archive is not tried again: the retried job is extracted as it
   * is, waits for that, or is completed if there is nothing to extract with.
   */
  lemma FailedPayloadIsPassedOver(cfg: Config, c: Core, id: Id, reply: Reply, gone: bool, env: Surroundings, now: Time)
    requires cfg.mega && id in c.rows && Visible(c.rows[id]) && id !in c.tasks
    requires c.rows[id].status == DecryptFailed && CodeOf(c.rows[id]) != "" && IsArchiveFile(ArchivePath(c.rows[id]))
    ensures var c' := DispatchStep(cfg, RetryStep(c, id, reply, gone), id, env, now);
            && id in c'.rows && (id in c'.tasks ==> !c'.tasks[id].decryptMega)
            && (!cfg.archive ==> c'.rows[id].status == Completed && id !in c'.tasks)
  {
    RetriedThenDispatched(cfg, c, id, reply, gone, env, now);
  }

  /** The volumes `x.r00`, `x.r01`, ... are never archives by name, although their first volume is one. */
  lemma OldVolumesAreNotArchives(path: string)
    requires CleanPath(path) && IsOldVolume(Base(path))
    ensures !IsArchiveFile(path) && IsArchiveFile(FirstVolume(path))
  {
    CleanPathParts(path);
    OldVolumeSuffix(Base(path));
    FirstVolumeParts(path);
    RarNameParts(Stem(Base(path)));
    RarFilesAreArchives(Dir(path), FirstName(Base(path)).value);
  }

  /**
   * So an old-style volume whose extraction failed has its payload decrypted a second time when the
   * user retries it, whatever volume the extraction starts from.
   */
  lemma RetriedOldVolumeDecryptedAgain(cfg: Config, c: Core, id: Id, reply: Reply, gone: bool, env: Surroundings, now: Time)
    requires cfg.mega && id in c.rows && id !in c.tasks && Visible(c.rows[id])
    requires c.rows[id].status == DecryptFailed && c.rows[id].source.mega && CodeOf(c.rows[id]) != ""
    requires CleanPath(ArchivePath(c.rows[id])) && IsOldVolume(Base(ArchivePath(c.rows[id])))
    requires !MustWait(c.rows, id, c.rows[id].outDir, EntryPath(ArchivePath(c.rows[id]), env.fileExists))
    ensures var c' := DispatchStep(cfg, RetryStep(c, id, reply, gone), id, env, now);
            id in c'.tasks && c'.tasks[id].decryptMega
  {
    OldVolumesAreNotArchives(ArchivePath(c.rows[id]));
    EntryPathOfVolume(ArchivePath(c.rows[id]), env.fileExists);
    RetriedThenDispatched(cfg, c, id, reply, gone, env, now);
  }

  lemma EntryPathOfVolume(path: string, fileExists: string -> bool)
    requires CleanPath(path)
    ensures !Blank(path) && !Blank(EntryPath(path, fileExists))
  {
    CleanPathParts(path);
    FirstVolumeNotBlank(path);
  }

  lemma FirstVolumeNotBlank(path: string)
    requires CleanPath(path)
    ensures !Blank(FirstVolume(path))
  {
    FirstVolumeParts(path);
    if FirstName(Base(path)).Some? {
      JoinedNotBlank(Dir(path), FirstName(Base(path)).value);
    } else {
      CleanPathParts(path);
    }
  }

  lemma JoinedNotBlank(dir: string, name: string)
    requires IsDirectory(dir) && IsFileName(name)
    ensures !Blank(Join(dir, name))
  {
    JoinParts(dir, name);
  }

  lemma RarFilesAreArchives(dir: string, name: string)
    requires IsDirectory(dir) && IsFileName(name) && IsRar(name)
    ensures IsArchiveFile(Join(dir, name))
  {
    JoinParts(dir, name);
    assert HasSuffix(ToLower(name), ARCHIVE_SUFFIXES[2]);
  }

  lemma OldVolumeSuffix(base: string)
    requires IsOldVolume(base)
    ensures forall i :: 0 <= i < |ARCHIVE_SUFFIXES| ==> !HasSuffix(ToLower(base), ARCHIVE_SUFFIXES[i])
  {
    var lower := ToLower(base);
    assert IsDigit(base[|base| - 2..][0]) && IsDigit(base[|base| - 2..][1]);
    assert IsDigit(lower[|lower| - 2]) && IsDigit(lower[|lower| - 1]);
    forall i | 0 <= i < |ARCHIVE_SUFFIXES|
      ensures !HasSuffix(lower, ARCHIVE_SUFFIXES[i])
    {
      var suffix := ARCHIVE_SUFFIXES[i];
      assert !IsDigit(suffix[|suffix| - 2]) || !IsDigit(suffix[|suffix| - 1]);
      SuffixEnds(lower, suffix);
    }
  }

  lemma SuffixEnds(s: string, suffix: string)
    requires 2 <= |s| && 2 <= |suffix|
    ensures HasSuffix(s, suffix) ==> s[|s| - 2] == suffix[|suffix| - 2] && s[|s| - 1] == suffix[|suffix| - 1]
  {
    if HasSuffix(s, suffix) {
      var tail := s[|s| - |suffix|..];
      assert tail[|suffix| - 2] == s[|s| - 2] && tail[|suffix| - 1] == s[|s| - 1];
    }
  }
}
