/** The polling runner: passes over snapshots of the table, and the start loop. */
module RunnerModule {
  import opened Text
  import opened Jobs
  import opened Planning
  import opened QueueSystem
  import opened StoreModule
  import opened ServiceModule
  import Multipart

  // ---------------------------------------------------------------------
  // Snapshots stay accurate: a step about one job leaves the other rows alone

  lemma PollTouches(cfg: Config, c: Core, id: Id, report: Report, env: Surroundings, now: Time)
    ensures OnlyTouches(c.rows, PollStep(cfg, c, id, report, env, now).rows, id)
  {
    if IsPolled(c, id) && !report.unreachable {
      PolledTouchesOneRow(c, id, report, PlanFor(cfg, c.rows, id, report.path, env), now);
    }
  }

  lemma DispatchTouches(cfg: Config, c: Core, id: Id, env: Surroundings, now: Time)
    ensures OnlyTouches(c.rows, DispatchStep(cfg, c, id, env, now).rows, id)
  {
    if IsDispatched(cfg, c, id, env) {
      DispatchedTouchesOneRow(c, id, PlanFor(cfg, c.rows, id, "", env), now);
    }
  }

  ghost function PendingIds(t: Table): set<Id> {
    set id | id in t && PendingPostprocess(t[id])
  }

  /** The pending jobs that a pass lists. */
  ghost predicate ListsPending(t: Table, ids: seq<Id>) {
    exists all :: IsListing(t, PendingPostprocess, ById, all) && ids == if 100 < |all| then all[..100] else all
  }

  lemma AllPendingListed(t: Table, ids: seq<Id>)
    requires ListsPending(t, ids) && |PendingIds(t)| <= 100
    ensures forall id :: id in ids <==> id in t && PendingPostprocess(t[id])
  {
    var all :| IsListing(t, PendingPostprocess, ById, all) && ids == if 100 < |all| then all[..100] else all;
    ListingSize(all, PendingIds(t));
  }

  /** With at most a hundred pending jobs a pass misses none, so no ready archive is left behind. */
  lemma PassServesAll(cfg: Config, c: Core, ids: seq<Id>, env: Surroundings, now: Time)
    requires cfg.archive && ListsPending(c.rows, ids) && |PendingIds(c.rows)| <= 100
    ensures forall id :: id in c.rows && Multipart.ReadyToExtract(c.rows, id, env) ==>
              id in Exec(cfg, c, DispatchPass(ids, env, now)).tasks
  {
    AllPendingListed(c.rows, ids);
    Multipart.DispatchPassLeavesNobodyBehind(cfg, c, ids, env, now);
  }

  class Runner {
    const cfg: Config
    const store: Store
    const engine: Engine
    var decryptPending: map<Id, Task>
    /** The control files that the engine keeps beside unfinished downloads. */
    var controlFiles: set<string>

    constructor (cfg: Config, store: Store, engine: Engine)
      ensures this.cfg == cfg && this.store == store && this.engine == engine
      ensures decryptPending == map[] && controlFiles == {}
    {
      this.cfg := cfg;
      this.store := store;
      this.engine := engine;
      decryptPending := map[];
      controlFiles := {};
    }

    ghost function View(): Core
      reads this, store, engine
    {
      CoreOf(store, engine, Background(decryptPending, controlFiles))
    }

    // -------------------------------------------------------------------
    // Decisions

    method BuildDecryptTask(id: Id, statusPath: string, env: Surroundings) returns (plan: Plan)
      requires id in store.rows
      ensures plan == PlanFor(cfg, store.rows, id, statusPath, env)
    {
      var row := store.rows[id];
      var password := if row.archivePassword.Some? then Trimmed(row.archivePassword.value) else "";
      var download := statusPath;
      if download == "" {
        download := ArchivePath(row);
      }
      var entry := EntryPath(download, env.fileExists);
      var task := Task(download, entry, password, ShouldDecryptMega(cfg, row, download),
                       ShouldDecryptArchive(cfg, row, entry, password, env.autoDecrypt), Untouched);
      if !task.decryptMega && !task.decryptArchive {
        return Skip;
      }
      if task.decryptMega && Blank(download) {
        return Reject("postprocess failed: missing file path for mega decrypt");
      }
      if task.decryptArchive && Blank(entry) {
        return Reject("postprocess failed: missing file path for archive decrypt");
      }
      if task.decryptArchive {
        var parts := WaitingParts(id, row.outDir, entry);
        if parts > 0 {
          return Wait(task);
        }
      }
      return Proceed(task);
    }

    method WaitingParts(id: Id, outDir: string, path: string) returns (parts: nat)
      ensures parts > 0 <==> MustWait(store.rows, id, outDir, path)
    {
      var ids := store.List(Visible, ByIdDescending);
      parts := ArchiveDecryptWait(store.rows, ids, id, outDir, path);
    }

    method ScheduleDecrypt(id: Id, task: Task)
      modifies `decryptPending
      ensures decryptPending == Scheduled(old(decryptPending), id, task)
    {
      if id !in decryptPending {
        decryptPending := decryptPending[id := task];
      }
    }

    // -------------------------------------------------------------------
    // Downloads in progress

    /** Handing a finished download to post-processing, if there is any. */
    method QueueDecryptFromStatus(id: Id, plan: Plan, report: Report, bytes: int, now: Time) returns (queued: bool)
      requires bytes == if report.bytes == 0 && report.total > 0 then report.total else report.bytes
      modifies store`rows, `decryptPending
      ensures queued == !plan.Skip?
      ensures queued ==> View() == DownloadFinished(old(View()), id, report, plan, now)
      ensures !queued ==> View() == old(View())
    {
      match plan {
        case Skip => return false;
        case Reject(msg) =>
          store.MarkPostprocessFailed(id, msg, "postprocess_failed", now);
          store.ClearArchivePassword(id);
        case Wait(_) => store.MarkDecrypting(id, bytes);
        case Proceed(task) =>
          store.MarkDecrypting(id, bytes);
          ScheduleDecrypt(id, task);
      }
      return true;
    }

    method FinishDownload(id: Id, plan: Plan, report: Report, now: Time)
      modifies store`rows, `decryptPending
      ensures View() == DownloadFinished(old(View()), id, report, plan, now)
    {
      var bytes := report.bytes;
      if bytes == 0 && report.total > 0 {
        bytes := report.total;
      }
      var queued := QueueDecryptFromStatus(id, plan, report, bytes, now);
      if !queued {
        store.UpdateProgress(id, bytes, true, 0, 0);
        store.MarkCompleted(id, now);
      }
    }

    /** One downloading job of the snapshot. */
    method PollRow(id: Id, job: Row, report: Report, env: Surroundings, now: Time)
      requires id in store.rows && store.rows[id] == job && CountsAsDownloading(job)
      modifies store`rows, `decryptPending
      ensures View() == PollStep(cfg, old(View()), id, report, env, now)
    {
      if job.gid.None? || report.unreachable {
        return;
      }
      var gid := job.gid.value;
      if gid !in engine.tasks {
        store.MarkFailed(id, "gid_not_found", report.msg, Some(now + 120));
        return;
      }
      match engine.tasks[gid] {
        case Complete =>
          var plan := BuildDecryptTask(id, report.path, env);
          FinishDownload(id, plan, report, now);
        case Errored =>
          var msg := if report.msg == "" then "download error" else report.msg;
          if report.quota {
            store.MarkFailed(id, "quota_exceeded", msg, Some(now + 7200));
          } else {
            store.MarkFailed(id, "download_error", msg, Some(now + 600));
          }
        case _ =>
          store.UpdateProgress(id, report.bytes, false, report.speed, EtaOf(report));
      }
    }

    /** The pass over a snapshot does what polling each job afresh would do. */
    method UpdateActive(reports: Id -> Report, env: Surroundings, now: Time) returns (ids: seq<Id>)
      modifies store`rows, `decryptPending
      ensures IsListing(old(store.rows), CountsAsDownloading, ByIdDescending, ids)
      ensures forall id :: id in ids <==>
                id in old(store.rows) && old(store.rows)[id].status == Downloading && old(store.rows)[id].deletedAt.None?
      ensures View() == Exec(cfg, old(View()), PollPass(ids, reports, env, now))
    {
      ids := store.List(CountsAsDownloading, ByIdDescending);
      var snapshot := store.rows;
      ghost var start := View();
      for i := 0 to |ids|
        invariant View() == Exec(cfg, start, PollPass(ids[..i], reports, env, now))
        invariant store.rows.Keys == snapshot.Keys
        invariant forall j :: i <= j < |ids| ==> store.rows[ids[j]] == snapshot[ids[j]]
      {
        ghost var before := View();
        PollRow(ids[i], snapshot[ids[i]], reports(ids[i]), env, now);
        PollPassSnoc(cfg, start, ids, i, reports, env, now);
        PollTouches(cfg, before, ids[i], reports(ids[i]), env, now);
      }
      assert ids[..|ids|] == ids;
    }

    // -------------------------------------------------------------------
    // Post-processing

    /** Carrying out a plan for a pending job. */
    method CarryOut(id: Id, job: Row, plan: Plan, now: Time)
      requires id in store.rows && store.rows[id] == job
      modifies store`rows, `decryptPending
      ensures View() == Dispatched(old(View()), id, plan, now)
    {
      ApplyUpdates(MarkCompleted(id, now), Stmt.ClearArchivePassword(id), store.rows, id);
      ApplyToOne(MarkDecrypting(id, job.bytesDone), store.rows);
      match plan {
        case Skip =>
          if job.status == Decrypting {
            store.MarkCompleted(id, now);
            store.ClearArchivePassword(id);
          }
        case Reject(msg) =>
          var failure := MarkPostprocessFailed(id, msg, "postprocess_failed", now);
          ApplyUpdates(failure, Stmt.ClearArchivePassword(id), store.rows, id);
          store.MarkPostprocessFailed(id, msg, "postprocess_failed", now);
          store.ClearArchivePassword(id);
        case Wait(_) =>
          if job.status != Decrypting {
            store.MarkDecrypting(id, job.bytesDone);
          }
        case Proceed(task) =>
          if job.status != Decrypting {
            store.MarkDecrypting(id, job.bytesDone);
          }
          ScheduleDecrypt(id, task);
      }
    }

    /** One pending job of the snapshot. */
    method DispatchRow(id: Id, job: Row, env: Surroundings, now: Time)
      requires cfg.mega || cfg.archive
      requires id in store.rows && store.rows[id] == job && PendingPostprocess(job)
      modifies store`rows, `decryptPending
      ensures View() == DispatchStep(cfg, old(View()), id, env, now)
    {
      if !env.autoDecrypt && job.status != Decrypting && !ShouldDecryptMega(cfg, job, ArchivePath(job)) {
        return;
      }
      var plan := BuildDecryptTask(id, "", env);
      CarryOut(id, job, plan, now);
    }

    /** The pass over a snapshot of at most a hundred jobs does what dispatching each of them afresh would do. */
    method DispatchCompletedDecrypt(env: Surroundings, now: Time) returns (ids: seq<Id>)
      modifies store`rows, `decryptPending
      ensures forall id :: id in ids ==> id in old(store.rows) && PendingPostprocess(old(store.rows)[id])
      ensures View() == Exec(cfg, old(View()), DispatchPass(ids, env, now))
      ensures cfg.mega || cfg.archive ==> ListsPending(old(store.rows), ids)
      ensures cfg.archive && |PendingIds(old(store.rows))| <= 100 ==>
                forall id :: id in old(store.rows) && Multipart.ReadyToExtract(old(store.rows), id, env) ==>
                  id in decryptPending
    {
      if !cfg.mega && !cfg.archive {
        return [];
      }
      ids := store.ListPendingPostprocess(100);
      if cfg.archive && |PendingIds(store.rows)| <= 100 {
        PassServesAll(cfg, View(), ids, env, now);
      }
      DispatchListed(ids, env, now);
    }

    method DispatchListed(ids: seq<Id>, env: Surroundings, now: Time)
      requires cfg.mega || cfg.archive
      requires forall i, j :: 0 <= i < j < |ids| ==> ids[i] != ids[j]
      requires forall id :: id in ids ==> id in store.rows && PendingPostprocess(store.rows[id])
      modifies store`rows, `decryptPending
      ensures View() == Exec(cfg, old(View()), DispatchPass(ids, env, now))
    {
      var snapshot := store.rows;
      ghost var start := View();
      for i := 0 to |ids|
        invariant View() == Exec(cfg, start, DispatchPass(ids[..i], env, now))
        invariant store.rows.Keys == snapshot.Keys
        invariant forall j :: i <= j < |ids| ==> store.rows[ids[j]] == snapshot[ids[j]]
      {
        ghost var before := View();
        DispatchRow(ids[i], snapshot[ids[i]], env, now);
        DispatchPassSnoc(cfg, start, ids, i, env, now);
        DispatchTouches(cfg, before, ids[i], env, now);
      }
      assert ids[..|ids|] == ids;
    }

    /** The MEGA decryptor is called on the payload, if there is one to decrypt. */
    method DecryptPayload(id: Id, failed: bool)
      modifies `decryptPending
      ensures View() == PayloadStep(cfg, old(View()), id, failed)
    {
      if id in decryptPending {
        var task := decryptPending[id];
        if task.decryptMega && cfg.mega && task.payload == Untouched {
          decryptPending := decryptPending[id := task.(payload := if failed then Broken else Unlocked)];
        }
      }
    }

    /** The rest of a run: extraction unless the payload could not be decrypted, and the closing writes. */
    method CloseRun(id: Id, archiveFailed: bool, now: Time)
      requires MayFinish(cfg, View(), id)
      modifies store`rows, `decryptPending
      ensures View() == FinishStep(cfg, old(View()), id, archiveFailed, now)
    {
      var task := decryptPending[id];
      if task.decryptMega && cfg.mega && task.payload == Broken {
        store.MarkPostprocessFailed(id, "mega decrypt failed", "mega_decrypt_failed", now);
      } else if task.decryptArchive && cfg.archive && archiveFailed {
        store.MarkPostprocessFailed(id, "archive decrypt failed", "archive_decrypt_failed", now);
      } else {
        store.MarkCompleted(id, now);
      }
      store.ClearArchivePassword(id);
      decryptPending := decryptPending - {id};
    }

    /** A decrypt run that has its worker token; others may act between its two steps. */
    method RunDecrypt(id: Id, megaFailed: bool, archiveFailed: bool, now: Time)
      requires id in decryptPending && decryptPending[id].payload == Untouched
      modifies store`rows, `decryptPending
      ensures View() == FinishStep(cfg, PayloadStep(cfg, old(View()), id, megaFailed), id, archiveFailed, now)
    {
      DecryptPayload(id, megaFailed);
      CloseRun(id, archiveFailed, now);
    }

    // -------------------------------------------------------------------
    // Automatic retries

    /** Requeues the failed jobs that are due, earliest first. */
    method RequeueFailed(now: Time) returns (ids: seq<Id>)
      modifies store`rows
      ensures IsListing(old(store.rows), (row: Row) => Retryable(row, now), ByRetryTime, ids)
      ensures forall id :: id in ids <==>
                && id in old(store.rows) && old(store.rows)[id].status == Failed && old(store.rows)[id].deletedAt.None?
                && old(store.rows)[id].nextRetryAt.Some? && old(store.rows)[id].nextRetryAt.value <= now
                && old(store.rows)[id].attempts < old(store.rows)[id].maxAttempts
      ensures forall i, j :: 0 <= i < j < |ids| ==>
                old(store.rows)[ids[i]].nextRetryAt.value <= old(store.rows)[ids[j]].nextRetryAt.value
      ensures View() == Exec(cfg, old(View()), RequeuePass(ids, now))
    {
      ids := store.List((row: Row) => Retryable(row, now), ByRetryTime);
      var snapshot := store.rows;
      ghost var start := View();
      for i := 0 to |ids|
        invariant View() == Exec(cfg, start, RequeuePass(ids[..i], now))
        invariant store.rows.Keys == snapshot.Keys
        invariant forall j :: i <= j < |ids| ==> store.rows[ids[j]] == snapshot[ids[j]]
      {
        assert Retryable(store.rows[ids[i]], now);
        store.Requeue(ids[i]);
        RequeuePassSnoc(cfg, start, ids, i, now);
      }
      assert ids[..|ids|] == ids;
    }
  }
}
