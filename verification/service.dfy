/** The download engine as its client sees it, and the service calls that act on it and on the store. */
module ServiceModule {
  import opened Text
  import opened Jobs
  import opened Planning
  import opened QueueSystem
  import opened StoreModule

  /** The engine keeps its word whatever answer the environment would like: see `Honest`. */
  class Engine {
    var tasks: map<Gid, TaskState>
    var nextGid: Gid

    constructor ()
      ensures tasks == map[] && nextGid == 1
    {
      tasks := map[];
      nextGid := 1;
    }

    /** Acceptance of a command on a dead task, or ignorance of a live one, does not occur. */
    function Honest(gid: Gid, reply: Reply): Reply
      reads this
    {
      if (reply == Accepted && !IsLive(tasks, gid)) || (reply == NotFound && IsLive(tasks, gid)) then OtherError else reply
    }

    method AddUri() returns (gid: Gid)
      modifies this
      ensures gid == old(nextGid) && nextGid == old(nextGid) + 1 && tasks == old(tasks)[gid := Live]
    {
      gid := nextGid;
      tasks := tasks[gid := Live];
      nextGid := nextGid + 1;
    }

    /** Pausing and unpausing leave a live task live. */
    method Toggle(gid: Gid, reply: Reply) returns (answer: Reply)
      ensures answer == Honest(gid, reply)
    {
      answer := Honest(gid, reply);
    }

    method Remove(gid: Gid, reply: Reply, gone: bool) returns (answer: Reply)
      modifies `tasks
      ensures tasks == RemoveTask(old(tasks), Some(gid), reply, gone).0
      ensures answer == Accepted || answer == NotFound <==> RemoveTask(old(tasks), Some(gid), reply, gone).1
    {
      if reply == Accepted {
        tasks := tasks - {gid};
        return Accepted;
      }
      if reply == NotFound {
        return if IsLive(tasks, gid) then OtherError else NotFound;
      }
      if gone {
        tasks := tasks - {gid};
      }
      return reply;
    }
  }

  /** What belongs to the runner: its decrypt tasks and the control files on disk. */
  datatype Background = Background(tasks: map<Id, Task>, controls: set<string>)

  /** Table and engine together with what belongs to the runner. */
  ghost function CoreOf(store: Store, engine: Engine, rest: Background): Core
    reads store, engine
  {
    Core(store.rows, store.nextId, engine.tasks, engine.nextGid, rest.tasks, rest.controls)
  }

  datatype Outcome = Fine | NoSuchJob | MissingGid | EngineRefused(reply: Reply)

  /**
   * `rest` stands for what belongs to the runner, which no service call reads or changes.
   * Events written for the log are left out.
   */
  class Service {
    const store: Store
    const engine: Engine

    constructor (store: Store, engine: Engine)
      ensures this.store == store && this.engine == engine
    {
      this.store := store;
      this.engine := engine;
    }

    /** `outDir` is the cleaned directory, or nothing if it was refused. */
    method CreateJob(source: Source, outDir: Option<string>, name: string, password: string, maxAttempts: int,
                     ghost rest: Background)
      returns (created: Option<Id>)
      requires outDir.Some? ==> IsDirectory(outDir.value)
      modifies store
      ensures created.Some? <==>
                && outDir.Some? && name != "." && name != ".."
                && forall i :: 0 <= i < |name| ==> name[i] != '/' && name[i] != '\\'
      ensures created.None? ==> CoreOf(store, engine, rest) == old(CoreOf(store, engine, rest))
      ensures created.Some? ==>
                var id := created.value;
                && id == old(store.nextId) && id in store.rows && IsNewJob(store.rows[id])
                && store.rows[id] == Row(source, outDir.value, name, if Blank(password) then None else Some(Trimmed(password)),
                                         None, None, None, 0, 0, None, Queued, None, None, None,
                                         0, if maxAttempts <= 0 then 5 else maxAttempts, None, None, None, None)
                && CoreOf(store, engine, rest) == CreateStep(old(CoreOf(store, engine, rest)), store.rows[id])
    {
      var attempts := maxAttempts;
      if attempts <= 0 {
        attempts := 5;
      }
      if outDir.None? || !IsUserName(name) {
        return None;
      }
      var secret := Trimmed(password);
      var id := store.CreateJob(source, outDir.value, name, if secret != "" then Some(secret) else None, attempts);
      return Some(id);
    }

    method RemoveEngineTask(gid: Gid, reply: Reply, gone: bool) returns (outcome: Outcome)
      modifies engine`tasks
      ensures engine.tasks == RemoveTask(old(engine.tasks), Some(gid), reply, gone).0
      ensures outcome == Fine <==> RemoveTask(old(engine.tasks), Some(gid), reply, gone).1
      ensures outcome == Fine <==> reply == Accepted || (reply == NotFound && !IsLive(old(engine.tasks), gid))
      ensures outcome == Fine ==> !IsLive(engine.tasks, gid)
      ensures outcome == Fine || outcome.EngineRefused?
    {
      var answer := engine.Remove(gid, reply, gone);
      outcome := if answer == Accepted || answer == NotFound then Fine else EngineRefused(answer);
    }

    method Retry(id: Id, reply: Reply, gone: bool, ghost rest: Background) returns (outcome: Outcome)
      modifies store`rows, engine`tasks
      ensures CoreOf(store, engine, rest) == RetryStep(old(CoreOf(store, engine, rest)), id, reply, gone)
      ensures outcome == NoSuchJob <==> id !in old(store.rows)
      ensures outcome.EngineRefused? <==>
                (&& id in old(store.rows) && old(store.rows)[id].status != DecryptFailed
                 && !RemoveTask(old(engine.tasks), old(store.rows)[id].gid, reply, gone).1)
      ensures outcome != MissingGid
    {
      var job := store.GetJob(id);
      if job.None? {
        return NoSuchJob;
      }
      if job.value.status == DecryptFailed {
        store.MarkDecryptingRetry(id, job.value.bytesDone);
        return Fine;
      }
      outcome := Fine;
      if job.value.gid.Some? {
        outcome := RemoveEngineTask(job.value.gid.value, reply, gone);
      }
      if outcome == Fine {
        store.Requeue(id);
      }
    }

    method RemoveJob(id: Id, reply: Reply, gone: bool, now: Time, ghost rest: Background) returns (outcome: Outcome)
      modifies store`rows, engine`tasks
      ensures CoreOf(store, engine, rest) == RemoveStep(old(CoreOf(store, engine, rest)), id, reply, gone, now)
      ensures outcome == NoSuchJob <==> id !in old(store.rows)
      ensures outcome.EngineRefused? <==>
                (&& id in old(store.rows)
                 && !RemoveTask(old(engine.tasks), old(store.rows)[id].gid, reply, gone).1)
      ensures outcome != MissingGid
    {
      var job := store.GetJob(id);
      if job.None? {
        return NoSuchJob;
      }
      outcome := Fine;
      if job.value.gid.Some? {
        outcome := RemoveEngineTask(job.value.gid.value, reply, gone);
      }
      if outcome == Fine {
        store.Remove(id, now);
      }
    }

    method Pause(id: Id, reply: Reply, ghost rest: Background) returns (outcome: Outcome)
      modifies store`rows
      ensures CoreOf(store, engine, rest) == PauseStep(old(CoreOf(store, engine, rest)), id, reply)
      ensures outcome == Fine <==> MayPause(old(CoreOf(store, engine, rest)), id, reply)
      ensures outcome == NoSuchJob <==> id !in old(store.rows)
      ensures outcome == MissingGid <==>
                (&& id in old(store.rows) && old(store.rows)[id].gid.None?
                 && old(store.rows)[id].status != Queued && old(store.rows)[id].status != Resolving)
    {
      var job := store.GetJob(id);
      if job.None? {
        return NoSuchJob;
      }
      if job.value.status == Queued || job.value.status == Resolving {
        store.MarkPaused(id);
        return Fine;
      }
      if job.value.gid.None? {
        return MissingGid;
      }
      var answer := engine.Toggle(job.value.gid.value, reply);
      if answer != Accepted {
        return EngineRefused(answer);
      }
      store.MarkPaused(id);
      return Fine;
    }

    method Resume(id: Id, reply: Reply, gone: bool, ghost rest: Background) returns (outcome: Outcome)
      modifies store`rows, engine`tasks
      ensures CoreOf(store, engine, rest) == ResumeStep(old(CoreOf(store, engine, rest)), id, reply, gone)
      ensures outcome == Fine <==> MayResume(old(CoreOf(store, engine, rest)), id, reply, gone)
      ensures outcome == NoSuchJob <==> id !in old(store.rows)
      ensures outcome != MissingGid
      ensures outcome != Fine ==> store.rows == old(store.rows)
    {
      var job := store.GetJob(id);
      if job.None? {
        return NoSuchJob;
      }
      if job.value.source.webshare {
        outcome := Fine;
        if job.value.gid.Some? {
          outcome := RemoveEngineTask(job.value.gid.value, reply, gone);
        }
        if outcome == Fine {
          store.Requeue(id);
        }
        return;
      }
      if job.value.gid.None? {
        store.Requeue(id);
        return Fine;
      }
      var answer := engine.Toggle(job.value.gid.value, reply);
      match answer {
        case Accepted => store.MarkDownloadingStatus(id);
        case NotFound => store.Requeue(id);
        case _ => return EngineRefused(answer);
      }
      return Fine;
    }
  }
}
