/** The start loop of a tick: which queued jobs are started, and how many. */
module Scheduler {
  import opened Text
  import opened Jobs
  import opened Planning
  import opened QueueSystem
  import opened StoreModule
  import opened ServiceModule
  import opened RunnerModule
  import Orphans

  ghost function QueuedIds(t: Table): set<Id> {
    set id | id in t && t[id].status == Queued
  }

  ghost function DownloadingIds(t: Table): set<Id> {
    set id | id in t && t[id].status == Downloading && t[id].deletedAt.None?
  }

  ghost predicate AllPristine(t: Table) {
    forall id :: id in t ==> Pristine(t[id])
  }

  function StartPass(claimed: seq<Id>, outcomes: Id -> StartOutcome, now: Time): seq<Step> {
    seq(|claimed|, i requires 0 <= i < |claimed| => Start(outcomes(claimed[i]), now))
  }

  // ---------------------------------------------------------------------
  // One start

  /** What starting `id` does: it leaves the queue, and downloads or has failed. */
  ghost predicate StartsOnly(c: Core, c': Core, id: Id) {
    && OnlyTouches(c.rows, c'.rows, id) && id in c.rows && Pristine(c'.rows[id])
    && Visible(c'.rows[id]) && (c'.rows[id].status == Downloading || c'.rows[id].status == Failed)
  }

  lemma ResolvedRow(c: Core, id: Id, outcome: StartOutcome, now: Time)
    requires id in c.rows && c.rows[id].status == Resolving && Pristine(c.rows[id])
    ensures StartsOnly(c, ResolveAndStart(c, id, outcome, now), id)
  {
    if outcome.Unresolved? {
      FailedRow(c, id, ResolveFailure(id, outcome.why, now));
    } else {
      StartResolvedRow(c, id, outcome, ControlToRemove(c.rows, id, outcome), now);
    }
  }

  lemma FailedRow(c: Core, id: Id, failure: Stmt)
    requires id in c.rows && c.rows[id].status == Resolving && Pristine(c.rows[id])
    requires failure.MarkFailed? && failure.id == id
    ensures StartsOnly(c, c.(rows := Apply(failure, c.rows)), id)
  {
    ApplyToOne(failure, c.rows);
  }

  lemma StartResolvedRow(c: Core, id: Id, outcome: StartOutcome, control: Option<string>, now: Time)
    requires id in c.rows && c.rows[id].status == Resolving && Pristine(c.rows[id]) && !outcome.Unresolved?
    ensures StartsOnly(c, StartResolved(c, id, outcome, control, now), id)
  {
    var update := UpdateResolving(id, outcome.url, Sanitize(outcome.file), outcome.size);
    StartResolvedRows(c, id, outcome, control, now);
    StartedOrFailed(c.rows[id], update, VerdictStmt(id, c.nextGid, StartVerdict(id, outcome, control.Some?, now)));
  }

  lemma StartedOrFailed(row: Row, update: Stmt, next: Stmt)
    requires row.status == Resolving && Pristine(row)
    requires update.UpdateResolving? && (next.MarkDownloading? || next.MarkFailed?)
    ensures var row' := Effect(next, Effect(update, row));
            Pristine(row') && Visible(row') && (row'.status == Downloading || row'.status == Failed)
  {
  }

  lemma ClaimedRow(t: Table, id: Id, now: Time)
    requires id in t && t[id].status == Queued && Pristine(t[id])
    ensures var t' := Apply(Claim(id, now), t);
            OnlyTouches(t, t', id) && t'[id].status == Resolving && Pristine(t'[id])
  {
  }

  lemma StartedRow(c: Core, id: Id, outcome: StartOutcome, now: Time)
    requires IsLowestClaimable(c.rows, now, id) && AllPristine(c.rows)
    ensures StartsOnly(c, StartStep(c, outcome, now), id)
  {
    var claimed := c.(rows := Apply(Claim(id, now), c.rows));
    ClaimedRow(c.rows, id, now);
    ResolvedRow(claimed, id, outcome, now);
    StartStepOf(c, outcome, now, id);
  }

  lemma StartedSets(c: Core, c': Core, id: Id)
    requires AllPristine(c.rows) && id in c.rows && c.rows[id].status == Queued && StartsOnly(c, c', id)
    ensures AllPristine(c'.rows)
    ensures QueuedIds(c'.rows) == QueuedIds(c.rows) - {id} && id in QueuedIds(c.rows)
    ensures DownloadingIds(c'.rows)
         == if c'.rows[id].status == Downloading then DownloadingIds(c.rows) + {id} else DownloadingIds(c.rows)
    ensures |DownloadingIds(c'.rows)| <= |DownloadingIds(c.rows)| + 1
  {
    forall x | x in c'.rows
      ensures Pristine(c'.rows[x])
    {
      assert x != id ==> c'.rows[x] == c.rows[x];
    }
  }

  // ---------------------------------------------------------------------
  // The loop

  /** `claimed` are the lowest ids of `queued`, in order, and `left` is what remains. */
  ghost predicate LowestFirst(queued: set<Id>, claimed: seq<Id>, left: set<Id>) {
    && (forall i, j :: 0 <= i < j < |claimed| ==> claimed[i] < claimed[j])
    && (forall i :: 0 <= i < |claimed| ==> claimed[i] in queued)
    && left == queued - (set i | 0 <= i < |claimed| :: claimed[i])
    && (forall i, x :: 0 <= i < |claimed| && x in left ==> claimed[i] < x)
  }

  lemma LowestFirstSnoc(queued: set<Id>, claimed: seq<Id>, left: set<Id>, id: Id)
    requires LowestFirst(queued, claimed, left) && id in left && forall x :: x in left ==> id <= x
    ensures LowestFirst(queued, claimed + [id], left - {id})
  {
    var more := claimed + [id];
    assert forall i :: 0 <= i < |claimed| ==> more[i] == claimed[i];
    assert more[|claimed|] == id;
    assert (set i | 0 <= i < |more| :: more[i]) == (set i | 0 <= i < |claimed| :: claimed[i]) + {id};
  }

  method CountDownloading(store: Store) returns (n: nat)
    ensures n == |DownloadingIds(store.rows)|
  {
    var ids := store.List(CountsAsDownloading, ByIdDescending);
    ListingSize(ids, DownloadingIds(store.rows));
    n := |ids|;
  }

  /** Readies the output of a resolved job, removing its control file if that is asked for and safe. */
  method PrepareOutput(r: Runner, id: Id, outcome: StartOutcome) returns (error: Option<string>)
    requires id in r.store.rows && outcome.Resolved?
    modifies r`controlFiles
    ensures var control := ControlToRemove(r.store.rows, id, outcome);
            && error == (if control.Some? then outcome.removeError else None)
            && r.controlFiles == if control.Some? && outcome.removeError.None?
                                 then old(r.controlFiles) - {control.value} else old(r.controlFiles)
  {
    var job := r.store.rows[id];
    var options := StartOptions(job, Sanitize(outcome.file), outcome.options);
    var outName := Sanitize(OptionOf(options, "out"));
    error := None;
    if outName != "" {
      var ids := r.store.List(Visible, ByIdDescending);
      r.controlFiles, error := PrepareOutputForStart(r.store.rows, ids, id, job.outDir, outName, options,
                                                     outcome.removeError, r.controlFiles);
    }
  }

  /** Decides between a start and the failure to record. */
  method DecideStart(r: Runner, id: Id, outcome: StartOutcome, now: Time) returns (verdict: Verdict)
    requires id in r.store.rows && !outcome.Unresolved?
    modifies r`controlFiles
    ensures var control := ControlToRemove(r.store.rows, id, outcome);
            && verdict == StartVerdict(id, outcome, control.Some?, now)
            && r.controlFiles == if control.Some? && outcome.Resolved? && outcome.removeError.None?
                                 then old(r.controlFiles) - {control.value} else old(r.controlFiles)
  {
    if outcome.WrongEngine? {
      return GiveBack(MarkFailed(id, "unsupported_engine", "resolver returned unsupported engine", Some(now + 1800)));
    }
    var error := PrepareOutput(r, id, outcome);
    if error.Some? {
      return GiveBack(MarkFailed(id, "prepare_output_failed", error.value, Some(now + 600)));
    }
    if outcome.refusal.Some? {
      return GiveBack(MarkFailed(id, "download_start_failed", outcome.refusal.value, Some(now + 600)));
    }
    return Go;
  }

  method StartResolvedJob(r: Runner, id: Id, outcome: StartOutcome, now: Time)
    requires id in r.store.rows && !outcome.Unresolved?
    modifies r.store`rows, r.engine, r`controlFiles
    ensures r.View() == StartResolved(old(r.View()), id, outcome, ControlToRemove(old(r.store.rows), id, outcome), now)
  {
    ApplyToOne(UpdateResolving(id, outcome.url, Sanitize(outcome.file), outcome.size), r.store.rows);
    r.store.UpdateResolving(id, outcome.url, Sanitize(outcome.file), outcome.size);
    ControlAfterUpdate(old(r.store.rows), r.store.rows, id, outcome);
    var verdict := DecideStart(r, id, outcome, now);
    FollowVerdict(r, id, verdict);
  }

  method FollowVerdict(r: Runner, id: Id, verdict: Verdict)
    requires verdict.GiveBack? ==> verdict.stmt.MarkFailed? && verdict.stmt.id == id
    modifies r.store`rows, r.engine
    ensures r.View() == Followed(old(r.View()), id, verdict)
  {
    match verdict {
      case Go =>
        var gid := r.engine.AddUri();
        r.store.MarkDownloading(id, gid);
      case GiveBack(failure) => r.store.MarkFailed(id, failure.code, failure.msg, failure.retry);
    }
  }

  /** Resolves a claimed job and hands it to the engine, or records why that failed. */
  method ResolveClaimed(r: Runner, id: Id, outcome: StartOutcome, now: Time)
    requires id in r.store.rows
    modifies r.store`rows, r.engine, r`controlFiles
    ensures r.View() == ResolveAndStart(old(r.View()), id, outcome, now)
  {
    if r.store.rows[id].deletedAt.Some? {
      return;
    }
    if outcome.Unresolved? {
      var failure := ResolveFailure(id, outcome.why, now);
      r.store.MarkFailed(id, failure.code, failure.msg, failure.retry);
      return;
    }
    StartResolvedJob(r, id, outcome, now);
  }

  /** One turn of the loop: claim the lowest queued job and start it. */
  method StartOne(r: Runner, outcomes: Id -> StartOutcome, now: Time) returns (claimed: Option<Id>)
    requires AllPristine(r.store.rows)
    modifies r.store`rows, r.engine, r`controlFiles
    ensures claimed.None? ==> r.View() == old(r.View()) && QueuedIds(r.store.rows) == {}
    ensures claimed.Some? ==>
              && claimed.value in QueuedIds(old(r.store.rows))
              && (forall x :: x in QueuedIds(old(r.store.rows)) ==> claimed.value <= x)
              && r.View() == StartStep(old(r.View()), outcomes(claimed.value), now)
              && StartsOnly(old(r.View()), r.View(), claimed.value)
  {
    ghost var c := r.View();
    assert forall id :: id in c.rows ==> (Claimable(c.rows[id], now) <==> c.rows[id].status == Queued);
    var nobody: seq<seq<Stmt>> := [];
    var used: nat;
    claimed, used := r.store.ClaimNextQueued(now, nobody);
    assert nobody[..used] == [];
    if claimed.Some? {
      var id := claimed.value;
      assert IsLowestClaimable(c.rows, now, id);
      StartedRow(c, id, outcomes(id), now);
      ResolveClaimed(r, id, outcomes(id), now);
    }
  }

  /**
   * The start loop of a tick, nobody else acting. It ends; it starts the lowest queued jobs in
   * order; it never raises the number of downloads above the limit; and it stops only when the
   * limit is reached or nothing is queued.
   */
  method StartJobs(r: Runner, limit: int, outcomes: Id -> StartOutcome, now: Time) returns (claimed: seq<Id>)
    requires AllPristine(r.store.rows)
    modifies r.store`rows, r.engine, r`controlFiles
    ensures r.View() == Exec(r.cfg, old(r.View()), StartPass(claimed, outcomes, now))
    ensures LowestFirst(QueuedIds(old(r.store.rows)), claimed, QueuedIds(r.store.rows))
    ensures |DownloadingIds(r.store.rows)| <= |DownloadingIds(old(r.store.rows))| || |DownloadingIds(r.store.rows)| <= limit
    ensures |DownloadingIds(r.store.rows)| >= limit || QueuedIds(r.store.rows) == {}
  {
    claimed := [];
    ghost var start := r.View();
    var active := CountDownloading(r.store);
    while active < limit
      invariant AllPristine(r.store.rows) && active == |DownloadingIds(r.store.rows)|
      invariant r.View() == Exec(r.cfg, start, StartPass(claimed, outcomes, now))
      invariant LowestFirst(QueuedIds(start.rows), claimed, QueuedIds(r.store.rows))
      invariant active <= |DownloadingIds(start.rows)| || active <= limit
      decreases |QueuedIds(r.store.rows)|
    {
      ghost var before := r.View();
      var next := StartOne(r, outcomes, now);
      if next.None? {
        break;
      }
      StartedSets(before, r.View(), next.value);
      LowestFirstSnoc(QueuedIds(start.rows), claimed, QueuedIds(before.rows), next.value);
      StartPassSnoc(r.cfg, start, claimed, next.value, outcomes, now);
      claimed := claimed + [next.value];
      active := CountDownloading(r.store);
    }
  }

  lemma StartPassSnoc(cfg: Config, c: Core, claimed: seq<Id>, id: Id, outcomes: Id -> StartOutcome, now: Time)
    ensures Exec(cfg, c, StartPass(claimed + [id], outcomes, now))
         == StartStep(Exec(cfg, c, StartPass(claimed, outcomes, now)), outcomes(id), now)
  {
    assert StartPass(claimed + [id], outcomes, now) == StartPass(claimed, outcomes, now) + [Start(outcomes(id), now)];
    ExecSnoc(cfg, c, StartPass(claimed, outcomes, now), Start(outcomes(id), now));
  }

  // ---------------------------------------------------------------------
  // A whole tick

  /** The limit on downloads: the current setting if positive, else the configured one, else two. */
  function Concurrency(setting: Option<int>, configured: int): (limit: int)
    ensures 0 < limit
    ensures setting.Some? && setting.value > 0 ==> limit == setting.value
    ensures !(setting.Some? && setting.value > 0) ==> limit == if configured > 0 then configured else 2
  {
    if setting.Some? && setting.value > 0 then setting.value
    else if configured > 0 then configured
    else 2
  }

  lemma ExecFour(cfg: Config, c: Core, p: seq<Step>, q: seq<Step>, r: seq<Step>, s: seq<Step>)
    ensures Exec(cfg, c, p + q + r + s) == Exec(cfg, Exec(cfg, Exec(cfg, Exec(cfg, c, p), q), r), s)
  {
    ExecConcat(cfg, c, p, q);
    ExecConcat(cfg, c, p + q, r);
    ExecConcat(cfg, c, p + q + r, s);
  }

  /** A tick is a run of the serialised system, so it keeps every invariant of those runs. */
  method Tick(r: Runner, setting: Option<int>, configured: int, reports: Id -> Report, env: Surroundings,
              outcomes: Id -> StartOutcome, now: Time)
    returns (steps: seq<Step>)
    requires Orphans.Inv(r.View())
    modifies r.store`rows, r.engine, r`decryptPending, r`controlFiles
    ensures r.View() == Exec(r.cfg, old(r.View()), steps) && Orphans.Inv(r.View())
    ensures |DownloadingIds(r.store.rows)| >= Concurrency(setting, configured) || QueuedIds(r.store.rows) == {}
  {
    ghost var c := r.View();
    var polled := r.UpdateActive(reports, env, now);
    var dispatched := r.DispatchCompletedDecrypt(env, now);
    var requeued := r.RequeueFailed(now);
    var passes := PollPass(polled, reports, env, now) + DispatchPass(dispatched, env, now) + RequeuePass(requeued, now);
    ghost var before := r.View();
    ExecFour(r.cfg, c, PollPass(polled, reports, env, now), DispatchPass(dispatched, env, now), RequeuePass(requeued, now), []);
    assert passes + [] == passes;
    Orphans.ExecKeepsInv(r.cfg, c, passes);
    SafeRowsArePristine(before);
    var claimed := StartJobs(r, Concurrency(setting, configured), outcomes, now);
    steps := passes + StartPass(claimed, outcomes, now);
    ExecConcat(r.cfg, c, passes, StartPass(claimed, outcomes, now));
    Orphans.ExecKeepsInv(r.cfg, c, steps);
  }

  lemma SafeRowsArePristine(c: Core)
    requires Orphans.Inv(c)
    ensures AllPristine(c.rows)
  {
  }
}
