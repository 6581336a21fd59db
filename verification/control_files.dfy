/** Control files of the engine: when a start takes one away from another job. */
module ControlFiles {
  import opened Text
  import opened Jobs
  import opened Planning
  import opened QueueSystem
  import opened Rows

  // ---------------------------------------------------------------------
  // When two outputs share a control file

  /** A sanitised name is a bare file name. */
  lemma SanitizedIsBare(name: string)
    ensures NoSlash(Sanitize(name)) && forall i :: 0 <= i < |Sanitize(name)| ==> Sanitize(name)[i] != '\\'
    ensures Sanitize(name) != "."
  {
  }

  lemma OutputNameIsBare(row: Row)
    ensures NoSlash(OutputName(row))
  {
    SanitizedIsBare(row.name);
    if row.filename.Some? {
      SanitizedIsBare(row.filename.value);
    }
  }

  /** An output named `..` in a directory is taken for the directory above. */
  predicate DotDotClash(dirA: string, nameA: string, dirB: string, nameB: string) {
    || (nameA == ".." && nameB != ".." && Dir(dirA) == Join(dirB, nameB))
    || (nameA != ".." && nameB == ".." && Dir(dirB) == Join(dirA, nameA))
    || (nameA == ".." && nameB == ".." && dirA != dirB && Dir(dirA) == Dir(dirB))
  }

  /** Two outputs share a control file exactly if they are the same, or one is named `..` and hits the other. */
  lemma SharedControlFile(dirA: string, nameA: string, dirB: string, nameB: string)
    requires IsDirectory(dirA) && IsDirectory(dirB) && NoSlash(nameA) && NoSlash(nameB)
    ensures ControlPath(dirA, nameA) == ControlPath(dirB, nameB) <==>
              (dirA == dirB && nameA == nameB) || DotDotClash(dirA, nameA, dirB, nameB)
  {
    var a, b := Join(dirA, nameA), Join(dirB, nameB);
    assert (a + ".aria2")[..|a + ".aria2"| - 6] == a && (b + ".aria2")[..|b + ".aria2"| - 6] == b;
    if nameA != ".." && nameB != ".." && a == b {
      JoinDetermines(dirA, nameA, dirB, nameB);
    }
  }

  // ---------------------------------------------------------------------
  // What a start does to the control file of another job

  /** The other job is at work on the file whose control file is at `path`. */
  predicate Guards(row: Row, path: string) {
    && row.deletedAt.None?
    && (row.status == Queued || row.status == Resolving || row.status == Downloading || row.status == Paused
        || row.status == Decrypting)
    && OutputName(row) != "" && path == ControlPath(row.outDir, OutputName(row))
  }

  /**
   * The start of `id` takes away the control file of `other`: it is to be a fresh one, nobody is seen to
   * work on its output, the removal succeeds, and one of the two outputs is named `..` and hits the other.
   */
  ghost predicate TakesFrom(t: Table, id: Id, outcome: StartOutcome, other: Id)
    requires id in t && other in t
  {
    && outcome.Resolved? && outcome.removeError.None?
    && var options := StartOptions(t[id], Sanitize(outcome.file), outcome.options);
       var name := Sanitize(OptionOf(options, "out"));
       && name != "" && NeedsFreshStart(options)
       && (forall x :: x in t && x != id && t[x].deletedAt.None? && t[x].outDir == t[id].outDir && OutputName(t[x]) == name ==>
             t[x].status != Queued && t[x].status != Resolving && t[x].status != Downloading && t[x].status != Paused
             && t[x].status != Decrypting)
       && DotDotClash(t[id].outDir, name, t[other].outDir, OutputName(t[other]))
  }

  lemma TakenIff(t: Table, id: Id, outcome: StartOutcome, other: Id, path: string)
    requires id in t && other in t && other != id && outcome.Resolved? && outcome.removeError.None?
    requires IsDirectory(t[id].outDir) && IsDirectory(t[other].outDir) && Guards(t[other], path)
    ensures ControlToRemove(t, id, outcome) == Some(path) <==> TakesFrom(t, id, outcome, other)
  {
    var name := Sanitize(OptionOf(StartOptions(t[id], Sanitize(outcome.file), outcome.options), "out"));
    OutputNameIsBare(t[other]);
    SanitizedIsBare(OptionOf(StartOptions(t[id], Sanitize(outcome.file), outcome.options), "out"));
    SharedControlFile(t[id].outDir, name, t[other].outDir, OutputName(t[other]));
    SameOutputInUse(t, id, name, other, path);
  }

  /** Another job with the same output is itself a reason to keep the control file. */
  lemma SameOutputInUse(t: Table, id: Id, name: string, other: Id, path: string)
    requires id in t && other in t && other != id && Guards(t[other], path)
    ensures t[other].outDir == t[id].outDir && OutputName(t[other]) == name ==> OutputInUse(t, id, t[id].outDir, name, OutputName)
  {
  }

  lemma ResolvingRemoves(c: Core, id: Id, outcome: StartOutcome, now: Time, path: string)
    requires id in c.rows && Visible(c.rows[id]) && path in c.controls
    ensures path !in ResolveAndStart(c, id, outcome, now).controls <==>
              outcome.Resolved? && outcome.removeError.None? && ControlToRemove(c.rows, id, outcome) == Some(path)
  {
    if !outcome.Unresolved? {
      StartingRemoves(c, id, outcome, ControlToRemove(c.rows, id, outcome), now, path);
    }
  }

  lemma StartingRemoves(c: Core, id: Id, outcome: StartOutcome, control: Option<string>, now: Time, path: string)
    requires path in c.controls && !outcome.Unresolved?
    ensures path !in StartResolved(c, id, outcome, control, now).controls <==>
              outcome.Resolved? && outcome.removeError.None? && control == Some(path)
  {
  }

  lemma StartTakesIff(c: Core, outcome: StartOutcome, now: Time, id: Id, other: Id, path: string)
    requires IsLowestClaimable(c.rows, now, id) && other in c.rows && other != id
    requires IsDirectory(c.rows[id].outDir) && IsDirectory(c.rows[other].outDir)
    requires Guards(c.rows[other], path) && path in c.controls
    ensures path !in StartStep(c, outcome, now).controls <==> TakesFrom(c.rows, id, outcome, other)
  {
    var claimed := c.(rows := Apply(Claim(id, now), c.rows));
    ApplyToOne(Claim(id, now), c.rows);
    StartStepOf(c, outcome, now, id);
    ResolvingRemoves(claimed, id, outcome, now, path);
    if outcome.Resolved? && outcome.removeError.None? {
      ControlAfterUpdate(c.rows, claimed.rows, id, outcome);
      TakenIff(c.rows, id, outcome, other, path);
    }
  }

  // ---------------------------------------------------------------------
  // All runs

  /** The step is the start of another job that takes the control file of `other` away. */
  ghost predicate TakesAway(c: Core, step: Step, other: Id)
    requires other in c.rows
  {
    step.Start? && exists id :: IsLowestClaimable(c.rows, step.now, id) && id != other && TakesFrom(c.rows, id, step.outcome, other)
  }

  lemma StepTakesIff(cfg: Config, c: Core, step: Step, other: Id, path: string)
    requires AllWellFormed(c.rows) && other in c.rows && Guards(c.rows[other], path) && path in c.controls
    requires !step.EngineFile? && !(step.Start? && IsLowestClaimable(c.rows, step.now, other))
    ensures path !in Next(cfg, c, step).controls <==> TakesAway(c, step, other)
  {
    if !step.Start? {
      StepKeepsRows(cfg, c, step);
    } else {
      StartIs(cfg, c, step.outcome, step.now);
      if id :| IsLowestClaimable(c.rows, step.now, id) {
        StartTakesIff(c, step.outcome, step.now, id, other, path);
      }
    }
  }

  /**
   * In every run, whatever step comes next, other than the engine's own and the start of this very job:
   * the control file of an output that a visible job is at work on goes exactly if the step is a start
   * that `TakesFrom` it. Without an output named `..` that never happens.
   */
  lemma ControlFileTakenIff(cfg: Config, steps: seq<Step>, step: Step, other: Id, path: string)
    requires other in Exec(cfg, EMPTY, steps).rows
    requires Guards(Exec(cfg, EMPTY, steps).rows[other], path) && path in Exec(cfg, EMPTY, steps).controls
    requires !step.EngineFile? && !(step.Start? && IsLowestClaimable(Exec(cfg, EMPTY, steps).rows, step.now, other))
    ensures path !in Next(cfg, Exec(cfg, EMPTY, steps), step).controls <==> TakesAway(Exec(cfg, EMPTY, steps), step, other)
  {
    RunRowsWellFormed(cfg, steps);
    StepTakesIff(cfg, Exec(cfg, EMPTY, steps), step, other, path);
  }
}
