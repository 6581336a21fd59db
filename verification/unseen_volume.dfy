/**
 * Why the wait for other volumes speaks of known volumes only: a volume that is queued without a name
 * of its own is not waited for.
 */
module UnseenVolume {
  import opened Text
  import opened Jobs
  import opened Volumes
  import opened Planning
  import opened QueueSystem
  import opened Multipart
  import opened Scenarios

  const EXTRACTING := Config(false, true)

  /** Two new jobs for one directory: a named volume of an archive, and one that the resolver will name `file`. */
  ghost predicate TwoVolumes(a: Row, b: Row, file: string) {
    && IsNewJob(a) && IsNewJob(b) && b.outDir == a.outDir && b.name == ""
    && Sanitize(a.name) != "" && CleanPath(ArchivePath(a)) && IsArchiveFile(ArchivePath(a))
    && GroupKey(ArchivePath(a)).0 != ""
    && Sanitize(Sanitize(file)) != "" && GroupKey(Join(a.outDir, Sanitize(Sanitize(file)))).0 == GroupKey(ArchivePath(a)).0
  }

  /** Both are created; the first is started, downloaded and polled; then the second is started. */
  function Run(a: Row, b: Row, file: string, env: Surroundings, now: Time): seq<Step> {
    [Create(a)] + [Create(b)] + [Start(FOUND, now)] + [EngineMove(1, Some(Complete))] + [Poll(1, QUIET, env, now)]
      + [Start(FoundAs(file), now)]
  }

  /** The second job is as it was created; the first has come as far as `status`. */
  ghost predicate Pair(c: Core, a: Row, b: Row, status: Status, state: TaskState, nextGid: Gid) {
    && c.rows.Keys == {1, 2} && c.nextId == 3 && c.nextGid == nextGid && c.rows[2] == b
    && var row := c.rows[1];
       && row.outDir == a.outDir && row.name == a.name && Visible(row) && row.nextRetryAt.None? && row.status == status
       && (status != Queued ==> row.gid == Some(1) && 1 in c.engine && c.engine[1] == state)
  }

  lemma BothCreated(cfg: Config, a: Row, b: Row)
    requires IsNewJob(a) && IsNewJob(b)
    ensures Pair(Exec(cfg, EMPTY, [Create(a)] + [Create(b)]), a, b, Queued, Live, 1)
    ensures Exec(cfg, EMPTY, [Create(a)] + [Create(b)]).tasks == map[]
  {
    ExecSnoc(cfg, EMPTY, [], Create(a));
    assert [] + [Create(a)] == [Create(a)];
    ExecSnoc(cfg, EMPTY, [Create(a)], Create(b));
  }

  lemma FirstStarted(c: Core, a: Row, b: Row, now: Time)
    requires Pair(c, a, b, Queued, Live, 1)
    ensures Pair(StartStep(c, FOUND, now), a, b, Downloading, Live, 2) && StartStep(c, FOUND, now).tasks == c.tasks
  {
    var claimed := c.(rows := Apply(Claim(1, now), c.rows));
    assert IsLowestClaimable(c.rows, now, 1);
    StartStepOf(c, FOUND, now, 1);
    ApplyToOne(Claim(1, now), c.rows);
    StartOfClaimed(claimed, 1, "", ControlToRemove(claimed.rows, 1, FOUND), now);
  }

  lemma FirstPlan(c: Core, a: Row, b: Row, file: string, env: Surroundings) returns (plan: Plan)
    requires Pair(c, a, b, Downloading, Complete, 2) && TwoVolumes(a, b, file)
    requires env.autoDecrypt && forall path :: !env.fileExists(path)
    ensures plan == PlanFor(EXTRACTING, c.rows, 1, "", env)
    ensures plan.Proceed? && plan.task.decryptArchive && plan.task.archivePath == ArchivePath(a)
  {
    plan := PlanFor(EXTRACTING, c.rows, 1, "", env);
    FirstPlanned(c.rows, a, b, env);
  }

  lemma FirstPolled(c: Core, a: Row, b: Row, plan: Plan, now: Time)
    requires Pair(c, a, b, Downloading, Complete, 2) && c.tasks == map[] && plan.Proceed?
    ensures var c' := Polled(c, 1, QUIET, plan, now);
            Pair(c', a, b, Decrypting, Complete, 2) && c'.tasks == map[1 := plan.task]
  {
    ApplyToOne(MarkDecrypting(1, 0), c.rows);
  }

  lemma FirstPlanned(t: Table, a: Row, b: Row, env: Surroundings)
    requires t.Keys == {1, 2} && t[2] == b && IsNewJob(b) && b.name == ""
    requires t[1].status == Downloading && t[1].outDir == a.outDir && t[1].name == a.name
    requires Sanitize(a.name) != "" && CleanPath(ArchivePath(a)) && IsArchiveFile(ArchivePath(a))
    requires env.autoDecrypt && forall path :: !env.fileExists(path)
    ensures var plan := PlanFor(EXTRACTING, t, 1, "", env);
            plan.Proceed? && plan.task.decryptArchive && plan.task.archivePath == ArchivePath(a)
  {
    var path := ArchivePath(a);
    assert ArchivePath(t[1]) == path;
    OwnEntry(path, env.fileExists);
    UnnamedUnseen(t, t[1].outDir, path);
  }

  lemma OwnEntry(path: string, fileExists: string -> bool)
    requires CleanPath(path) && forall p :: !fileExists(p)
    ensures EntryPath(path, fileExists) == path && !Blank(path)
  {
    CleanPathParts(path);
  }

  lemma UnnamedUnseen(t: Table, outDir: string, path: string)
    requires t.Keys == {1, 2} && t[2].name == "" && t[2].filename.None?
    ensures !MustWait(t, 1, outDir, path)
  {
    if GroupKey(path).0 != "" {
      assert OutputName(t[2]) == "";
      SeenByOutputName(t, 1, outDir, path, 2);
    }
  }

  lemma SecondStarted(c: Core, a: Row, b: Row, file: string, now: Time)
    requires Pair(c, a, b, Decrypting, Complete, 2) && IsNewJob(b)
    ensures var c' := StartStep(c, FoundAs(file), now);
            && c'.tasks == c.tasks && 2 in c'.rows && Visible(c'.rows[2]) && c'.rows[2].status == Downloading
            && c'.rows[2].outDir == b.outDir && c'.rows[2].name == b.name && c'.rows[2].filename == Some(Sanitize(file))
  {
    var claimed := c.(rows := Apply(Claim(2, now), c.rows));
    assert IsLowestClaimable(c.rows, now, 2);
    StartStepOf(c, FoundAs(file), now, 2);
    ApplyToOne(Claim(2, now), c.rows);
    StartOfClaimed(claimed, 2, file, ControlToRemove(claimed.rows, 2, FoundAs(file)), now);
  }

  lemma SecondIsVolume(t: Table, a: Row, b: Row, file: string)
    requires TwoVolumes(a, b, file) && 2 in t && Visible(t[2]) && t[2].status == Downloading
    requires t[2].outDir == b.outDir && t[2].name == b.name && t[2].filename == Some(Sanitize(file))
    ensures VolumeOnItsWay(t, 1, a.outDir, ArchivePath(a))
  {
    assert OutputName(t[2]) == Sanitize(Sanitize(file));
    assert ArchivePath(t[2]) == Join(a.outDir, Sanitize(Sanitize(file)));
  }

  // The same, step by step of a run

  lemma FirstStartedNext(cfg: Config, c: Core, a: Row, b: Row, now: Time)
    requires Pair(c, a, b, Queued, Live, 1)
    ensures var c' := Next(cfg, c, Start(FOUND, now));
            Pair(c', a, b, Downloading, Live, 2) && c'.tasks == c.tasks
  {
    StartIs(cfg, c, FOUND, now);
    FirstStarted(c, a, b, now);
  }

  lemma FirstEndedNext(cfg: Config, c: Core, a: Row, b: Row)
    requires Pair(c, a, b, Downloading, Live, 2)
    ensures var c' := Next(cfg, c, EngineMove(1, Some(Complete)));
            Pair(c', a, b, Downloading, Complete, 2) && c'.tasks == c.tasks
  {
  }

  /** The first job is extracted although the second is queued. */
  lemma FirstExtracted(c: Core, a: Row, b: Row, plan: Plan, env: Surroundings, now: Time)
    requires Pair(c, a, b, Downloading, Complete, 2) && c.tasks == map[]
    requires plan == PlanFor(EXTRACTING, c.rows, 1, "", env) && plan.Proceed?
    ensures var c' := Next(EXTRACTING, c, Poll(1, QUIET, env, now));
            Pair(c', a, b, Decrypting, Complete, 2) && c'.tasks == map[1 := plan.task]
  {
    PollIs(EXTRACTING, c, 1, QUIET, env, now);
    PolledIs(EXTRACTING, c, 1, QUIET, env, now);
    FirstPolled(c, a, b, plan, now);
  }

  lemma SecondSurfaces(cfg: Config, c: Core, a: Row, b: Row, file: string, now: Time)
    requires Pair(c, a, b, Decrypting, Complete, 2) && TwoVolumes(a, b, file)
    ensures var c' := Next(cfg, c, Start(FoundAs(file), now));
            c'.tasks == c.tasks && VolumeOnItsWay(c'.rows, 1, a.outDir, ArchivePath(a))
  {
    StartIs(cfg, c, FoundAs(file), now);
    SecondStarted(c, a, b, file, now);
    SecondIsVolume(StartStep(c, FoundAs(file), now).rows, a, b, file);
  }

  /** Up to the end of the first download. */
  function Ended(a: Row, b: Row, now: Time): seq<Step> {
    [Create(a)] + [Create(b)] + [Start(FOUND, now)] + [EngineMove(1, Some(Complete))]
  }

  lemma EndedPair(cfg: Config, a: Row, b: Row, now: Time)
    requires IsNewJob(a) && IsNewJob(b)
    ensures Pair(Exec(cfg, EMPTY, Ended(a, b, now)), a, b, Downloading, Complete, 2)
    ensures Exec(cfg, EMPTY, Ended(a, b, now)).tasks == map[]
  {
    var created := [Create(a)] + [Create(b)];
    var started := created + [Start(FOUND, now)];
    BothCreated(cfg, a, b);
    ExecSnoc(cfg, EMPTY, created, Start(FOUND, now));
    FirstStartedNext(cfg, Exec(cfg, EMPTY, created), a, b, now);
    ExecSnoc(cfg, EMPTY, started, EngineMove(1, Some(Complete)));
    FirstEndedNext(cfg, Exec(cfg, EMPTY, started), a, b);
  }

  /**
   * For every two such volumes: the first is extracted while the second is queued, and the extraction
   * is still pending when the second turns out to be a volume of that very archive, on its way.
   */
  lemma ExtractedTooEarly(a: Row, b: Row, file: string, env: Surroundings, now: Time)
    requires TwoVolumes(a, b, file) && env.autoDecrypt && forall path :: !env.fileExists(path)
    ensures var c := Exec(EXTRACTING, EMPTY, Run(a, b, file, env, now));
            && 1 in c.tasks && c.tasks[1].decryptArchive
            && VolumeOnItsWay(c.rows, 1, a.outDir, c.tasks[1].archivePath)
  {
    var cfg, ended := EXTRACTING, Ended(a, b, now);
    var polled := ended + [Poll(1, QUIET, env, now)];
    EndedPair(cfg, a, b, now);
    ExecSnoc(cfg, EMPTY, ended, Poll(1, QUIET, env, now));
    var plan := FirstPlan(Exec(cfg, EMPTY, ended), a, b, file, env);
    FirstExtracted(Exec(cfg, EMPTY, ended), a, b, plan, env, now);
    ExecSnoc(cfg, EMPTY, polled, Start(FoundAs(file), now));
    SecondSurfaces(cfg, Exec(cfg, EMPTY, polled), a, b, file, now);
  }

  // ---------------------------------------------------------------------
  // Such volumes exist

  lemma PlainPart(prefix: string, digits: string)
    requires IsPlainName(prefix) && AllDigits(digits)
    ensures IsPlainName(PartName(prefix, digits)) && IsFileName(PartName(prefix, digits)) && IsRar(PartName(prefix, digits))
  {
    RarNameParts(prefix + ".part" + digits);
    assert PartName(prefix, digits)[0] == prefix[0];
  }

  lemma PartKey(dir: string, prefix: string, digits: string)
    requires IsTopDirectory(dir) && IsPlainName(prefix) && AllDigits(digits)
    ensures GroupKey(Join(dir, PartName(prefix, digits))).0 == ToLower(dir) + ("|partrar|" + ToLower(prefix))
    ensures IsArchiveFile(Join(dir, PartName(prefix, digits)))
  {
    PlainPart(prefix, digits);
    PartNameParts(prefix, digits);
    JoinInTop(dir, PartName(prefix, digits));
    VolumeOfJoin(dir, PartName(prefix, digits));
    RarFilesAreArchives(dir, PartName(prefix, digits));
  }

  lemma UnnamedJob(dir: string)
    requires IsTopDirectory(dir)
    ensures IsNewJob(MegaJob(dir, ""))
  {
  }

  /** Any two parts of an archive will do, such as `/d/x.part1.rar` and `/d/x.part2.rar`. */
  lemma PartsAreTwoVolumes(dir: string, prefix: string, m: string, n: string)
    requires IsTopDirectory(dir) && IsPlainName(prefix) && AllDigits(m) && AllDigits(n)
    ensures TwoVolumes(MegaJob(dir, PartName(prefix, m)), MegaJob(dir, ""), PartName(prefix, n))
  {
    PlainPart(prefix, m);
    PlainPart(prefix, n);
    PlainJobs(dir, PartName(prefix, m));
    JoinInTop(dir, PartName(prefix, m));
    NameKept(PartName(prefix, n));
    PartKey(dir, prefix, m);
    PartKey(dir, prefix, n);
    UnnamedJob(dir);
    NamedVolume(dir, PartName(prefix, m), PartName(prefix, n));
  }

  lemma NamedVolume(dir: string, name: string, file: string)
    requires NamedMegaJob(MegaJob(dir, name)) && IsNewJob(MegaJob(dir, ""))
    requires ArchivePath(MegaJob(dir, name)) == Join(dir, name) && IsArchiveFile(Join(dir, name))
    requires GroupKey(Join(dir, name)).0 != "" && GroupKey(Join(dir, file)).0 == GroupKey(Join(dir, name)).0
    requires Sanitize(file) == file && file != ""
    ensures TwoVolumes(MegaJob(dir, name), MegaJob(dir, ""), file)
  {
  }
}
