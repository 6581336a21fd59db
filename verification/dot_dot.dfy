/** A run in which a start takes the control file of another download away. */
module DotDot {
  import opened Text
  import opened Jobs
  import opened Planning
  import opened QueueSystem
  import opened ControlFiles
  import opened Scenarios
  import opened UnseenVolume

  /** The options with which Webshare downloads are started. */
  const FRESH := map["continue" := "false", "always-resume" := "false"]

  const FOUND_FRESH := Resolved("", "", 0, FRESH, None, None)

  /** Two new jobs with names of their own, one of them `..`, whose outputs share a control file. */
  predicate Clash(a: Row, b: Row) {
    && IsNewJob(a) && IsNewJob(b) && a.outDir != b.outDir
    && Sanitize(a.name) != "" && Sanitize(b.name) != "" && Sanitize(Sanitize(b.name)) == Sanitize(b.name)
    && DotDotClash(b.outDir, Sanitize(b.name), a.outDir, Sanitize(a.name))
  }

  function ControlOf(a: Row): string {
    ControlPath(a.outDir, Sanitize(a.name))
  }

  /** Both are created, the first is started and the engine keeps its control file. */
  function Prelude(a: Row, b: Row, now: Time): seq<Step> {
    [Create(a)] + [Create(b)] + [Start(FOUND, now)] + [EngineFile(ControlOf(a), true)]
  }

  lemma PreludePair(cfg: Config, a: Row, b: Row, now: Time)
    requires IsNewJob(a) && IsNewJob(b)
    ensures Pair(Exec(cfg, EMPTY, Prelude(a, b, now)), a, b, Downloading, Live, 2)
    ensures ControlOf(a) in Exec(cfg, EMPTY, Prelude(a, b, now)).controls
  {
    var created := [Create(a)] + [Create(b)];
    var started := created + [Start(FOUND, now)];
    BothCreated(cfg, a, b);
    ExecSnoc(cfg, EMPTY, created, Start(FOUND, now));
    FirstStartedNext(cfg, Exec(cfg, EMPTY, created), a, b, now);
    ExecSnoc(cfg, EMPTY, started, EngineFile(ControlOf(a), true));
    FileKept(cfg, Exec(cfg, EMPTY, started), a, b, ControlOf(a));
  }

  lemma FileKept(cfg: Config, c: Core, a: Row, b: Row, path: string)
    requires Pair(c, a, b, Downloading, Live, 2)
    ensures var c' := Next(cfg, c, EngineFile(path, true));
            Pair(c', a, b, Downloading, Live, 2) && path in c'.controls
  {
  }

  lemma FirstGuards(row: Row, a: Row)
    requires row.outDir == a.outDir && row.name == a.name && Visible(row) && row.status == Downloading && Sanitize(a.name) != ""
    ensures Guards(row, ControlOf(a)) && OutputName(row) == Sanitize(a.name)
  {
  }

  lemma FreshMeansFresh(options: map<string, string>)
    requires "continue" in options && options["continue"] == "false"
    ensures NeedsFreshStart(options)
  {
  }

  lemma OptionsOfSecond(b: Row, file: string)
    requires Sanitize(b.name) != "" && Sanitize(Sanitize(b.name)) == Sanitize(b.name)
    ensures var options := StartOptions(b, file, FRESH);
            NeedsFreshStart(options) && Sanitize(OptionOf(options, "out")) == Sanitize(b.name)
  {
    OptionsAre(b, file, Sanitize(b.name));
    FreshMeansFresh(StartOptions(b, file, FRESH));
  }

  lemma OptionsAre(b: Row, file: string, name: string)
    requires Sanitize(b.name) == name && name != ""
    ensures var options := StartOptions(b, file, FRESH);
            "out" in options && options["out"] == name && "continue" in options && options["continue"] == "false"
  {
  }

  lemma SecondTakes(t: Table, a: Row, b: Row)
    requires t.Keys == {1, 2} && t[2] == b && t[1].outDir == a.outDir && OutputName(t[1]) == Sanitize(a.name)
    requires Clash(a, b)
    ensures TakesFrom(t, 2, FOUND_FRESH, 1)
  {
    OptionsOfSecond(b, Sanitize(""));
    NotInUse(t, Sanitize(b.name), OutputName);
  }

  lemma NotInUse(t: Table, name: string, nameOf: Row -> string)
    requires t.Keys == {1, 2} && t[1].outDir != t[2].outDir
    ensures !OutputInUse(t, 2, t[2].outDir, name, nameOf)
  {
  }

  lemma JoinIsDirectory(dir: string, name: string)
    requires IsDirectory(dir) && name != "" && NoSlash(name) && name != ".."
    ensures IsDirectory(Join(dir, name)) && |dir| < |Join(dir, name)|
  {
    var path := Join(dir, name);
    assert path[|path| - 1] == name[|name| - 1];
  }

  /** The first job is at work when the start of the second removes its control file. */
  ghost predicate TakesFile(cfg: Config, a: Row, b: Row, now: Time) {
    var c := Exec(cfg, EMPTY, Prelude(a, b, now));
    var c' := Exec(cfg, EMPTY, Prelude(a, b, now) + [Start(FOUND_FRESH, now)]);
    && 1 in c.rows && Guards(c.rows[1], ControlOf(a))
    && ControlOf(a) in c.controls && ControlOf(a) !in c'.controls
  }

  /** For every two such jobs: the start of the second removes the control file that the first is using. */
  lemma ControlFileTaken(cfg: Config, a: Row, b: Row, now: Time)
    requires Clash(a, b)
    ensures TakesFile(cfg, a, b, now)
  {
    PreludePair(cfg, a, b, now);
    ExecSnoc(cfg, EMPTY, Prelude(a, b, now), Start(FOUND_FRESH, now));
    TakenNext(cfg, Exec(cfg, EMPTY, Prelude(a, b, now)), a, b, now);
  }

  lemma TakenNext(cfg: Config, c: Core, a: Row, b: Row, now: Time)
    requires Clash(a, b) && Pair(c, a, b, Downloading, Live, 2) && ControlOf(a) in c.controls
    ensures Guards(c.rows[1], ControlOf(a)) && ControlOf(a) !in Next(cfg, c, Start(FOUND_FRESH, now)).controls
  {
    FirstGuards(c.rows[1], a);
    SecondTakes(c.rows, a, b);
    TakenByStart(cfg, c, a, b, FOUND_FRESH, ControlOf(a), now);
  }

  lemma TakenByStart(cfg: Config, c: Core, a: Row, b: Row, outcome: StartOutcome, path: string, now: Time)
    requires Pair(c, a, b, Downloading, Live, 2) && IsNewJob(a) && IsNewJob(b) && path in c.controls
    requires Guards(c.rows[1], path) && TakesFrom(c.rows, 2, outcome, 1)
    ensures path !in Next(cfg, c, Start(outcome, now)).controls
  {
    assert IsLowestClaimable(c.rows, now, 2);
    StartIs(cfg, c, outcome, now);
    StartTakesIff(c, outcome, now, 2, 1, path);
  }

  // ---------------------------------------------------------------------
  // Such jobs exist

  predicate IsDotDot(name: string) {
    |name| == 2 && name[0] == '.' && name[1] == '.'
  }

  lemma DotDotKept(name: string)
    requires IsDotDot(name)
    ensures Sanitize(name) == name && name == ".."
  {
    assert LastSlash(name) == -1;
    assert name[0..] == name;
  }

  /** A user can give the name `..`, with a blank on either side. */
  lemma BlankedDotDot(name: string)
    requires |name| == 4 && name[0] == ' ' && name[1] == '.' && name[2] == '.' && name[3] == ' '
    ensures IsUserName(name) && IsDotDot(Sanitize(name))
  {
    var front := name[1..];
    var middle := front[..2];
    assert Trimmed(name) == Trimmed(front) && Trimmed(front) == Trimmed(middle) && Trimmed(middle) == middle;
    assert LastSlash(middle) == -1;
    assert middle[0..] == middle;
  }

  function WebshareJob(dir: string, name: string): Row {
    NewRow(Source(false, true), dir, name, None, 5)
  }

  lemma ExampleDirectories(dir: string, name: string, sub: string)
    requires IsTopDirectory(dir) && IsPlainName(name) && IsPlainName(sub)
    ensures var below := dir + "/" + name + "/" + sub;
            IsDirectory(dir) && IsDirectory(below) && dir != below && Dir(below) == Join(dir, name)
  {
    JoinInTop(dir, name);
    JoinIsDirectory(dir, name);
    JoinIsDirectory(Join(dir, name), sub);
    assert Join(Join(dir, name), sub) == dir + "/" + name + "/" + sub;
    JoinSplits(Join(dir, name), sub);
  }

  /** A plain name in a directory, and the name `..` two levels below: either job takes the other's control file. */
  lemma ExampleClash(dir: string, name: string, sub: string, dots: string)
    requires IsTopDirectory(dir) && IsPlainName(name) && IsPlainName(sub)
    requires IsUserName(dots) && IsDotDot(Sanitize(dots))
    ensures var a, b := WebshareJob(dir, name), WebshareJob(dir + "/" + name + "/" + sub, dots);
            Clash(a, b) && Clash(b, a)
  {
    NameKept(name);
    DotDotKept(Sanitize(dots));
    ExampleDirectories(dir, name, sub);
    Clashes(dir, name, dir + "/" + name + "/" + sub, dots);
  }

  lemma Clashes(dir: string, name: string, below: string, dots: string)
    requires IsDirectory(dir) && IsDirectory(below) && dir != below && Dir(below) == Join(dir, name)
    requires IsPlainName(name) && Sanitize(name) == name
    requires IsUserName(dots) && Sanitize(dots) == ".." && Sanitize(Sanitize(dots)) == Sanitize(dots)
    ensures Clash(WebshareJob(dir, name), WebshareJob(below, dots)) && Clash(WebshareJob(below, dots), WebshareJob(dir, name))
  {
  }

  /**
   * For instance the file `a` in `/d` and the name ` .. ` in the directory `/d/a/x`: whichever of the two
   * is downloading, the start of the other takes its control file away.
   */
  lemma DotDotExample(cfg: Config, dir: string, name: string, sub: string, dots: string, now: Time)
    requires |dir| == 2 && dir[0] == '/' && dir[1] == 'd'
    requires |name| == 1 && name[0] == 'a' && |sub| == 1 && sub[0] == 'x'
    requires |dots| == 4 && dots[0] == ' ' && dots[1] == '.' && dots[2] == '.' && dots[3] == ' '
    ensures var a, b := WebshareJob(dir, name), WebshareJob(dir + "/" + name + "/" + sub, dots);
            TakesFile(cfg, a, b, now) && TakesFile(cfg, b, a, now)
  {
    BlankedDotDot(dots);
    ExampleClash(dir, name, sub, dots);
    ControlFileTaken(cfg, WebshareJob(dir, name), WebshareJob(dir + "/" + name + "/" + sub, dots), now);
    ControlFileTaken(cfg, WebshareJob(dir + "/" + name + "/" + sub, dots), WebshareJob(dir, name), now);
  }
}
