/** What the runner decides about a row: post-processing plans, waiting for siblings, output conflicts. */
module Planning {
  import opened Text
  import opened Jobs
  import opened Volumes

  /** Which of the two decryptors are configured. */
  datatype Config = Config(mega: bool, archive: bool)

  /** What surrounds one decision: the auto-decrypt setting and which files exist. */
  datatype Surroundings = Surroundings(autoDecrypt: bool, fileExists: string -> bool)

  /** How far a decrypt run has got with the MEGA payload. */
  datatype Payload = Untouched | Unlocked | Broken

  datatype Task = Task(megaPath: string, archivePath: string, password: string, decryptMega: bool, decryptArchive: bool,
                       payload: Payload)

  datatype Plan =
    | Skip               // nothing to do after the download
    | Reject(msg: string) // there should be something to do, but the file name is unknown
    | Wait(task: Task)   // other volumes are still on their way
    | Proceed(task: Task)

  function OutputName(row: Row): string {
    if Sanitize(row.name) != "" then Sanitize(row.name)
    else if row.filename.Some? then Sanitize(row.filename.value)
    else ""
  }

  function ArchivePath(row: Row): string {
    if OutputName(row) == "" then "" else Join(row.outDir, OutputName(row))
  }

  /** The file an extraction starts from: the first volume, provided that it is there. */
  function EntryPath(path: string, fileExists: string -> bool): string {
    var clean := Trimmed(path);
    if clean == "" then clean
    else
      var first := FirstVolume(clean);
      if first != clean && fileExists(first) then first else clean
  }

  function CodeOf(row: Row): string {
    if row.errorCode.Some? then Trimmed(row.errorCode.value) else ""
  }

  /** A retried archive failure must not decrypt the MEGA payload again. */
  predicate OpensPayload(cfg: Config, row: Row, archive: bool) {
    cfg.mega && row.source.mega && !(row.status == Decrypting && archive && CodeOf(row) != "")
  }

  predicate ShouldDecryptMega(cfg: Config, row: Row, path: string) {
    OpensPayload(cfg, row, IsArchiveFile(path))
  }

  predicate ShouldDecryptArchive(cfg: Config, row: Row, path: string, password: string, auto: bool) {
    cfg.archive && (row.status == Decrypting || auto) && (password != "" || IsArchiveFile(path))
  }

  predicate SiblingPending(status: Status) {
    status == Queued || status == Resolving || status == Downloading || status == Paused
  }

  function RowKey(row: Row): (string, bool) {
    GroupKey(ArchivePath(row))
  }

  /** The other visible jobs in `outDir` with the given key that have not been downloaded yet. */
  ghost function Matching(t: Table, id: Id, outDir: string, key: string, keyOf: Row -> (string, bool)): set<Id> {
    set other | other in t && other != id && t[other].deletedAt.None? && t[other].outDir == outDir
                && keyOf(t[other]).0 == key
                && (t[other].status == Queued || t[other].status == Resolving
                    || t[other].status == Downloading || t[other].status == Paused)
  }

  /** The other volumes of the archive at `path` that are still on their way. */
  ghost function PendingSiblings(t: Table, id: Id, outDir: string, path: string): set<Id> {
    Matching(t, id, outDir, GroupKey(path).0, RowKey)
  }

  /** The rule behind the wait scan, stated plainly. */
  ghost predicate MustWait(t: Table, id: Id, outDir: string, path: string) {
    GroupKey(path).0 != "" && PendingSiblings(t, id, outDir, path) != {}
  }

  ghost function PlanFor(cfg: Config, t: Table, id: Id, statusPath: string, env: Surroundings): Plan
    requires id in t
  {
    var row := t[id];
    var password := if row.archivePassword.Some? then Trimmed(row.archivePassword.value) else "";
    var download := if statusPath != "" then statusPath else ArchivePath(row);
    var entry := EntryPath(download, env.fileExists);
    var task := Task(download, entry, password,
                     ShouldDecryptMega(cfg, row, download),
                     ShouldDecryptArchive(cfg, row, entry, password, env.autoDecrypt), Untouched);
    if !task.decryptMega && !task.decryptArchive then Skip
    else if task.decryptMega && Blank(download) then Reject("postprocess failed: missing file path for mega decrypt")
    else if task.decryptArchive && Blank(entry) then Reject("postprocess failed: missing file path for archive decrypt")
    else if task.decryptArchive && MustWait(t, id, row.outDir, entry) then Wait(task)
    else Proceed(task)
  }

  // ---------------------------------------------------------------------
  // The wait scan as the runner performs it

  ghost predicate ListsVisible(t: Table, ids: seq<Id>) {
    && (forall i, j :: 0 <= i < j < |ids| ==> ids[i] != ids[j])
    && (forall id :: id in ids <==> id in t && Visible(t[id]))
  }

  /**
   * Counts the volumes still on their way. The flags that record whether the group is known to be
   * multi-volume never change the answer.
   */
  method ArchiveDecryptWait(t: Table, ids: seq<Id>, id: Id, outDir: string, path: string) returns (parts: nat)
    requires ListsVisible(t, ids)
    ensures parts == if GroupKey(path).0 == "" then 0 else |PendingSiblings(t, id, outDir, path)|
    ensures parts > 0 <==> MustWait(t, id, outDir, path)
    ensures parts > 0 <==>
              && GroupKey(path).0 != ""
              && exists other :: other in t && other != id && t[other].deletedAt.None? && t[other].outDir == outDir
                   && GroupKey(ArchivePath(t[other])).0 == GroupKey(path).0
                   && (t[other].status == Queued || t[other].status == Resolving
                       || t[other].status == Downloading || t[other].status == Paused)
  {
    WaitReadOut(t, id, outDir, path);
    var group := GroupKey(path);
    if group.0 == "" {
      return 0;
    }
    parts := ScanForParts(t, ids, id, outDir, group, RowKey);
  }

  /** The wait rule in full. */
  lemma WaitReadOut(t: Table, id: Id, outDir: string, path: string)
    ensures MustWait(t, id, outDir, path) <==>
              && GroupKey(path).0 != ""
              && exists other :: other in t && other != id && t[other].deletedAt.None? && t[other].outDir == outDir
                   && GroupKey(ArchivePath(t[other])).0 == GroupKey(path).0
                   && (t[other].status == Queued || t[other].status == Resolving
                       || t[other].status == Downloading || t[other].status == Paused)
  {
    assert forall other :: other in t ==> RowKey(t[other]) == GroupKey(ArchivePath(t[other]));
    MatchReadOut(t, id, outDir, GroupKey(path).0, RowKey);
  }

  lemma MatchReadOut(t: Table, id: Id, outDir: string, key: string, keyOf: Row -> (string, bool))
    ensures Matching(t, id, outDir, key, keyOf) != {} <==>
              exists other :: other in t && other != id && t[other].deletedAt.None? && t[other].outDir == outDir
                && keyOf(t[other]).0 == key
                && (t[other].status == Queued || t[other].status == Resolving
                    || t[other].status == Downloading || t[other].status == Paused)
  {
    var all := Matching(t, id, outDir, key, keyOf);
    if all != {} {
      var other :| other in all;
    }
    forall other | other in t && other != id && t[other].deletedAt.None? && t[other].outDir == outDir
                   && keyOf(t[other]).0 == key
                   && (t[other].status == Queued || t[other].status == Resolving
                       || t[other].status == Downloading || t[other].status == Paused)
      ensures all != {}
    {
      assert other in all;
    }
  }

  method ScanForParts(t: Table, ids: seq<Id>, id: Id, outDir: string, group: (string, bool),
                      keyOf: Row -> (string, bool))
    returns (parts: nat)
    requires ListsVisible(t, ids) && group.0 != ""
    ensures parts == |Matching(t, id, outDir, group.0, keyOf)|
  {
    var groupExplicit, seenSibling, pendingParts := group.1, false, 0;
    ghost var all := Matching(t, id, outDir, group.0, keyOf);
    assert ids[..0] == [];
    for i := 0 to |ids|
      invariant pendingParts == |Among(all, ids[..i])|
      invariant pendingParts > 0 ==> seenSibling
    {
      AmongSnoc(all, ids, i);
      var other := t[ids[i]];
      var otherKey := keyOf(other);
      if ids[i] == id || other.outDir != outDir || otherKey.0 == "" || otherKey.0 != group.0 {
        continue;
      }
      seenSibling := true;
      groupExplicit := groupExplicit || otherKey.1;
      if SiblingPending(other.status) {
        pendingParts := pendingParts + 1;
      }
    }
    assert Among(all, ids[..|ids|]) == all;
    return if !groupExplicit && !seenSibling then 0 else pendingParts;
  }

  ghost function Among(all: set<Id>, ids: seq<Id>): set<Id> {
    set x | x in all && x in ids
  }

  lemma AmongSnoc(all: set<Id>, ids: seq<Id>, i: nat)
    requires i < |ids| && forall j, k :: 0 <= j < k < |ids| ==> ids[j] != ids[k]
    ensures |Among(all, ids[..i + 1])| == |Among(all, ids[..i])| + (if ids[i] in all then 1 else 0)
  {
    assert ids[i] !in ids[..i];
    assert ids[..i + 1] == ids[..i] + [ids[i]];
    assert Among(all, ids[..i + 1]) == if ids[i] in all then Among(all, ids[..i]) + {ids[i]} else Among(all, ids[..i]);
  }

  // ---------------------------------------------------------------------
  // Control files of the download engine

  predicate ConflictStatus(status: Status) {
    SiblingPending(status) || status == Decrypting
  }

  /** `row` is at work on the file `outName` in `outDir`. */
  predicate WorksOn(row: Row, outDir: string, outName: string, nameOf: Row -> string) {
    row.outDir == outDir && ConflictStatus(row.status) && nameOf(row) == outName
  }

  /** Some other visible job that is still at work writes to the same file. */
  ghost predicate OutputInUse(t: Table, id: Id, outDir: string, outName: string, nameOf: Row -> string) {
    exists other :: other in t && other != id && t[other].deletedAt.None?
                 && t[other].outDir == outDir && nameOf(t[other]) == outName
                 && (t[other].status == Queued || t[other].status == Resolving || t[other].status == Downloading
                     || t[other].status == Paused || t[other].status == Decrypting)
  }

  method HasActiveOutputConflict(t: Table, ids: seq<Id>, id: Id, outDir: string, outName: string, nameOf: Row -> string)
    returns (conflict: bool)
    requires ListsVisible(t, ids)
    ensures conflict == OutputInUse(t, id, outDir, outName, nameOf)
  {
    for i := 0 to |ids|
      invariant forall k :: 0 <= k < i ==> ids[k] == id || !WorksOn(t[ids[k]], outDir, outName, nameOf)
    {
      if ids[i] != id && WorksOn(t[ids[i]], outDir, outName, nameOf) {
        return true;
      }
    }
    return false;
  }

  function OptionOf(options: map<string, string>, key: string): string {
    if key in options then options[key] else ""
  }

  predicate NeedsFreshStart(options: map<string, string>) {
    || ToLower(Trimmed(OptionOf(options, "continue"))) == "false"
    || ToLower(Trimmed(OptionOf(options, "always-resume"))) == "false"
  }

  function ControlPath(outDir: string, outName: string): string {
    Join(outDir, outName) + ".aria2"
  }

  /** The options of a start: directory and name, then whatever the resolver asks for. */
  function StartOptions(row: Row, file: string, extra: map<string, string>): map<string, string> {
    var name := if Sanitize(row.name) != "" then Sanitize(row.name) else file;
    var own := if name != "" then map["dir" := row.outDir, "out" := name] else map["dir" := row.outDir];
    own + map key | key in extra && extra[key] != "" :: extra[key]
  }

  /** The control file is removed exactly when a fresh start is asked for and nobody else writes that file. */
  method PrepareOutputForStart(t: Table, ids: seq<Id>, id: Id, outDir: string, outName: string,
                               options: map<string, string>, removeError: Option<string>, controlFiles: set<string>)
    returns (left: set<string>, error: Option<string>)
    requires ListsVisible(t, ids) && outName != ""
    ensures var removes := NeedsFreshStart(options)
                           && forall other :: (other in t && other != id && t[other].deletedAt.None?
                                               && t[other].outDir == outDir && OutputName(t[other]) == outName) ==>
                                  t[other].status != Queued && t[other].status != Resolving && t[other].status != Downloading
                                  && t[other].status != Paused && t[other].status != Decrypting;
            && removes == (NeedsFreshStart(options) && !OutputInUse(t, id, outDir, outName, OutputName))
            && error == (if removes then removeError else None)
            && left == if removes && removeError.None? then controlFiles - {Join(outDir, outName) + ".aria2"} else controlFiles
  {
    if !NeedsFreshStart(options) {
      return controlFiles, None;
    }
    var conflict := HasActiveOutputConflict(t, ids, id, outDir, outName, OutputName);
    if conflict {
      return controlFiles, None;
    }
    if removeError.Some? {
      return controlFiles, removeError;
    }
    return controlFiles - {ControlPath(outDir, outName)}, None;
  }
}
