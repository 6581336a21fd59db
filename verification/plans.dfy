/** The plans of the runner, read out in full. */
module Plans {
  import opened Text
  import opened Jobs
  import opened Volumes
  import opened Planning
  import opened QueueSystem
  import opened Multipart

  /** Extraction starts from the first volume of a file if that is another file and exists, else from the file. */
  lemma EntryReadOut(path: string, fileExists: string -> bool)
    ensures var clean := Trimmed(path);
            EntryPath(path, fileExists)
              == if clean != "" && FirstVolume(clean) != clean && fileExists(FirstVolume(clean)) then FirstVolume(clean) else clean
  {
  }

  /** The file of a finished download: the one reported, or else the one its row stands for. */
  function FileOf(row: Row, statusPath: string): string {
    if statusPath != "" then statusPath else ArchivePath(row)
  }

  function SecretOf(row: Row): string {
    if row.archivePassword.Some? then Trimmed(row.archivePassword.value) else ""
  }

  /** The payload of a MEGA job is decrypted, unless it is an archive by name that was sent back with a code. */
  predicate ReadsMega(cfg: Config, row: Row, path: string) {
    && cfg.mega && row.source.mega
    && !(row.status == Decrypting && row.errorCode.Some? && !Blank(row.errorCode.value) && IsArchiveFile(path))
  }

  /** A job is extracted if it has a password or its entry is an archive by name, if that is wanted at all. */
  predicate ReadsArchive(cfg: Config, row: Row, secret: string, entry: string, auto: bool) {
    cfg.archive && (row.status == Decrypting || auto) && (secret != "" || IsArchiveFile(entry))
  }

  /** The task of a plan: the file itself for the MEGA decryptor, its entry and the password for extraction. */
  lemma TasksReadOut(cfg: Config, t: Table, id: Id, statusPath: string, env: Surroundings)
    requires id in t
    ensures var row, plan, path := t[id], PlanFor(cfg, t, id, statusPath, env), FileOf(t[id], statusPath);
            var entry := EntryPath(path, env.fileExists);
            plan.Wait? || plan.Proceed? ==>
              && plan.task.megaPath == path && plan.task.archivePath == entry && plan.task.password == SecretOf(row)
              && plan.task.decryptMega == ReadsMega(cfg, row, path)
              && plan.task.decryptArchive == ReadsArchive(cfg, row, SecretOf(row), entry, env.autoDecrypt)
              && plan.task.payload == Untouched
  {
  }

  /** Which plan it is. */
  lemma PlansReadOut(cfg: Config, t: Table, id: Id, statusPath: string, env: Surroundings)
    requires id in t
    ensures var row, plan, path := t[id], PlanFor(cfg, t, id, statusPath, env), FileOf(t[id], statusPath);
            var entry := EntryPath(path, env.fileExists);
            var mega, extract := ReadsMega(cfg, row, path), ReadsArchive(cfg, row, SecretOf(row), entry, env.autoDecrypt);
            var noPayload, noArchive := mega && Blank(path), extract && Blank(entry);
            && (plan.Skip? <==> !mega && !extract)
            && (plan.Reject? <==> noPayload || noArchive)
            && (plan.Reject? ==> plan.msg == if noPayload then "postprocess failed: missing file path for mega decrypt"
                                             else "postprocess failed: missing file path for archive decrypt")
            && (plan.Wait? <==> !noPayload && !noArchive && extract && VolumeOnItsWay(t, id, row.outDir, entry))
  {
    WaitMeansOnItsWay(t, id, t[id].outDir, EntryPath(FileOf(t[id], statusPath), env.fileExists));
  }

  /** Which jobs a dispatch deals with: decrypting ones, and completed ones with a password if that is wanted. */
  lemma DispatchedReadOut(cfg: Config, c: Core, id: Id, env: Surroundings)
    ensures IsDispatched(cfg, c, id, env) <==>
              && (cfg.mega || cfg.archive) && id in c.rows && c.rows[id].deletedAt.None?
              && (c.rows[id].status == Decrypting
                  || (c.rows[id].status == Completed && c.rows[id].archivePassword.Some?
                      && (exists i :: 0 <= i < |c.rows[id].archivePassword.value| && c.rows[id].archivePassword.value[i] != ' ')
                      && (env.autoDecrypt || (cfg.mega && c.rows[id].source.mega))))
  {
  }

  // ---------------------------------------------------------------------
  // Options of a start

  predicate SaysFalse(text: string) {
    && |text| == 5 && (text[0] == 'f' || text[0] == 'F') && (text[1] == 'a' || text[1] == 'A')
    && (text[2] == 'l' || text[2] == 'L') && (text[3] == 's' || text[3] == 'S') && (text[4] == 'e' || text[4] == 'E')
  }

  lemma LowerFalse(text: string)
    ensures ToLower(text) == "false" <==> SaysFalse(text)
  {
    if ToLower(text) == "false" {
      assert ToLower(text)[0] == 'f' && ToLower(text)[1] == 'a' && ToLower(text)[2] == 'l' && ToLower(text)[3] == 's'
          && ToLower(text)[4] == 'e';
    }
  }

  /** A fresh start is asked for by either option, in any case and with blanks around it. */
  lemma FreshReadOut(options: map<string, string>)
    ensures NeedsFreshStart(options) <==>
              || ("continue" in options && SaysFalse(Trimmed(options["continue"])))
              || ("always-resume" in options && SaysFalse(Trimmed(options["always-resume"])))
  {
    LowerFalse(Trimmed(OptionOf(options, "continue")));
    LowerFalse(Trimmed(OptionOf(options, "always-resume")));
  }

  /** What the resolver asks for goes before directory and name; the user's name goes before the resolver's. */
  lemma OptionsReadOut(row: Row, file: string, extra: map<string, string>, key: string)
    ensures OptionOf(StartOptions(row, file, extra), key)
         == if key in extra && extra[key] != "" then extra[key]
            else if key == "dir" then row.outDir
            else if key == "out" then (if Sanitize(row.name) != "" then Sanitize(row.name) else file)
            else ""
  {
  }
}
