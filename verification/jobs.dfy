/** Job rows and what each statement of the store does to a row. */
module Jobs {
  import opened Text

  datatype Option<+T> = None | Some(value: T)

  datatype Status =
    | Queued | Resolving | Downloading | Paused | Decrypting
    | DecryptFailed | Completed | Failed | Deleted

  type Id = nat

  /** A task identifier of the download engine. */
  type Gid = nat

  type Time = int

  /** What site and URL say about a job; both are fixed when the job is created. */
  datatype Source = Source(mega: bool, webshare: bool)

  datatype Row = Row(
    source: Source,
    outDir: string,
    name: string,
    archivePassword: Option<string>,
    resolvedUrl: Option<string>,
    filename: Option<string>,
    sizeBytes: Option<int>,
    bytesDone: int,
    downloadSpeed: int,
    etaSeconds: Option<int>,
    status: Status,
    error: Option<string>,
    errorCode: Option<string>,
    gid: Option<Gid>,
    attempts: nat,
    maxAttempts: int,
    nextRetryAt: Option<Time>,
    startedAt: Option<Time>,
    completedAt: Option<Time>,
    deletedAt: Option<Time>
  )

  type Table = map<Id, Row>

  /** The row that an insert creates; every other column takes its default. */
  function NewRow(source: Source, outDir: string, name: string, password: Option<string>, maxAttempts: int): Row {
    Row(source, outDir, name, password, None, None, None, 0, 0, None, Queued, None, None, None,
        0, maxAttempts, None, None, None, None)
  }

  /** The statements that change existing rows. */
  datatype Stmt =
    | Claim(id: Id, now: Time)
    | UpdateResolving(id: Id, url: string, file: string, size: int)
    | MarkDownloading(id: Id, task: Gid)
    | MarkPaused(id: Id)
    | MarkDownloadingStatus(id: Id)
    | UpdateProgress(id: Id, bytes: int, finished: bool, speed: int, eta: int)
    | MarkCompleted(id: Id, now: Time)
    | MarkDecrypting(id: Id, bytes: int)
    | MarkDecryptingRetry(id: Id, bytes: int)
    | MarkPostprocessFailed(id: Id, msg: string, code: string, now: Time)
    | ClearArchivePassword(id: Id)
    | MarkFailed(id: Id, code: string, msg: string, retry: Option<Time>)
    | Requeue(id: Id)
    | Remove(id: Id, now: Time)
    | ClearCompleted(now: Time)

  /** The WHERE clause of a statement. */
  predicate Targets(stmt: Stmt, id: Id, row: Row) {
    match stmt
    case ClearCompleted(_) => row.status == Completed
    case Claim(target, _) => id == target && row.status == Queued
    case _ => id == stmt.id
  }

  /** The SET clause of a statement. */
  function Effect(stmt: Stmt, row: Row): Row {
    match stmt
    case Claim(_, now) => row.(status := Resolving, startedAt := Some(now))
    case UpdateResolving(_, url, file, size) =>
      row.(resolvedUrl := Some(url), filename := Some(file), sizeBytes := Some(size))
    case MarkDownloading(_, task) => row.(status := Downloading, gid := Some(task))
    case MarkPaused(_) => row.(status := Paused)
    case MarkDownloadingStatus(_) => row.(status := Downloading)
    case UpdateProgress(_, bytes, finished, speed, eta) =>
      row.(bytesDone := bytes, status := if finished then Completed else Downloading,
           downloadSpeed := speed, etaSeconds := Some(eta))
    case MarkCompleted(_, now) =>
      row.(status := Completed,
           bytesDone := if row.bytesDone == 0 && row.sizeBytes.Some? then row.sizeBytes.value else row.bytesDone,
           downloadSpeed := 0, etaSeconds := None, error := None, errorCode := None, completedAt := Some(now))
    case MarkDecrypting(_, bytes) =>
      row.(status := Decrypting, bytesDone := if bytes > 0 then bytes else row.bytesDone,
           downloadSpeed := 0, etaSeconds := None, error := None, errorCode := None)
    case MarkDecryptingRetry(_, bytes) =>
      row.(status := Decrypting, bytesDone := if bytes > 0 then bytes else row.bytesDone,
           downloadSpeed := 0, etaSeconds := None)
    case MarkPostprocessFailed(_, msg, code, now) =>
      row.(status := DecryptFailed, error := Some(msg),
           errorCode := Some(if Trimmed(code) == "" then "archive_decrypt_failed" else code),
           downloadSpeed := 0, etaSeconds := None,
           completedAt := if row.completedAt.Some? then row.completedAt else Some(now))
    case ClearArchivePassword(_) => row.(archivePassword := None)
    case MarkFailed(_, code, msg, retry) =>
      row.(status := Failed, error := Some(msg), errorCode := Some(code), downloadSpeed := 0, etaSeconds := None,
           nextRetryAt := retry, attempts := row.attempts + 1)
    case Requeue(_) =>
      row.(status := Queued, error := None, errorCode := None, nextRetryAt := None, deletedAt := None,
           resolvedUrl := None, filename := None, sizeBytes := None, bytesDone := 0, downloadSpeed := 0,
           etaSeconds := None, gid := None, startedAt := None, completedAt := None)
    case Remove(_, now) => row.(status := Deleted, deletedAt := Some(now))
    case ClearCompleted(now) => row.(status := Deleted, deletedAt := Some(now))
  }

  function RowAfter(stmt: Stmt, id: Id, row: Row): Row {
    if Targets(stmt, id, row) then Effect(stmt, row) else row
  }

  /** One statement on the whole table. */
  function Apply(stmt: Stmt, t: Table): Table {
    map id | id in t :: RowAfter(stmt, id, t[id])
  }

  /** A statement about one row touches at most that row. */
  lemma ApplyToOne(stmt: Stmt, t: Table)
    requires !stmt.ClearCompleted?
    ensures Apply(stmt, t)
         == if stmt.id in t && Targets(stmt, stmt.id, t[stmt.id]) then t[stmt.id := Effect(stmt, t[stmt.id])] else t
  {
  }

  predicate IsUpdateOf(stmt: Stmt, id: Id) {
    !stmt.ClearCompleted? && !stmt.Claim? && stmt.id == id
  }

  /** Updates of one row by its id, one after the other. */
  lemma ApplyUpdates(first: Stmt, second: Stmt, t: Table, id: Id)
    requires id in t && IsUpdateOf(first, id) && IsUpdateOf(second, id)
    ensures Apply(first, t) == t[id := Effect(first, t[id])]
    ensures Apply(second, Apply(first, t)) == t[id := Effect(second, Effect(first, t[id]))]
  {
    ApplyToOne(first, t);
    ApplyToOne(second, Apply(first, t));
  }

  // ---------------------------------------------------------------------
  // The filters of the queries

  predicate Visible(row: Row) {
    row.deletedAt.None?
  }

  predicate Claimable(row: Row, now: Time) {
    row.status == Queued && Visible(row) && (row.nextRetryAt.None? || row.nextRetryAt.value <= now)
  }

  /** The row that the select of a claim finds. */
  ghost predicate IsLowestClaimable(t: Table, now: Time, id: Id) {
    && id in t && Claimable(t[id], now)
    && forall other :: other in t && Claimable(t[other], now) ==> id <= other
  }

  predicate Retryable(row: Row, now: Time) {
    && row.status == Failed && Visible(row)
    && row.nextRetryAt.Some? && row.nextRetryAt.value <= now
    && row.attempts < row.maxAttempts
  }

  /** SQL's TRIM strips spaces only. */
  predicate HasPassword(row: Row) {
    row.archivePassword.Some? && exists i :: 0 <= i < |row.archivePassword.value| && row.archivePassword.value[i] != ' '
  }

  predicate PendingPostprocess(row: Row) {
    Visible(row) && (row.status == Decrypting || (row.status == Completed && HasPassword(row)))
  }

  predicate CountsAsDownloading(row: Row) {
    row.status == Downloading && Visible(row)
  }

  // ---------------------------------------------------------------------
  // What every statement keeps

  /** A queued row carries nothing over from an earlier life; a claimed one has no task yet. */
  predicate Pristine(row: Row) {
    && (row.status == Queued ==>
          && row.deletedAt.None? && row.nextRetryAt.None? && row.error.None? && row.errorCode.None?
          && row.gid.None? && row.startedAt.None? && row.completedAt.None? && row.bytesDone == 0)
    && (row.status == Resolving ==> row.gid.None? && row.deletedAt.None?)
    && (row.status == Deleted ==> row.deletedAt.Some?)
  }

  lemma StatementsKeepPristine(stmt: Stmt, id: Id, row: Row)
    requires Pristine(row)
    ensures Pristine(RowAfter(stmt, id, row))
  {
  }

  /** Attempts only grow, and only a recorded failure makes a row `failed`. */
  lemma AttemptsOnlyGrow(stmt: Stmt, id: Id, row: Row)
    ensures row.attempts <= RowAfter(stmt, id, row).attempts
    ensures RowAfter(stmt, id, row).maxAttempts == row.maxAttempts
    ensures RowAfter(stmt, id, row).status == Failed ==>
              row.status == Failed || (stmt.MarkFailed? && RowAfter(stmt, id, row).attempts == row.attempts + 1)
  {
  }
}
