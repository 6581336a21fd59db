/** The store: job rows changed in place, one SQL statement per method. */
module StoreModule {
  import opened Text
  import opened Jobs

  /** The ids of the rows that pass `pick`, each once, in the order of `key`. */
  ghost predicate IsListing(t: Table, pick: Row -> bool, key: (Id, Row) -> int, ids: seq<Id>) {
    && (forall id :: id in ids <==> id in t && pick(t[id]))
    && (forall i, j :: 0 <= i < j < |ids| ==> ids[i] != ids[j] && key(ids[i], t[ids[i]]) <= key(ids[j], t[ids[j]]))
  }

  lemma {:induction false} ListingSize(ids: seq<Id>, s: set<Id>)
    requires forall i, j :: 0 <= i < j < |ids| ==> ids[i] != ids[j]
    requires forall id :: id in ids <==> id in s
    ensures |ids| == |s|
  {
    if ids == [] {
      assert s == {};
    } else {
      var front, last := ids[..|ids| - 1], ids[|ids| - 1];
      assert forall id :: id in ids <==> id in front || id == last;
      assert last !in front;
      ListingSize(front, s - {last});
    }
  }

  function ById(id: Id, row: Row): int {
    id
  }

  function ByIdDescending(id: Id, row: Row): int {
    0 - id
  }

  function ByRetryTime(id: Id, row: Row): int {
    if row.nextRetryAt.Some? then row.nextRetryAt.value else 0
  }

  lemma {:induction false} SmallestExists(t: Table, ids: set<Id>, key: (Id, Row) -> int)
    requires ids != {} && ids <= t.Keys
    ensures exists m :: m in ids && forall x :: x in ids ==> key(m, t[m]) <= key(x, t[x])
    decreases |ids|
  {
    var some :| some in ids;
    var rest := ids - {some};
    if rest == {} {
      assert ids == {some};
    } else {
      SmallestExists(t, rest, key);
      var m :| m in rest && forall x :: x in rest ==> key(m, t[m]) <= key(x, t[x]);
      var best := if key(some, t[some]) <= key(m, t[m]) then some else m;
      assert best in ids && forall x :: x in ids ==> key(best, t[best]) <= key(x, t[x]);
    }
  }

  /** `ids` lists the smallest rows that pass, and `rest` holds the others. */
  ghost predicate Picked(t: Table, pick: Row -> bool, key: (Id, Row) -> int, ids: seq<Id>, rest: set<Id>) {
    && (forall id :: id in ids ==> id !in rest)
    && (forall id :: (id in ids || id in rest) <==> (id in t && pick(t[id])))
    && (forall i, j :: 0 <= i < j < |ids| ==> ids[i] != ids[j] && key(ids[i], t[ids[i]]) <= key(ids[j], t[ids[j]]))
    && (forall id, x :: id in ids && x in rest ==> key(id, t[id]) <= key(x, t[x]))
  }

  lemma PickedSnoc(t: Table, pick: Row -> bool, key: (Id, Row) -> int, ids: seq<Id>, rest: set<Id>, m: Id)
    requires Picked(t, pick, key, ids, rest)
    requires m in rest && forall x :: x in rest ==> key(m, t[m]) <= key(x, t[x])
    ensures Picked(t, pick, key, ids + [m], rest - {m})
  {
    var more := ids + [m];
    assert forall id :: id in more <==> id in ids || id == m;
    forall i, j | 0 <= i < j < |more|
      ensures more[i] != more[j] && key(more[i], t[more[i]]) <= key(more[j], t[more[j]])
    {
      assert more[i] == ids[i] && ids[i] in ids;
      assert j < |ids| ==> more[j] == ids[j];
    }
  }

  /** What the statements of other connections make of the table. */
  ghost function AfterAll(stmts: seq<Stmt>, t: Table): Table {
    if stmts == [] then t else Apply(stmts[|stmts| - 1], AfterAll(stmts[..|stmts| - 1], t))
  }

  ghost function AfterBatches(batches: seq<seq<Stmt>>, t: Table): Table {
    if batches == [] then t else AfterAll(batches[|batches| - 1], AfterBatches(batches[..|batches| - 1], t))
  }

  class Store {
    var rows: Table
    var nextId: Id

    constructor ()
      ensures rows == map[] && nextId == 1
    {
      rows := map[];
      nextId := 1;
    }

    // -------------------------------------------------------------------
    // Queries

    method GetJob(id: Id) returns (job: Option<Row>)
      ensures job == if id in rows then Some(rows[id]) else None
    {
      job := if id in rows then Some(rows[id]) else None;
    }

    /** A query with a filter and an order. */
    method List(pick: Row -> bool, key: (Id, Row) -> int) returns (ids: seq<Id>)
      ensures IsListing(rows, pick, key, ids)
    {
      ids := [];
      var rest := set id | id in rows && pick(rows[id]);
      while rest != {}
        invariant Picked(rows, pick, key, ids, rest)
        decreases |rest|
      {
        SmallestExists(rows, rest, key);
        var m :| m in rest && forall x :: x in rest ==> key(m, rows[m]) <= key(x, rows[x]);
        PickedSnoc(rows, pick, key, ids, rest, m);
        ids := ids + [m];
        rest := rest - {m};
      }
    }

    /** Jobs waiting for post-processing, oldest first, at most `limit` of them unless it is zero. */
    method ListPendingPostprocess(limit: nat) returns (ids: seq<Id>)
      ensures exists all :: IsListing(rows, PendingPostprocess, ById, all)
                && ids == if 0 < limit < |all| then all[..limit] else all
      ensures forall i, j :: 0 <= i < j < |ids| ==> ids[i] < ids[j]
    {
      var all := List(PendingPostprocess, ById);
      ids := if 0 < limit < |all| then all[..limit] else all;
    }

    // -------------------------------------------------------------------
    // Statements

    method CreateJob(source: Source, outDir: string, name: string, password: Option<string>, maxAttempts: int)
      returns (id: Id)
      modifies this
      ensures id == old(nextId) && nextId == old(nextId) + 1
      ensures rows == old(rows)[id := NewRow(source, outDir, name, password, maxAttempts)]
    {
      id := nextId;
      rows := rows[id := NewRow(source, outDir, name, password, maxAttempts)];
      nextId := nextId + 1;
    }

    method UpdateResolving(id: Id, url: string, file: string, size: int)
      modifies `rows
      ensures rows == Apply(Stmt.UpdateResolving(id, url, file, size), old(rows))
    {
      ApplyToOne(Stmt.UpdateResolving(id, url, file, size), rows);
      if id in rows {
        rows := rows[id := rows[id].(resolvedUrl := Some(url), filename := Some(file), sizeBytes := Some(size))];
      }
    }

    method MarkDownloading(id: Id, gid: Gid)
      modifies `rows
      ensures rows == Apply(Stmt.MarkDownloading(id, gid), old(rows))
    {
      ApplyToOne(Stmt.MarkDownloading(id, gid), rows);
      if id in rows {
        rows := rows[id := rows[id].(status := Downloading, gid := Some(gid))];
      }
    }

    method MarkPaused(id: Id)
      modifies `rows
      ensures rows == Apply(Stmt.MarkPaused(id), old(rows))
    {
      ApplyToOne(Stmt.MarkPaused(id), rows);
      if id in rows {
        rows := rows[id := rows[id].(status := Paused)];
      }
    }

    method MarkDownloadingStatus(id: Id)
      modifies `rows
      ensures rows == Apply(Stmt.MarkDownloadingStatus(id), old(rows))
    {
      ApplyToOne(Stmt.MarkDownloadingStatus(id), rows);
      if id in rows {
        rows := rows[id := rows[id].(status := Downloading)];
      }
    }

    method UpdateProgress(id: Id, bytes: int, finished: bool, speed: int, eta: int)
      modifies `rows
      ensures rows == Apply(Stmt.UpdateProgress(id, bytes, finished, speed, eta), old(rows))
    {
      ApplyToOne(Stmt.UpdateProgress(id, bytes, finished, speed, eta), rows);
      if id in rows {
        var status := if finished then Completed else Downloading;
        rows := rows[id := rows[id].(bytesDone := bytes, status := status, downloadSpeed := speed, etaSeconds := Some(eta))];
      }
    }

    method MarkCompleted(id: Id, now: Time)
      modifies `rows
      ensures rows == Apply(Stmt.MarkCompleted(id, now), old(rows))
    {
      ApplyToOne(Stmt.MarkCompleted(id, now), rows);
      if id in rows {
        var row := rows[id];
        if row.bytesDone == 0 && row.sizeBytes.Some? {
          row := row.(bytesDone := row.sizeBytes.value);
        }
        rows := rows[id := row.(status := Completed, downloadSpeed := 0, etaSeconds := None, error := None,
                                errorCode := None, completedAt := Some(now))];
      }
    }

    method MarkDecrypting(id: Id, bytes: int)
      modifies `rows
      ensures rows == Apply(Stmt.MarkDecrypting(id, bytes), old(rows))
    {
      ApplyToOne(Stmt.MarkDecrypting(id, bytes), rows);
      if id in rows {
        var row := rows[id];
        if bytes > 0 {
          row := row.(bytesDone := bytes);
        }
        rows := rows[id := row.(status := Decrypting, downloadSpeed := 0, etaSeconds := None, error := None,
                                errorCode := None)];
      }
    }

    /** Unlike `MarkDecrypting` this keeps the error of the attempt that failed. */
    method MarkDecryptingRetry(id: Id, bytes: int)
      modifies `rows
      ensures rows == Apply(Stmt.MarkDecryptingRetry(id, bytes), old(rows))
    {
      ApplyToOne(Stmt.MarkDecryptingRetry(id, bytes), rows);
      if id in rows {
        var row := rows[id];
        if bytes > 0 {
          row := row.(bytesDone := bytes);
        }
        rows := rows[id := row.(status := Decrypting, downloadSpeed := 0, etaSeconds := None)];
      }
    }

    method MarkPostprocessFailed(id: Id, msg: string, code: string, now: Time)
      modifies `rows
      ensures rows == Apply(Stmt.MarkPostprocessFailed(id, msg, code, now), old(rows))
    {
      ApplyToOne(Stmt.MarkPostprocessFailed(id, msg, code, now), rows);
      if id in rows {
        var stored := if Trimmed(code) == "" then "archive_decrypt_failed" else code;
        var row := rows[id];
        if row.completedAt.None? {
          row := row.(completedAt := Some(now));
        }
        rows := rows[id := row.(status := DecryptFailed, error := Some(msg), errorCode := Some(stored),
                                downloadSpeed := 0, etaSeconds := None)];
      }
    }

    method ClearArchivePassword(id: Id)
      modifies `rows
      ensures rows == Apply(Stmt.ClearArchivePassword(id), old(rows))
    {
      ApplyToOne(Stmt.ClearArchivePassword(id), rows);
      if id in rows {
        rows := rows[id := rows[id].(archivePassword := None)];
      }
    }

    method MarkFailed(id: Id, code: string, msg: string, retry: Option<Time>)
      modifies `rows
      ensures rows == Apply(Stmt.MarkFailed(id, code, msg, retry), old(rows))
    {
      ApplyToOne(Stmt.MarkFailed(id, code, msg, retry), rows);
      if id in rows {
        var row := rows[id];
        rows := rows[id := row.(status := Failed, error := Some(msg), errorCode := Some(code), downloadSpeed := 0,
                                etaSeconds := None, nextRetryAt := retry, attempts := row.attempts + 1)];
      }
    }

    method Requeue(id: Id)
      modifies `rows
      ensures rows == Apply(Stmt.Requeue(id), old(rows))
    {
      ApplyToOne(Stmt.Requeue(id), rows);
      if id in rows {
        var row := rows[id];
        var renewed := NewRow(row.source, row.outDir, row.name, row.archivePassword, row.maxAttempts);
        rows := rows[id := renewed.(attempts := row.attempts)];
      }
    }

    method Remove(id: Id, now: Time)
      modifies `rows
      ensures rows == Apply(Stmt.Remove(id, now), old(rows))
    {
      ApplyToOne(Stmt.Remove(id, now), rows);
      if id in rows {
        rows := rows[id := rows[id].(status := Deleted, deletedAt := Some(now))];
      }
    }

    method ClearCompleted(now: Time)
      modifies `rows
      ensures rows == Apply(Stmt.ClearCompleted(now), old(rows))
    {
      rows := map id | id in rows ::
        if rows[id].status == Completed then rows[id].(status := Deleted, deletedAt := Some(now)) else rows[id];
    }

    // -------------------------------------------------------------------
    // The claim

    /** A batch of statements by other connections. */
    method Interfere(batch: seq<Stmt>)
      modifies `rows
      ensures rows == AfterAll(batch, old(rows))
    {
      for i := 0 to |batch|
        invariant rows == AfterAll(batch[..i], old(rows))
      {
        rows := Apply(batch[i], rows);
        assert batch[..i + 1][..i] == batch[..i];
      }
      assert batch[..|batch|] == batch;
    }

    /**
     * Takes the lowest claimable row. Between the lookup and the conditional update others may
     * write, one batch per attempt; if the row is no longer queued, the claim starts over.
     */
    method ClaimNextQueued(now: Time, others: seq<seq<Stmt>>) returns (claimed: Option<Id>, used: nat)
      modifies `rows
      ensures used <= |others|
      ensures claimed.Some? ==>
                var before := AfterBatches(others[..used], old(rows));
                && claimed.value in before && before[claimed.value].status == Queued
                && rows == Apply(Claim(claimed.value, now), before)
                && rows[claimed.value].status == Resolving
      ensures claimed.None? ==>
                && rows == AfterBatches(others[..used], old(rows))
                && forall id :: id in rows ==> !Claimable(rows[id], now)
      ensures others == [] && claimed.Some? ==>
                && Claimable(old(rows)[claimed.value], now)
                && forall id :: id in old(rows) && Claimable(old(rows)[id], now) ==> claimed.value <= id
      ensures forall id :: id in rows ==>
                (Claimable(rows[id], now) <==>
                   && rows[id].status == Queued && rows[id].deletedAt.None?
                   && (rows[id].nextRetryAt.None? || rows[id].nextRetryAt.value <= now))
    {
      used := 0;
      assert others[..0] == [];
      while true
        invariant used <= |others| && rows == AfterBatches(others[..used], old(rows))
        decreases |others| - used
      {
        var ids := List((row: Row) => Claimable(row, now), ById);
        if ids == [] {
          return None, used;
        }
        var id := ids[0];
        if used < |others| {
          Interfere(others[used]);
          assert others[..used + 1][..used] == others[..used];
          used := used + 1;
          if id !in rows || rows[id].status != Queued {
            continue;
          }
        }
        ApplyToOne(Claim(id, now), rows);
        rows := rows[id := rows[id].(status := Resolving, startedAt := Some(now))];
        return Some(id), used;
      }
    }
  }
}
