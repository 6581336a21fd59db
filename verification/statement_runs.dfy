/**
 * Runs at statement level: single statements of the service, of decrypt workers, of any number
 * of claimers and of one runner interleave freely. Purge is not part of these runs.
 */
module StatementRuns {
  import opened Jobs

  type Claimer = nat

  datatype Event =
    | Create(job: Row)
    /** A claimer looks up the lowest claimable row. */
    | Select(claimer: Claimer, now: Time)
    /** It then tries to take the row it saw, which may have moved on. */
    | TryClaim(claimer: Claimer, now: Time)
    /** A retry or resume by a user. */
    | UserRequeue(id: Id)
    /** The runner lists the failed rows that are due, then requeues them one by one. */
    | ListRetryable(now: Time)
    | AutoRequeue(id: Id)
    /** The runner records a failure; it cannot while it works through its list. */
    | Fail(id: Id, code: string, msg: string, retry: Option<Time>)
    /** Any other statement by anybody. */
    | Other(stmt: Stmt)

  /** What has happened to a row so far. */
  datatype History = History(claims: nat, userRequeues: nat, autoRequeues: nat)

  datatype State = State(
    rows: Table,
    nextId: Id,
    seen: map<Claimer, Id>,
    due: set<Id>,
    history: map<Id, History>
  )

  const EMPTY := State(map[], 1, map[], {}, map[])

  predicate IsOther(stmt: Stmt) {
    !stmt.Claim? && !stmt.Requeue? && !stmt.MarkFailed?
  }

  /** The row an insert may create: only the columns an insert names differ from the defaults. */
  predicate IsNewRow(job: Row) {
    job == NewRow(job.source, job.outDir, job.name, job.archivePassword, job.maxAttempts)
  }

  /** One step. An event that cannot happen in `s` changes nothing. */
  ghost function Next(s: State, e: Event): State {
    match e
    case Create(job) =>
      if IsNewRow(job)
      then s.(rows := s.rows[s.nextId := job], nextId := s.nextId + 1,
              history := s.history[s.nextId := History(0, 0, 0)])
      else s
    case Select(c, now) =>
      if id :| IsLowestClaimable(s.rows, now, id) then s.(seen := s.seen[c := id]) else s
    case TryClaim(c, now) =>
      if c in s.seen && s.seen[c] in s.rows && s.rows[s.seen[c]].status == Queued && s.seen[c] in s.history then
        var id, h := s.seen[c], s.history[s.seen[c]];
        s.(rows := Apply(Claim(id, now), s.rows), seen := s.seen - {c},
           history := s.history[id := h.(claims := h.claims + 1)])
      else s.(seen := s.seen - {c})
    case UserRequeue(id) =>
      if id in s.history then
        var h := s.history[id];
        s.(rows := Apply(Requeue(id), s.rows), history := s.history[id := h.(userRequeues := h.userRequeues + 1)])
      else s
    case ListRetryable(now) =>
      s.(due := set id | id in s.rows && Retryable(s.rows[id], now))
    case AutoRequeue(id) =>
      if id in s.due && id in s.history then
        var h := s.history[id];
        s.(rows := Apply(Requeue(id), s.rows), due := s.due - {id},
           history := s.history[id := h.(autoRequeues := h.autoRequeues + 1)])
      else s
    case Fail(id, code, msg, retry) =>
      if s.due == {} then s.(rows := Apply(MarkFailed(id, code, msg, retry), s.rows)) else s
    case Other(stmt) =>
      if IsOther(stmt) then s.(rows := Apply(stmt, s.rows)) else s
  }

  ghost function Run(events: seq<Event>): State {
    if events == [] then EMPTY else Next(Run(events[..|events| - 1]), events[|events| - 1])
  }

  // ---------------------------------------------------------------------
  // The invariant, row by row

  /** A queued row holds one claim in reserve. */
  predicate ClaimsCovered(row: Row, h: History) {
    h.claims + (if row.status == Queued then 1 else 0) <= 1 + h.userRequeues + h.autoRequeues
  }

  /** Each automatic requeue is backed by a failure of its own; a row that is due has one in reserve. */
  predicate RetriesBacked(row: Row, h: History, due: bool) {
    && h.autoRequeues <= row.attempts
    && (h.autoRequeues == 0 || h.autoRequeues < row.maxAttempts)
    && (row.status == Failed ==> h.autoRequeues < row.attempts)
    && (due ==> h.autoRequeues < row.attempts < row.maxAttempts)
  }

  predicate RowOk(row: Row, h: History, due: bool) {
    Pristine(row) && ClaimsCovered(row, h) && RetriesBacked(row, h, due)
  }

  ghost predicate Inv(s: State) {
    && s.history.Keys == s.rows.Keys
    && s.due <= s.rows.Keys
    && (forall id :: id in s.rows ==> id < s.nextId)
    && (forall id :: id in s.rows ==> RowOk(s.rows[id], s.history[id], id in s.due))
  }

  lemma OtherKeepsRow(stmt: Stmt, id: Id, row: Row, h: History, due: bool)
    requires RowOk(row, h, due) && IsOther(stmt)
    ensures RowOk(RowAfter(stmt, id, row), h, due)
  {
    StatementsKeepPristine(stmt, id, row);
    AttemptsOnlyGrow(stmt, id, row);
  }

  lemma FailKeepsRow(stmt: Stmt, id: Id, row: Row, h: History)
    requires RowOk(row, h, false) && stmt.MarkFailed?
    ensures RowOk(RowAfter(stmt, id, row), h, false)
  {
  }

  lemma RequeueKeepsRow(target: Id, id: Id, row: Row, h: History, due: bool)
    requires RowOk(row, h, due)
    ensures id != target ==> RowOk(RowAfter(Requeue(target), id, row), h, due)
    ensures id == target ==>
              RowOk(RowAfter(Requeue(target), id, row), h.(userRequeues := h.userRequeues + 1), due)
    ensures id == target && due ==>
              RowOk(RowAfter(Requeue(target), id, row), h.(autoRequeues := h.autoRequeues + 1), false)
  {
  }

  /** A statement keeps the invariant if it keeps every row within the new bookkeeping. */
  lemma ApplyKeepsInv(s: State, stmt: Stmt, s': State)
    requires Inv(s) && s'.rows == Apply(stmt, s.rows) && s'.nextId == s.nextId
    requires s'.due <= s.rows.Keys && s'.history.Keys == s.rows.Keys
    requires forall id :: id in s.rows ==> RowOk(RowAfter(stmt, id, s.rows[id]), s'.history[id], id in s'.due)
    ensures Inv(s')
  {
    assert s'.rows.Keys == s.rows.Keys;
  }

  lemma RequeueKeepsInv(s: State, e: Event)
    requires Inv(s) && (e.UserRequeue? || e.AutoRequeue?)
    ensures Inv(Next(s, e))
  {
    RequeueIs(s, e);
    if e.id in s.rows && e.UserRequeue? {
      UserRequeueKeepsInv(s, e.id, Next(s, e));
    } else if e.id in s.rows && e.id in s.due {
      AutoRequeueKeepsInv(s, e.id, Next(s, e));
    }
  }

  lemma RequeueIs(s: State, e: Event)
    requires e.UserRequeue? || e.AutoRequeue?
    ensures var rows := Apply(Requeue(e.id), s.rows);
            Next(s, e) == if e.id !in s.history || (e.AutoRequeue? && e.id !in s.due) then s
                          else if e.UserRequeue? then
                            var h := s.history[e.id];
                            s.(rows := rows, history := s.history[e.id := h.(userRequeues := h.userRequeues + 1)])
                          else
                            var h := s.history[e.id];
                            s.(rows := rows, due := s.due - {e.id},
                               history := s.history[e.id := h.(autoRequeues := h.autoRequeues + 1)])
  {
  }

  lemma UserRequeueKeepsInv(s: State, id: Id, s': State)
    requires Inv(s) && id in s.rows
    requires var h := s.history[id];
             s' == s.(rows := Apply(Requeue(id), s.rows), history := s.history[id := h.(userRequeues := h.userRequeues + 1)])
    ensures Inv(s')
  {
    var h := s.history[id];
    RequeueKeepsRow(id, id, s.rows[id], h, id in s.due);
    RequeuedKeepsInv(s, id, h.(userRequeues := h.userRequeues + 1), s.due);
  }

  lemma AutoRequeueKeepsInv(s: State, id: Id, s': State)
    requires Inv(s) && id in s.rows && id in s.due
    requires var h := s.history[id];
             s' == s.(rows := Apply(Requeue(id), s.rows), due := s.due - {id},
                      history := s.history[id := h.(autoRequeues := h.autoRequeues + 1)])
    ensures Inv(s')
  {
    var h := s.history[id];
    RequeueKeepsRow(id, id, s.rows[id], h, id in s.due);
    RequeuedKeepsInv(s, id, h.(autoRequeues := h.autoRequeues + 1), s.due - {id});
  }

  lemma RequeuedKeepsInv(s: State, id: Id, h: History, due: set<Id>)
    requires Inv(s) && id in s.rows && (due == s.due || due == s.due - {id})
    requires RowOk(RowAfter(Requeue(id), id, s.rows[id]), h, id in due)
    ensures Inv(s.(rows := Apply(Requeue(id), s.rows), due := due, history := s.history[id := h]))
  {
    var s' := s.(rows := Apply(Requeue(id), s.rows), due := due, history := s.history[id := h]);
    forall x | x in s.rows
      ensures RowOk(RowAfter(Requeue(id), x, s.rows[x]), s'.history[x], x in s'.due)
    {
      RequeueKeepsRow(id, x, s.rows[x], s.history[x], x in s.due);
    }
    ApplyKeepsInv(s, Requeue(id), s');
  }

  lemma StatementKeepsInv(s: State, e: Event)
    requires Inv(s) && (e.Fail? || e.Other?)
    ensures Inv(Next(s, e))
  {
    var stmt := if e.Fail? then MarkFailed(e.id, e.code, e.msg, e.retry) else e.stmt;
    if (e.Fail? && s.due == {}) || (e.Other? && IsOther(stmt)) {
      forall id | id in s.rows
        ensures RowOk(RowAfter(stmt, id, s.rows[id]), s.history[id], id in s.due)
      {
        if e.Fail? {
          FailKeepsRow(stmt, id, s.rows[id], s.history[id]);
        } else {
          OtherKeepsRow(stmt, id, s.rows[id], s.history[id], id in s.due);
        }
      }
      ApplyKeepsInv(s, stmt, Next(s, e));
    }
  }

  lemma ClaimKeepsInv(s: State, c: Claimer, now: Time)
    requires Inv(s)
    ensures Inv(Next(s, TryClaim(c, now)))
  {
    if c in s.seen && s.seen[c] in s.rows && s.rows[s.seen[c]].status == Queued {
      ApplyKeepsInv(s, Claim(s.seen[c], now), Next(s, TryClaim(c, now)));
    }
  }

  lemma NextKeepsInv(s: State, e: Event)
    requires Inv(s)
    ensures Inv(Next(s, e))
  {
    match e {
      case TryClaim(c, now) => ClaimKeepsInv(s, c, now);
      case UserRequeue(_) => RequeueKeepsInv(s, e);
      case AutoRequeue(_) => RequeueKeepsInv(s, e);
      case Fail(_, _, _, _) => StatementKeepsInv(s, e);
      case Other(_) => StatementKeepsInv(s, e);
      case Select(_, _) =>
      case Create(_) =>
      case ListRetryable(_) =>
    }
  }

  lemma {:induction false} RunKeepsInv(events: seq<Event>)
    ensures Inv(Run(events))
  {
    if events != [] {
      RunKeepsInv(events[..|events| - 1]);
      NextKeepsInv(Run(events[..|events| - 1]), events[|events| - 1]);
    }
  }

  // ---------------------------------------------------------------------
  // The theorems

  /** No row is claimed more often than it was offered, however many claimers race. */
  lemma ExclusiveClaim(events: seq<Event>, id: Id)
    requires id in Run(events).rows
    ensures id in Run(events).history
    ensures var h := Run(events).history[id];
            h.claims <= 1 + h.userRequeues + h.autoRequeues
  {
    RunKeepsInv(events);
  }

  /**
   * Whatever users do in between, a row is requeued automatically at most max_attempts - 1 times,
   * and without manual requeues it is claimed at most max_attempts times.
   */
  lemma BoundedAutomaticRetry(events: seq<Event>, id: Id)
    requires id in Run(events).rows && 1 <= Run(events).rows[id].maxAttempts
    ensures id in Run(events).history
    ensures Run(events).history[id].autoRequeues <= Run(events).rows[id].maxAttempts - 1
    ensures Run(events).history[id].userRequeues == 0 ==>
              Run(events).history[id].claims <= Run(events).rows[id].maxAttempts
  {
    RunKeepsInv(events);
  }

  /** In every reachable state the filter of the claim query picks the lowest queued row. */
  lemma ClaimFilterCollapses(events: seq<Event>, now: Time, id: Id)
    ensures IsLowestClaimable(Run(events).rows, now, id) <==>
              && id in Run(events).rows && Run(events).rows[id].status == Queued
              && forall other :: other in Run(events).rows && Run(events).rows[other].status == Queued ==> id <= other
  {
    RunKeepsInv(events);
    var t := Run(events).rows;
    assert forall other :: other in t ==> (Claimable(t[other], now) <==> t[other].status == Queued);
  }

  /** Queued, resolving and deleted rows look as the rest of the code expects, in every reachable state. */
  lemma ReachableRowsPristine(events: seq<Event>, id: Id)
    requires id in Run(events).rows
    ensures Pristine(Run(events).rows[id])
  {
    RunKeepsInv(events);
  }
}
