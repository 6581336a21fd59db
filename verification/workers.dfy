/**
 * The protocol of the decrypt workers: a map of pending jobs under a mutex and a channel of tokens.
 * Every atomic action of every goroutine is a step of its own, so all interleavings are covered.
 */
module Workers {
  import opened Jobs

  type ThreadId = nat

  /** Where a goroutine stands, from the marking of its job to its end. */
  datatype Place =
    | Marked      // the job is marked, the goroutine not started yet
    | Running     // started, about to ask for the semaphore
    | Waiting     // waiting for a token or for cancellation
    | Cancelled   // gave up waiting, the mark still to be taken off
    | Working     // has a token
    | Unmarked    // took the mark off, about to give the token back
    | Over

  datatype Thread = Thread(job: Id, place: Place)

  /** The channel: its capacity and how many tokens are in it. */
  datatype Semaphore = Semaphore(capacity: nat, tokens: nat)

  datatype State = State(
    pending: set<Id>,
    threads: map<ThreadId, Thread>,
    nextThread: ThreadId,
    sem: Option<Semaphore>,
    made: nat             // how many channels have been made
  )

  datatype Action =
    | Mark(job: Id)
    | Spawn(thread: ThreadId)
    | FetchSemaphore(thread: ThreadId, concurrency: int)
    | TakeToken(thread: ThreadId)
    | Cancel(thread: ThreadId)
    | UnmarkCancelled(thread: ThreadId)
    | UnmarkFinished(thread: ThreadId)
    | Release(thread: ThreadId)

  const INITIAL := State({}, map[], 0, None, 0)

  predicate IsAt(s: State, thread: ThreadId, place: Place) {
    thread in s.threads && s.threads[thread].place == place
  }

  function Moved(s: State, thread: ThreadId, place: Place): map<ThreadId, Thread>
    requires thread in s.threads
  {
    s.threads[thread := s.threads[thread].(place := place)]
  }

  /** The channel, made full on first use. */
  function SemaphoreFor(s: State, concurrency: int): Semaphore {
    if s.sem.Some? then s.sem.value
    else if concurrency > 0 then Semaphore(concurrency, concurrency)
    else Semaphore(1, 1)
  }

  /** One action. An action that is not enabled, such as a send to a full channel, does not happen. */
  function Next(s: State, a: Action): State {
    match a
    case Mark(job) =>
      if job in s.pending then s
      else s.(pending := s.pending + {job}, nextThread := s.nextThread + 1,
              threads := s.threads[s.nextThread := Thread(job, Marked)])
    case Spawn(t) =>
      if IsAt(s, t, Marked) then s.(threads := Moved(s, t, Running)) else s
    case FetchSemaphore(t, concurrency) =>
      if IsAt(s, t, Running)
      then s.(threads := Moved(s, t, Waiting), sem := Some(SemaphoreFor(s, concurrency)),
              made := if s.sem.Some? then s.made else s.made + 1)
      else s
    case TakeToken(t) =>
      if IsAt(s, t, Waiting) && s.sem.Some? && s.sem.value.tokens > 0
      then s.(threads := Moved(s, t, Working), sem := Some(s.sem.value.(tokens := s.sem.value.tokens - 1)))
      else s
    case Cancel(t) =>
      if IsAt(s, t, Waiting) then s.(threads := Moved(s, t, Cancelled)) else s
    case UnmarkCancelled(t) =>
      if IsAt(s, t, Cancelled) then s.(threads := Moved(s, t, Over), pending := s.pending - {s.threads[t].job}) else s
    case UnmarkFinished(t) =>
      if IsAt(s, t, Working) then s.(threads := Moved(s, t, Unmarked), pending := s.pending - {s.threads[t].job}) else s
    case Release(t) =>
      if CanRelease(s, t)
      then s.(threads := Moved(s, t, Over), sem := Some(s.sem.value.(tokens := s.sem.value.tokens + 1)))
      else s
  }

  /** A send to the channel goes through only if the channel is not full. */
  predicate CanRelease(s: State, t: ThreadId) {
    IsAt(s, t, Unmarked) && s.sem.Some? && s.sem.value.tokens < s.sem.value.capacity
  }

  function Run(actions: seq<Action>): State {
    if actions == [] then INITIAL else Next(Run(actions[..|actions| - 1]), actions[|actions| - 1])
  }

  // ---------------------------------------------------------------------
  // The invariant

  predicate HasMark(thread: Thread) {
    thread.place != Unmarked && thread.place != Over
  }

  predicate HasToken(thread: Thread) {
    thread.place == Working || thread.place == Unmarked
  }

  ghost function Holders(s: State): set<ThreadId> {
    set t | t in s.threads && HasToken(s.threads[t])
  }

  /** The map holds exactly the jobs with a goroutine that has not finished with them, one goroutine each. */
  ghost predicate MarksMatch(s: State) {
    && (forall t :: t in s.threads && HasMark(s.threads[t]) ==> s.threads[t].job in s.pending)
    && (forall job :: job in s.pending ==> exists t :: t in s.threads && HasMark(s.threads[t]) && s.threads[t].job == job)
    && (forall t, u :: t in s.threads && u in s.threads && t != u && HasMark(s.threads[t]) && HasMark(s.threads[u]) ==>
          s.threads[t].job != s.threads[u].job)
  }

  /** Tokens in the channel and in hands make up its capacity; the channel was made at most once. */
  ghost predicate TokensMatch(s: State) {
    && s.made == (if s.sem.Some? then 1 else 0)
    && (s.sem.None? ==> |Holders(s)| == 0)
    && (s.sem.Some? ==> 1 <= s.sem.value.capacity && s.sem.value.tokens + |Holders(s)| == s.sem.value.capacity)
    && (s.sem.None? ==> forall t :: t in s.threads ==> s.threads[t].place == Marked || s.threads[t].place == Running)
  }

  ghost predicate Inv(s: State) {
    && (forall t :: t in s.threads ==> t < s.nextThread)
    && MarksMatch(s) && TokensMatch(s)
  }

  /** Moving one goroutine changes who holds a token accordingly. */
  lemma HoldersAfterMove(s: State, thread: ThreadId, s': State, place: Place)
    requires thread in s.threads && s'.threads == Moved(s, thread, place)
    ensures |Holders(s')| == |Holders(s)| + (if HasToken(s'.threads[thread]) then 1 else 0)
                                          - (if HasToken(s.threads[thread]) then 1 else 0)
  {
    var rest := Holders(s) - {thread};
    assert Holders(s) == if HasToken(s.threads[thread]) then rest + {thread} else rest;
    assert Holders(s') == if HasToken(s'.threads[thread]) then rest + {thread} else rest;
  }

  lemma MarkKeepsInv(s: State, job: Id)
    requires Inv(s)
    ensures Inv(Next(s, Mark(job)))
  {
    var s' := Next(s, Mark(job));
    if job !in s.pending {
      assert Holders(s') == Holders(s);
      forall j | j in s'.pending
        ensures exists t :: t in s'.threads && HasMark(s'.threads[t]) && s'.threads[t].job == j
      {
        if j == job {
          assert s'.threads[s.nextThread].job == j;
        } else {
          var t :| t in s.threads && HasMark(s.threads[t]) && s.threads[t].job == j;
          assert s'.threads[t] == s.threads[t];
        }
      }
    }
  }

  /** Moves that keep the mark. */
  lemma MarkedMove(s: State, s': State, thread: ThreadId, place: Place)
    requires MarksMatch(s) && thread in s.threads && HasMark(s.threads[thread]) && HasMark(Thread(0, place))
    requires s'.threads == Moved(s, thread, place) && s'.pending == s.pending
    ensures MarksMatch(s')
  {
    forall job | job in s'.pending
      ensures exists t :: t in s'.threads && HasMark(s'.threads[t]) && s'.threads[t].job == job
    {
      var t :| t in s.threads && HasMark(s.threads[t]) && s.threads[t].job == job;
      assert t in s'.threads && HasMark(s'.threads[t]) && s'.threads[t].job == job;
    }
  }

  /** Taking the mark off. */
  lemma UnmarkMove(s: State, s': State, thread: ThreadId, place: Place)
    requires MarksMatch(s) && thread in s.threads && HasMark(s.threads[thread]) && !HasMark(Thread(0, place))
    requires s'.threads == Moved(s, thread, place) && s'.pending == s.pending - {s.threads[thread].job}
    ensures MarksMatch(s')
  {
    forall job | job in s'.pending
      ensures exists t :: t in s'.threads && HasMark(s'.threads[t]) && s'.threads[t].job == job
    {
      var t :| t in s.threads && HasMark(s.threads[t]) && s.threads[t].job == job;
      assert t in s'.threads && HasMark(s'.threads[t]) && s'.threads[t].job == job;
    }
  }

  /** Moves after the mark is gone. */
  lemma UnmarkedMove(s: State, s': State, thread: ThreadId)
    requires MarksMatch(s) && IsAt(s, thread, Unmarked)
    requires s'.threads == Moved(s, thread, Over) && s'.pending == s.pending
    ensures MarksMatch(s')
  {
    forall job | job in s'.pending
      ensures exists t :: t in s'.threads && HasMark(s'.threads[t]) && s'.threads[t].job == job
    {
      var t :| t in s.threads && HasMark(s.threads[t]) && s.threads[t].job == job;
      assert t in s'.threads && HasMark(s'.threads[t]) && s'.threads[t].job == job;
    }
  }

  lemma NextKeepsMarks(s: State, a: Action)
    requires MarksMatch(s) && !a.Mark?
    ensures MarksMatch(Next(s, a))
  {
    var s' := Next(s, a);
    if s' != s {
      var place := s'.threads[a.thread].place;
      if a.UnmarkCancelled? || a.UnmarkFinished? {
        UnmarkMove(s, s', a.thread, place);
      } else if a.Release? {
        UnmarkedMove(s, s', a.thread);
      } else {
        MarkedMove(s, s', a.thread, place);
      }
    }
  }

  /** A token goes from the channel to a goroutine, or back. */
  lemma TransferKeepsTokens(s: State, a: Action)
    requires TokensMatch(s) && (a.TakeToken? || a.Release?)
    ensures TokensMatch(Next(s, a))
  {
    var s' := Next(s, a);
    if s' != s {
      HoldersAfterMove(s, a.thread, s', s'.threads[a.thread].place);
    }
  }

  /** No other action moves a token. */
  lemma OthersKeepTokens(s: State, a: Action)
    requires TokensMatch(s) && !a.TakeToken? && !a.Release? && !a.Mark?
    ensures TokensMatch(Next(s, a))
  {
    var s' := Next(s, a);
    if s' != s {
      HoldersAfterMove(s, a.thread, s', s'.threads[a.thread].place);
    }
  }

  lemma NextKeepsInv(s: State, a: Action)
    requires Inv(s)
    ensures Inv(Next(s, a))
  {
    if a.Mark? {
      MarkKeepsInv(s, a.job);
    } else {
      NextKeepsMarks(s, a);
      if a.TakeToken? || a.Release? {
        TransferKeepsTokens(s, a);
      } else {
        OthersKeepTokens(s, a);
      }
    }
  }

  lemma {:induction false} RunKeepsInv(actions: seq<Action>)
    ensures Inv(Run(actions))
  {
    if actions != [] {
      RunKeepsInv(actions[..|actions| - 1]);
      NextKeepsInv(Run(actions[..|actions| - 1]), actions[|actions| - 1]);
    }
  }

  // ---------------------------------------------------------------------
  // The theorems

  /** In every interleaving a job is pending exactly while one goroutine is responsible for it. */
  lemma PendingMapExact(actions: seq<Action>)
    ensures MarksMatch(Run(actions))
  {
    RunKeepsInv(actions);
  }

  /** In every interleaving no token is lost or made up, so no more goroutines work than the capacity allows. */
  lemma TokensConserved(actions: seq<Action>)
    ensures TokensMatch(Run(actions))
    ensures Run(actions).sem.Some? ==> |Holders(Run(actions))| <= Run(actions).sem.value.capacity
  {
    RunKeepsInv(actions);
  }

  /** Giving a token back never blocks. */
  lemma ReleaseNeverBlocks(actions: seq<Action>, thread: ThreadId)
    requires IsAt(Run(actions), thread, Unmarked)
    ensures CanRelease(Run(actions), thread)
  {
    RunKeepsInv(actions);
    var s := Run(actions);
    assert thread in Holders(s);
    assert |Holders(s)| > 0;
  }

  /** Once made, the channel keeps its capacity, whatever concurrency is configured later. */
  lemma SemaphoreMadeOnce(actions: seq<Action>, a: Action)
    requires Run(actions).sem.Some?
    ensures Run(actions + [a]).sem.Some?
    ensures Run(actions + [a]).sem.value.capacity == Run(actions).sem.value.capacity
    ensures Run(actions + [a]).made == 1
  {
    assert (actions + [a])[..|actions|] == actions;
    RunKeepsInv(actions + [a]);
  }
}
