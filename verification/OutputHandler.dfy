/** The code of OutputHandler that runs between two accesses of other threads, in its own imperative form:
    one database task, one pass of the dispatch loop, and the drain of the queue by `main`.

    Each is proved against what it does to the queue, the pools and the entry, and the task is proved to be
    what the machine of Pipeline does when a job runs alone. */
module OutputHandler {
  import Pool = ThreadPool
  import ThreadPoolObject
  import LockedQueue
  import opened Common
  import opened Failover
  import opened Pipeline

  /** What executeQuery does. */
  datatype Query = Succeeds | Deadlock | OtherError

  /** What has become of the entry when a task returns. */
  datatype Outcome = Done | PutBack | Discarded(reason: Reason)

  // ---- the task ----------------------------------------------------------------------------------------

  /** OutputHandler::task.  It puts its entry back at most once, and as it was; it gives back the
      connection it took, once, on every path; and it leaves the database handler's pool as it is. */
  method Task(handler: LibzdbHandler?, entry: Entry, messages: LockedQueue.Queue<Entry>, grant: Grant, query: Query)
    returns (outcome: Outcome, local: Entry)
    modifies messages, handler
    ensures handler == null ==> outcome == PutBack
    ensures handler != null && !handler.conpool ==> outcome == Discarded(NoPool)
    ensures handler != null && handler.conpool ==>
              && (grant.Throws? ==> outcome == Discarded(NoConnection))
              && (grant.GivesNull? ==> outcome == PutBack)
              && (grant.Gives? && query.Succeeds? ==> outcome == Done)
              && (grant.Gives? && query.Deadlock? ==> outcome == PutBack)
              && (grant.Gives? && query.OtherError? ==> outcome == Discarded(SqlError))
    ensures messages.items == old(messages.items) + (if outcome.PutBack? then [entry] else [])
    ensures local == entry.(attempts := entry.attempts + if outcome == Discarded(SqlError) then 1 else 0)
    ensures handler != null ==>
              && handler.View() == old(handler.View())
              && handler.acquired - old(handler.acquired) == handler.returned - old(handler.returned)
              && handler.acquired == old(handler.acquired) + (if handler.conpool && grant.Gives? then 1 else 0)
  {
    local := entry;
    if handler == null {
      messages.Push(local);
      return PutBack, local;
    }
    var has := handler.HasConnectionPool();
    if !has {
      return Discarded(NoPool), local;
    }
    var con := handler.GetConnection(grant);
    if con.None? {
      return Discarded(NoConnection), local;
    }
    if con.value.Null? {
      messages.Push(local);
      return PutBack, local;
    }
    outcome := Done;
    match query {
      case Succeeds =>
      case Deadlock =>
        messages.Push(local);
        outcome := PutBack;
      case OtherError =>
        local := local.(attempts := local.attempts + 1);
        outcome := Discarded(SqlError);
    }
    handler.ReturnConnection();
  }

  // ---- the task as the job of the machine -------------------------------------------------------------------

  function GrantAnswer(grant: Grant): Answer {
    match grant case Gives => GivesConnection case GivesNull => Answer.GivesNull case Throws => Answer.Throws
  }

  function QueryAnswer(query: Query): Answer {
    match query case Succeeds => Executes case Deadlock => Deadlocks case OtherError => Fails
  }

  /** How many steps a job may still take. */
  function Remaining(j: JobPc): nat {
    match j
    case NoJob => 0
    case JobDone => 0
    case Releasing(_) => 1
    case Deadlocked(_, _) => 2
    case NullConnection(_) => 1
    case Connected(_, _) => 3
    case Acquiring(_) => 4
    case Entered(_) => 5
  }

  function AnswerAt(j: JobPc, grant: Grant, query: Query): Answer {
    if j.Connected? then QueryAnswer(query) else GrantAnswer(grant)
  }

  /** The state when job `i`, running alone, has returned. */
  function Finish(s: State, i: nat, grant: Grant, query: Query): State
    requires i < |s.jobs|
    decreases Remaining(s.jobs[i])
  {
    if s.jobs[i].NoJob? || s.jobs[i].JobDone? then s
    else Finish(JobNext(s, i, AnswerAt(s.jobs[i], grant, query)), i, grant, query)
  }

  lemma ReleasingRuns(s: State, i: nat, grant: Grant, query: Query)
    requires i < |s.jobs| && s.jobs[i].Releasing?
    ensures Finish(s, i, grant, query) ==
      s.(jobs := s.jobs[i := JobDone], returned := if s.database.live then s.returned + 1 else s.returned)
  {
    var t := JobNext(s, i, GrantAnswer(grant));
    assert Finish(t, i, grant, query) == t;
  }

  lemma DeadlockedRuns(s: State, i: nat, e: Entry, pool: nat, grant: Grant, query: Query)
    requires i < |s.jobs| && s.jobs[i] == Deadlocked(e, pool)
    ensures Finish(s, i, grant, query) ==
      s.(jobs := s.jobs[i := JobDone], returned := if s.database.live then s.returned + 1 else s.returned,
         shared := s.shared + [e])
  {
    ReleasingRuns(JobNext(s, i, GrantAnswer(grant)), i, grant, query);
  }

  lemma ConnectedRuns(s: State, i: nat, e: Entry, pool: nat, grant: Grant, query: Query)
    requires i < |s.jobs| && s.jobs[i] == Connected(e, pool)
    ensures Finish(s, i, grant, query) ==
      s.(jobs := s.jobs[i := JobDone], returned := if s.database.live then s.returned + 1 else s.returned,
         shared := s.shared + (if query.Deadlock? then [e] else []),
         executed := s.executed + (if query.Succeeds? then [e] else []),
         dropped := s.dropped + (if query.OtherError? then [Drop(e, SqlError)] else []))
  {
    var t := JobNext(s, i, QueryAnswer(query));
    assert Finish(s, i, grant, query) == Finish(t, i, grant, query);
    hide Finish;
    if query.Deadlock? {
      DeadlockedRuns(t, i, e, pool, grant, query);
    } else {
      ReleasingRuns(t, i, grant, query);
    }
  }

  /** What a job that stood in `s` has done by `t`, its entry having come to `outcome`. */
  predicate RanTo(s: State, t: State, i: nat, e: Entry, outcome: Outcome, connections: nat)
    requires i < |s.jobs|
  {
    && t.jobs == s.jobs[i := JobDone]
    && t.shared == s.shared + (if outcome.PutBack? then [e] else [])
    && t.executed == s.executed + (if outcome.Done? then [e] else [])
    && t.dropped == s.dropped + (if outcome.Discarded? then [Drop(e, outcome.reason)] else [])
    && t.acquired == s.acquired + connections && t.returned == s.returned + connections
    && t.database == s.database && t.db == s.db && t.pushed == s.pushed && t.logged == s.logged
  }

  lemma AcquiringRuns(s: State, i: nat, e: Entry, grant: Grant, query: Query)
    requires i < |s.jobs| && s.jobs[i] == Acquiring(e) && s.database.live
    ensures var t := Finish(s, i, grant, query);
            && (grant.Throws? ==> RanTo(s, t, i, e, Discarded(NoConnection), 0))
            && (grant.GivesNull? ==> RanTo(s, t, i, e, PutBack, 0))
            && (grant.Gives? && query.Succeeds? ==> RanTo(s, t, i, e, Done, 1))
            && (grant.Gives? && query.Deadlock? ==> RanTo(s, t, i, e, PutBack, 1))
            && (grant.Gives? && query.OtherError? ==> RanTo(s, t, i, e, Discarded(SqlError), 1))
  {
    var t := JobNext(s, i, GrantAnswer(grant));
    if grant.Gives? {
      ConnectedRuns(t, i, e, s.poolNumber, grant, query);
    } else if grant.GivesNull? {
      var u := JobNext(t, i, GrantAnswer(grant));
      assert Finish(t, i, grant, query) == u;
    }
  }

  /** A job that runs alone returns, and what it has then done to the queue, the histories and the
      connections is what Task does: with no pool or when getConnection throws the entry is dropped, a
      null connection or a deadlock puts it back, another error drops it. */
  lemma JobRunsLikeTask(s: State, i: nat, e: Entry, grant: Grant, query: Query)
    requires i < |s.jobs| && s.jobs[i] == Entered(e)
    ensures var t := Finish(s, i, grant, query);
            && (!s.database.live ==> RanTo(s, t, i, e, Discarded(NoPool), 0))
            && (s.database.live && grant.Throws? ==> RanTo(s, t, i, e, Discarded(NoConnection), 0))
            && (s.database.live && grant.GivesNull? ==> RanTo(s, t, i, e, PutBack, 0))
            && (s.database.live && grant.Gives? && query.Succeeds? ==> RanTo(s, t, i, e, Done, 1))
            && (s.database.live && grant.Gives? && query.Deadlock? ==> RanTo(s, t, i, e, PutBack, 1))
            && (s.database.live && grant.Gives? && query.OtherError? ==> RanTo(s, t, i, e, Discarded(SqlError), 1))
  {
    if s.database.live {
      AcquiringRuns(s.(jobs := s.jobs[i := Acquiring(e)]), i, e, grant, query);
    }
  }

  // ---- a pass of the dispatch loop -----------------------------------------------------------------------------

  /** The entries that pass the retry limit, or those that do not, in their order. */
  function Sift(config: Config, entries: seq<Entry>, allowed: bool): seq<Entry> {
    if entries == [] then []
    else
      var last := entries[|entries| - 1];
      Sift(config, entries[..|entries| - 1], allowed) + (if Allowed(config, last) == allowed then [last] else [])
  }

  function Tasks(first: nat, entries: seq<Entry>): seq<Pool.Task<Entry>> {
    seq(|entries|, k requires 0 <= k < |entries| => Pool.Task(first + k, entries[k]))
  }

  /** How often the guard lets the loop go on to a pop. */
  function Openings(running: seq<nat>, max: nat): nat {
    if running == [] then 0
    else Openings(running[..|running| - 1], max) + if running[|running| - 1] < max then 1 else 0
  }

  /** That is, at how many calls the answer is below the maximum. */
  lemma {:induction false} OpeningsCount(running: seq<nat>, max: nat)
    ensures Openings(running, max) == |set k | 0 <= k < |running| && running[k] < max|
  {
    var below := set k | 0 <= k < |running| && running[k] < max;
    if running == [] {
      assert below == {};
    } else {
      var n := |running| - 1;
      OpeningsCount(running[..n], max);
      var before := set k | 0 <= k < |running[..n]| && running[..n][k] < max;
      assert below == before + if running[n] < max then {n} else {};
    }
  }

  function Min(a: nat, b: nat): nat {
    if a < b then a else b
  }

  lemma SiftOneMore(config: Config, entries: seq<Entry>, n: nat, allowed: bool)
    requires n < |entries|
    ensures Sift(config, entries[..n + 1], allowed) ==
      Sift(config, entries[..n], allowed) + if Allowed(config, entries[n]) == allowed then [entries[n]] else []
  {
    assert entries[..n + 1][..n] == entries[..n];
  }

  /** Each entry is where the retry limit puts it. */
  lemma {:induction false} SiftSeparates(config: Config, entries: seq<Entry>)
    ensures forall e :: e in Sift(config, entries, true) ==> !config.obeyRetryCount || e.attempts < config.retryCount
    ensures forall e :: e in Sift(config, entries, false) ==> config.obeyRetryCount && e.attempts >= config.retryCount
  {
    if entries != [] {
      SiftSeparates(config, entries[..|entries| - 1]);
    }
  }

  /** Nothing is lost or doubled between the two. */
  lemma {:induction false} SiftConserves(config: Config, entries: seq<Entry>)
    ensures multiset(Sift(config, entries, true)) + multiset(Sift(config, entries, false)) == multiset(entries)
  {
    if entries != [] {
      var n := |entries| - 1;
      SiftConserves(config, entries[..n]);
      assert entries == entries[..n] + [entries[n]];
    }
  }

  /** The inner loop of thread_main, `running[k]` being what get_tasks_running answers at its k-th call.
      Entries leave the queue from its front, one for each call that answered less than the maximum; those
      within the retry limit are pushed to the pool in their order, the others are gone. */
  method DispatchPass(
      config: Config, messages: LockedQueue.Queue<Entry>, pool: ThreadPoolObject.Pool<Entry>, first: nat, running: seq<nat>)
    returns (refused: seq<Entry>)
    modifies messages, pool`tasks, pool`tasksTotal
    ensures var n := Min(|old(messages.items)|, Openings(running, config.maxConnections));
            var taken := old(messages.items)[..n];
            && messages.items == old(messages.items)[n..]
            && pool.tasks == old(pool.tasks) + Tasks(first, Sift(config, taken, true))
            && refused == Sift(config, taken, false)
  {
    ghost var queue, taken := messages.items, 0;
    ghost var pushed: seq<Entry> := [];
    refused := [];
    var k, next := 0, first;
    while k < |running|
      invariant 0 <= k <= |running| && taken == Min(|queue|, Openings(running[..k], config.maxConnections))
      invariant messages.items == queue[taken..]
      invariant pushed == Sift(config, queue[..taken], true) && refused == Sift(config, queue[..taken], false)
      invariant next == first + |pushed| && pool.tasks == old(pool.tasks) + Tasks(first, pushed)
    {
      assert running[..k + 1][..k] == running[..k];
      var empty := messages.Empty();
      if empty {
        OpeningsGrow(running, config.maxConnections, k);
        return;
      }
      if running[k] < config.maxConnections {
        var message := messages.Pop();
        SiftOneMore(config, queue, taken, true);
        SiftOneMore(config, queue, taken, false);
        if Allowed(config, message) {
          pool.PushTask(Pool.Task(next, message));
          assert Tasks(first, pushed + [message]) == Tasks(first, pushed) + [Pool.Task(next, message)];
          pushed, next := pushed + [message], next + 1;
        } else {
          refused := refused + [message];
        }
        taken := taken + 1;
      }
      k := k + 1;
    }
    assert running[..k] == running;
  }

  lemma {:induction false} OpeningsGrow(running: seq<nat>, max: nat, k: nat)
    requires k <= |running|
    ensures Openings(running[..k], max) <= Openings(running, max)
    decreases |running|
  {
    if k < |running| {
      assert running[..|running| - 1][..k] == running[..k];
      OpeningsGrow(running[..|running| - 1], max, k);
    } else {
      assert running[..k] == running;
    }
  }

  // ---- the drain at shutdown -------------------------------------------------------------------------------------

  /** The last loop of `main`: every entry left is logged, in order. */
  method Drain(messages: LockedQueue.Queue<Entry>) returns (log: seq<Entry>)
    modifies messages
    ensures log == old(messages.items) && messages.items == []
  {
    log := [];
    ghost var queue := messages.items;
    var empty := messages.Empty();
    while !empty
      invariant empty == (messages.items == []) && log + messages.items == queue
      decreases |messages.items|
    {
      var message := messages.Pop();
      log := log + [message];
      empty := messages.Empty();
    }
  }
}
