/** What holds in every reachable state of the wired program, and at its exit. */
module PipelineTheorems {
  import opened Bags
  import opened Common
  import Pool = ThreadPool
  import PoolProofs = ThreadPoolProofs
  import PoolTheorems = ThreadPoolTheorems
  import opened FrameDecoder
  import Failover
  import opened Pipeline
  import opened PipelineProofs

  /** How a run starts: the configuration, the number of database servers, what the uninitialised server
      index holds, and the sizes of the client pool. */
  datatype Setting = Setting(config: Config, servers: nat, garbage: nat, clientThreads: nat, hardware: nat)

  function Begin(g: Setting): State {
    Init(g.config, g.servers, g.garbage, g.clientThreads, g.hardware)
  }

  /** The state after the run `steps`. */
  function After(g: Setting, steps: seq<Step>): State
    requires CanRun(Begin(g), steps)
  {
    Run(Begin(g), steps)
  }

  lemma AfterInv(g: Setting, steps: seq<Step>)
    requires CanRun(Begin(g), steps)
    ensures Inv(After(g, steps))
  {
    hide Inv;
    InitInv(g.config, g.servers, g.garbage, g.clientThreads, g.hardware);
    RunKeepsInv(Begin(g), steps);
  }

  // ---- conservation --------------------------------------------------------------------------------------------

  lemma PushedOnce(entries: seq<Entry>, k: nat)
    requires Numbered(entries) && k < |entries|
    ensures multiset(entries)[entries[k]] == 1
  {
    assert entries == entries[..k] + [entries[k]] + entries[k + 1..];
    assert entries[k] !in entries[..k];
    assert entries[k] !in entries[k + 1..];
  }

  /** In every reachable state each query ever pushed by a connection is in exactly one of: the shared
      queue, the dispatcher's hand, the pool's queue, a running task, executed, dropped with a reason,
      logged by the drain at shutdown. */
  lemma EveryQueryInExactlyOnePlace(g: Setting, steps: seq<Step>, k: nat)
    requires CanRun(Begin(g), steps) && k < |After(g, steps).pushed|
    ensures var s := After(g, steps);
            var e := s.pushed[k];
            multiset(s.shared)[e] + InHand(s.dispatcher, s.db.clients)[e] + Gather(s.db.queue, BodyOf)[e]
            + Gather(s.jobs, CarriedOf)[e] + multiset(s.executed)[e] + Gather(s.dropped, DroppedOf)[e] + multiset(s.logged)[e] == 1
  {
    AfterInv(g, steps);
    PushedOnce(After(g, steps).pushed, k);
  }

  lemma ExecutedWasPushed(s: State, e: Entry)
    requires Inv(s) && e in s.executed
    ensures e in s.pushed
  {
    hide Gather, PoolProofs.Inv, Handlers, ClientPool, DbPool, Jobs, Lifetime, Shutdown, Connections;
    assert multiset(s.executed)[e] > 0;
    assert e in multiset(s.pushed);
  }

  /** No query is executed successfully twice, and none that is executed is also dropped or logged. */
  lemma ExecutedAtMostOnce(g: Setting, steps: seq<Step>, e: Entry)
    requires CanRun(Begin(g), steps) && e in After(g, steps).executed
    ensures var s := After(g, steps);
            multiset(s.executed)[e] == 1 && Gather(s.dropped, DroppedOf)[e] == 0 && e !in s.logged && e !in s.shared
  {
    AfterInv(g, steps);
    var s := After(g, steps);
    hide Gather, Inv;
    ExecutedWasPushed(s, e);
    var k :| 0 <= k < |s.pushed| && s.pushed[k] == e;
    assert multiset(s.executed)[e] > 0;
    EveryQueryInExactlyOnePlace(g, steps, k);
  }

  /** When the dispatcher has finished, its pool is empty-handed. */
  lemma FinishedMeansIdle(s: State)
    requires DbPool(s) && Jobs(s) && Quiet(s.dispatcher) && !s.dispatcher.Setup?
    ensures s.db.queue == [] && InHand(s.dispatcher, s.db.clients) == multiset{}
    ensures forall i :: 0 <= i < |s.jobs| ==> s.jobs[i].NoJob?
    ensures Gather(s.jobs, CarriedOf) == multiset{} && Gather(s.jobs, BorrowedOf) == multiset{}
  {
    hide Gather;
    PoolProofs.ZeroMeansAllDone(s.db);
    assert forall i :: 0 <= i < |s.jobs| ==> s.jobs[i].NoJob?;
    GatherNothing(s.jobs, CarriedOf);
    GatherNothing(s.jobs, BorrowedOf);
  }

  /** When `main` returns, every query pushed was executed, dropped with a reason, or logged, each exactly
      once, and none is left anywhere. */
  lemma ExitAccountsForEverything(g: Setting, steps: seq<Step>)
    requires CanRun(Begin(g), steps) && After(g, steps).main == Exited
    ensures var s := After(g, steps);
            && multiset(s.pushed) == multiset(s.executed) + Gather(s.dropped, DroppedOf) + multiset(s.logged)
            && s.shared == [] && s.db.queue == [] && (forall i :: 0 <= i < |s.jobs| ==> s.jobs[i].NoJob?)
  {
    AfterInv(g, steps);
    var s := After(g, steps);
    hide PoolProofs.Inv, Handlers, ClientPool, Connections, Numbered;
    FinishedMeansIdle(s);
    assert Gather(s.db.queue, BodyOf) == multiset{} by {
      GatherNothing(s.db.queue, BodyOf);
    }
  }

  // ---- the connection pool ------------------------------------------------------------------------------------------

  /** Whatever step deletes the connection pool, it is the dispatcher's last, no task is inside the pool,
      and every connection taken has been given back. */
  lemma PoolDeletedOnlyWhenUnused(g: Setting, steps: seq<Step>, step: Step)
    requires CanRun(Begin(g), steps) && Enabled(After(g, steps), step)
    requires After(g, steps).database.live && !Next(After(g, steps), step).database.live
    ensures var s := After(g, steps);
            && s.dispatcher.Disconnecting? && Next(s, step).dispatcher.Finished?
            && s.acquired == s.returned
            && (forall i :: 0 <= i < |s.jobs| ==> s.jobs[i].NoJob?)
  {
    AfterInv(g, steps);
    var s := After(g, steps);
    OnlyDispatcherDeletes(s, step);
    hide Next, Enabled, PoolProofs.Inv, Handlers, Conserved;
    FinishedMeansIdle(s);
  }

  lemma DispatcherDeletesLast(s: State, call: Failover.Call)
    requires DbPool(s) && Lifetime(s) && DispatchEnabled(s) && s.database.live
    ensures var t := DispatchNext(s, call);
            t.database.live || (s.dispatcher.Disconnecting? && t.dispatcher.Finished?)
  {
    hide DbPool, DispatchNext;
    if WaitsNext(s) {
      WaitingDispatchEffect(s, call);
    } else if SumsNext(s) || MovesNext(s) {
      CallingDispatchKeepsDatabase(s, call);
    } else {
      PlainDispatchKeepsDatabase(s, call);
    }
  }

  lemma OnlyDispatcherDeletes(s: State, step: Step)
    requires OutputSide(s) && Enabled(s, step) && s.database.live
    ensures Next(s, step).database.live || (s.dispatcher.Disconnecting? && Next(s, step).dispatcher.Finished?)
  {
    hide DbPool, Lifetime, Jobs, Connections, Conserved, Shutdown;
    hide DispatchNext, DispatchEnabled, MainNext, ServerNext, JobNext, DbThreadNext, PushNext;
    if step.Dispatch? {
      DispatcherDeletesLast(s, step.call);
    } else {
      OthersLeaveDatabase(s, step);
    }
  }

  /** The connections taken and not given back are those the running tasks hold, one each, and each
      belongs to the pool that is live. */
  lemma ConnectionsAreReturned(g: Setting, steps: seq<Step>)
    requires CanRun(Begin(g), steps)
    ensures var s := After(g, steps);
            && s.acquired - s.returned == |Gather(s.jobs, BorrowedOf)|
            && (forall i :: 0 <= i < |s.jobs| && (s.jobs[i].Connected? || s.jobs[i].Deadlocked? || s.jobs[i].Releasing?) ==>
                  s.database.live && s.jobs[i].pool == s.poolNumber == 1)
  {
    AfterInv(g, steps);
    var s := After(g, steps);
    forall i | 0 <= i < |s.jobs| && (s.jobs[i].Connected? || s.jobs[i].Deadlocked? || s.jobs[i].Releasing?)
      ensures s.database.live && s.jobs[i].pool == s.poolNumber == 1
    {
      JobMeansLive(s, i);
    }
  }

  /** The wired program opens at most one connection pool in its life: `connect` is never entered with a
      live pool, so no failed ping ever marks a server, and once a pool is live it stays live until the
      dispatcher ends. */
  lemma PoolIsOpenedOnce(g: Setting, steps: seq<Step>)
    requires CanRun(Begin(g), steps)
    ensures var s := After(g, steps);
            && s.poolNumber <= 1
            && (s.dispatcher.Pinging? || s.dispatcher.Opening? ==> !s.database.live && s.poolNumber == 0)
            && (s.poolNumber == 1 && !s.dispatcher.Finished? ==> s.database.live)
  {
    AfterInv(g, steps);
  }

  lemma PlainDispatchKeepsDatabase(s: State, call: Failover.Call)
    requires DispatchEnabled(s) && !WaitsNext(s) && !SumsNext(s) && !MovesNext(s)
    requires !s.dispatcher.Pinging? && !s.dispatcher.Opening?
    ensures var t := DispatchNext(s, call);
            && t.poolNumber == s.poolNumber
            && t.database == (if s.dispatcher.Disconnecting? then s.database.(live := false) else s.database)
            && (s.dispatcher.Disconnecting? ==> t.dispatcher.Finished?)
  {
    hide Pool.Next, Pool.Enabled, Failover.Connect, Failover.Disconnected;
  }

  lemma CallingDispatchKeepsDatabase(s: State, call: Failover.Call)
    requires DispatchEnabled(s) && (SumsNext(s) || MovesNext(s))
    ensures DispatchNext(s, call).poolNumber == s.poolNumber && DispatchNext(s, call).database == s.database
  {
    hide Pool.Next, Pool.Enabled;
  }

  /** The pool is that of server `index`, with the marks as they were, until the dispatcher ends. */
  ghost predicate Settled(s: State, marks: seq<nat>, index: nat) {
    && s.poolNumber == 1 && s.database.marks == marks && s.database.index == index
    && (s.database.live || s.dispatcher.Finished?)
  }

  lemma DispatchKeepsSettled(s: State, call: Failover.Call, marks: seq<nat>, index: nat)
    requires DbPool(s) && Lifetime(s) && Settled(s, marks, index) && DispatchEnabled(s)
    ensures Settled(DispatchNext(s, call), marks, index)
  {
    hide DbPool, DispatchNext;
    if WaitsNext(s) {
      WaitingDispatchEffect(s, call);
    } else if SumsNext(s) || MovesNext(s) {
      CallingDispatchKeepsDatabase(s, call);
    } else {
      PlainDispatchKeepsDatabase(s, call);
    }
  }

  lemma OthersLeaveDatabase(s: State, step: Step)
    requires Enabled(s, step) && !step.Dispatch?
    ensures Next(s, step).poolNumber == s.poolNumber && Next(s, step).database == s.database
  {
    hide Pool.Next, Pool.Enabled, Decoded, MainNext, ServerNext, JobNext;
    match step
    case Job(i, answer) => JobLeavesAlone(s, i, answer);
    case Server(socket) => ServerSameOutput(s, socket);
    case Main => MainEffect(s);
    case _ =>
  }

  lemma DispatcherParts(s: State)
    requires Inv(s)
    ensures DbPool(s) && Lifetime(s)
  {
    hide DbPool, Lifetime, InputSide, Jobs, Connections, Conserved, Shutdown;
  }

  lemma OthersKeepSettled(s: State, step: Step, marks: seq<nat>, index: nat)
    requires Inv(s) && Settled(s, marks, index) && Enabled(s, step) && !step.Dispatch?
    ensures Settled(Next(s, step), marks, index)
  {
    hide Inv, Next, Enabled;
    OthersLeaveDatabase(s, step);
    OthersLeaveDispatcher(s, step);
  }

  lemma StepKeepsSettled(s: State, step: Step, marks: seq<nat>, index: nat)
    requires Inv(s) && Settled(s, marks, index) && Enabled(s, step)
    ensures Settled(Next(s, step), marks, index)
  {
    hide Inv, Settled, DbPool, Lifetime, DispatchNext, DispatchEnabled, MainNext, ServerNext, JobNext, DbThreadNext, PushNext;
    if step.Dispatch? {
      DispatcherParts(s);
      DispatchKeepsSettled(s, step.call, marks, index);
    } else {
      OthersKeepSettled(s, step, marks, index);
    }
  }

  lemma {:induction false} RunKeepsSettled(s: State, steps: seq<Step>, marks: seq<nat>, index: nat)
    requires Inv(s) && Settled(s, marks, index) && CanRun(s, steps)
    ensures Settled(Run(s, steps), marks, index)
    decreases |steps|
  {
    if steps != [] {
      hide Inv, Next, Enabled, Settled;
      StepKeepsSettled(s, steps[0], marks, index);
      StepKeepsInv(s, steps[0]);
      RunKeepsSettled(Next(s, steps[0]), steps[1..], marks, index);
    }
  }

  /** The server picked when a connection pool object is first built is the program's server to the end of
      the dispatcher: no later connect ever happens, even if the start of the pool threw.  Only while no
      server was viable, or building the object threw, does the dispatcher come back for another. */
  lemma FirstPoolIsTheLast(g: Setting, steps: seq<Step>, call: Failover.Call, later: seq<Step>)
    requires CanRun(Begin(g), steps) && After(g, steps).dispatcher.Opening? && Enabled(After(g, steps), Dispatch(call))
    requires CanRun(Next(After(g, steps), Dispatch(call)), later)
    ensures var s := After(g, steps);
            var chosen := Failover.Chosen(s.database, call);
            var t := Next(s, Dispatch(call));
            var u := Run(t, later);
            && (t.database.live <==> chosen.Some? && !call.opening.ConstructorThrows?)
            && (t.database.live ==>
                  && chosen == Some(u.database.index) && u.database.marks == t.database.marks
                  && (u.database.live || u.dispatcher.Finished?))
  {
    hide Inv, After, CanRun, Run, Failover.Chosen, Enabled, Next, Settled;
    AfterInv(g, steps);
    var s := After(g, steps);
    var t := Next(s, Dispatch(call));
    StepKeepsInv(s, Dispatch(call));
    OpeningStep(s, call);
    if t.database.live {
      RunKeepsSettled(t, later, t.database.marks, t.database.index);
      SettledMeans(Run(t, later), t.database.marks, t.database.index);
    }
  }

  lemma SettledMeans(u: State, marks: seq<nat>, index: nat)
    requires Settled(u, marks, index)
    ensures u.database.marks == marks && u.database.index == index && (u.database.live || u.dispatcher.Finished?)
  {
  }

  lemma OpeningStep(s: State, call: Failover.Call)
    requires Inv(s) && Enabled(s, Dispatch(call)) && s.dispatcher.Opening?
    ensures var chosen := Failover.Chosen(s.database, call);
            var t := Next(s, Dispatch(call));
            && (t.database.live <==> chosen.Some? && !call.opening.ConstructorThrows?)
            && (t.database.live ==>
                  chosen == Some(t.database.index) && Settled(t, t.database.marks, t.database.index))
  {
    hide Inv, DbPool, Lifetime, DispatchNext, DispatchEnabled, Failover.Chosen;
    DispatcherParts(s);
    OpeningEffect(s, call);
  }

  lemma OpeningEffect(s: State, call: Failover.Call)
    requires Lifetime(s) && DispatchEnabled(s) && s.dispatcher.Opening?
    ensures var chosen := Failover.Chosen(s.database, call);
            var t := DispatchNext(s, call);
            && (t.database.live <==> chosen.Some? && !call.opening.ConstructorThrows?)
            && (t.database.live ==> chosen == Some(t.database.index) && t.poolNumber == 1)
  {
    hide Pool.Next, Pool.Enabled, Failover.FirstViable;
  }

  lemma {:induction false} RunLeavesDatabase(s: State, steps: seq<Step>)
    requires CanRun(s, steps) && forall step :: step in steps ==> !step.Dispatch?
    ensures Run(s, steps).database == s.database
    decreases |steps|
  {
    if steps != [] {
      hide Next, Enabled;
      assert steps[0] in steps;
      OthersLeaveDatabase(s, steps[0]);
      RunLeavesDatabase(Next(s, steps[0]), steps[1..]);
    }
  }

  lemma PingThenOpen(s: State, u: State, call: Failover.Call)
    requires DispatchEnabled(s) && s.dispatcher.Pinging? && !s.database.live
    requires DispatchEnabled(u) && u.dispatcher.Opening? && u.database == DispatchNext(s, call).database
    ensures DispatchNext(u, call).database == Failover.Connect(s.database, call)
  {
    hide Pool.Next, Pool.Enabled, Failover.Connect;
    Failover.ConnectInTwoSteps(s.database, call);
  }

  /** The two steps in which the dispatcher pings and opens, with anything the other threads do in
      between, are one call of `connect`. */
  lemma PingAndOpenAreOneConnect(g: Setting, steps: seq<Step>, call: Failover.Call, later: seq<Step>)
    requires CanRun(Begin(g), steps) && After(g, steps).dispatcher.Pinging? && Enabled(After(g, steps), Dispatch(call))
    requires CanRun(Next(After(g, steps), Dispatch(call)), later) && forall step :: step in later ==> !step.Dispatch?
    requires Enabled(Run(Next(After(g, steps), Dispatch(call)), later), Dispatch(call))
    ensures var s := After(g, steps);
            var u := Run(Next(s, Dispatch(call)), later);
            && u.dispatcher.Opening?
            && Next(u, Dispatch(call)).database == Failover.Connect(s.database, call)
  {
    hide Inv, CanRun, Run, After, Next, Enabled, Failover.Connect;
    AfterInv(g, steps);
    var s := After(g, steps);
    var t := Next(s, Dispatch(call));
    PingFindsNoPool(s, call);
    StepKeepsInv(s, Dispatch(call));
    RunLeavesDispatcher(t, later);
    RunLeavesDatabase(t, later);
    OpenAfterPing(s, Run(t, later), call);
  }

  lemma PingFindsNoPool(s: State, call: Failover.Call)
    requires Inv(s) && Enabled(s, Dispatch(call)) && s.dispatcher.Pinging?
    ensures !s.database.live && Next(s, Dispatch(call)).dispatcher.Opening?
  {
    hide Inv, DbPool, Pool.Enabled;
    DispatcherParts(s);
  }

  lemma OpenAfterPing(s: State, u: State, call: Failover.Call)
    requires Enabled(s, Dispatch(call)) && s.dispatcher.Pinging? && !s.database.live
    requires Enabled(u, Dispatch(call)) && u.dispatcher.Opening? && u.database == Next(s, Dispatch(call)).database
    ensures Next(u, Dispatch(call)).database == Failover.Connect(s.database, call)
  {
    hide DispatchNext, DispatchEnabled, Failover.Connect;
    PingThenOpen(s, u, call);
  }

  // ---- the shared queue -------------------------------------------------------------------------------------------------

  /** No run ever pops an empty queue, although the tests and the pops are separate critical sections. */
  lemma NeverPopsEmpty(g: Setting, steps: seq<Step>)
    requires CanRun(Begin(g), steps)
    ensures var s := After(g, steps);
            && !s.popFault
            && (s.dispatcher.Popping? || s.main.DrainPop? ==> s.shared != [])
  {
    AfterInv(g, steps);
  }

  // ---- the dispatcher's guard -----------------------------------------------------------------------------------------------

  /** At the second read of get_tasks_running the value the dispatcher obtains has not wrapped and is at
      least the number of tasks being run, so it goes on to pop only if fewer than the maximum are. */
  lemma GuardSeesEveryRunningTask(g: Setting, steps: seq<Step>, call: Failover.Call)
    requires CanRun(Begin(g), steps) && After(g, steps).dispatcher.Counting?
    requires Enabled(After(g, steps), Dispatch(call))
    ensures var s := After(g, steps);
            var t := Next(s, Dispatch(call));
            && t.dispatcher.Comparing? && |t.db.clients| == 1 && t.db.clients[0].Summed?
            && t.db.clients[0].result >= |Pool.RunningTasks(t.db)|
            && t.db.clients[0].result == s.db.clients[0].total - |s.db.queue|
  {
    AfterInv(g, steps);
    var s := After(g, steps);
    GuardAt(s, call);
  }

  lemma GuardAt(s: State, call: Failover.Call)
    requires DbPool(s) && s.dispatcher.Counting? && DispatchEnabled(s)
    ensures var t := DispatchNext(s, call);
            && t.dispatcher.Comparing? && |t.db.clients| == 1 && t.db.clients[0].Summed?
            && t.db.clients[0].result >= |Pool.RunningTasks(t.db)|
            && t.db.clients[0].result == s.db.clients[0].total - |s.db.queue|
  {
    hide PoolProofs.Inv, Gather, Pool.WrapSub;
    PoolTheorems.CountWithNoPushSince(s.db, 0);
    SumEffect(s.db);
    assert Pool.RunningTasks(DispatchNext(s, call).db) == Pool.RunningTasks(s.db);
  }

  /** Only the dispatcher moves the dispatcher and what its calls into the pool have come to. */
  lemma OthersLeaveDispatcher(s: State, step: Step)
    requires Inv(s) && Enabled(s, step) && !step.Dispatch?
    ensures var t := Next(s, step);
            t.dispatcher == s.dispatcher && t.db.clients == s.db.clients && t.config == s.config
  {
    hide InputSide, Lifetime, Jobs, Connections, Conserved, Shutdown, PoolProofs.Inv;
    hide Pool.Next, Pool.Enabled, Decoded, MainNext, ServerNext, JobNext;
    match step
    case DbThread(i) => WorkerKeepsClients(s.db, i);
    case DbOwner => CreateEffect(s.db);
    case Job(i, answer) => JobLeavesAlone(s, i, answer);
    case Server(socket) => ServerSameOutput(s, socket);
    case Main => MainEffect(s);
    case _ =>
  }

  lemma {:induction false} RunLeavesDispatcher(s: State, steps: seq<Step>)
    requires Inv(s) && CanRun(s, steps) && forall step :: step in steps ==> !step.Dispatch?
    ensures var t := Run(s, steps);
            t.dispatcher == s.dispatcher && t.db.clients == s.db.clients && t.config == s.config
    decreases |steps|
  {
    if steps != [] {
      hide Inv, Next, Enabled;
      assert steps[0] in steps;
      OthersLeaveDispatcher(s, steps[0]);
      StepKeepsInv(s, steps[0]);
      RunLeavesDispatcher(Next(s, steps[0]), steps[1..]);
    }
  }

  lemma ComparesWhatItRead(t: State, later: seq<Step>, next: Failover.Call)
    requires Inv(t) && t.dispatcher.Comparing? && |t.db.clients| == 1 && t.db.clients[0].Summed?
    requires CanRun(t, later) && forall step :: step in later ==> !step.Dispatch?
    requires Enabled(Run(t, later), Dispatch(next))
    ensures Next(Run(t, later), Dispatch(next)).dispatcher.Popping? <==> t.db.clients[0].result < t.config.maxConnections
  {
    hide Inv, CanRun, Run, Pool.Next;
    RunLeavesDispatcher(t, later);
  }

  /** From the second read on, whatever the other threads do before the dispatcher goes on, it pops if and
      only if the value it obtained is below the maximum; so it pops only if fewer tasks than the maximum
      were being run at that read. */
  lemma PopsOnlyBelowMaximum(g: Setting, steps: seq<Step>, call: Failover.Call, later: seq<Step>, next: Failover.Call)
    requires CanRun(Begin(g), steps) && After(g, steps).dispatcher.Counting?
    requires Enabled(After(g, steps), Dispatch(call))
    requires CanRun(Next(After(g, steps), Dispatch(call)), later) && forall step :: step in later ==> !step.Dispatch?
    requires Enabled(Run(Next(After(g, steps), Dispatch(call)), later), Dispatch(next))
    ensures var s := After(g, steps);
            var t := Next(s, Dispatch(call));
            var u := Next(Run(t, later), Dispatch(next));
            && |t.db.clients| == 1 && t.db.clients[0].Summed?
            && (u.dispatcher.Popping? <==> t.db.clients[0].result < s.config.maxConnections)
            && (u.dispatcher.Popping? ==> |Pool.RunningTasks(t.db)| < s.config.maxConnections)
  {
    hide Next, Enabled, Inv, CanRun, Run, After, Pool.RunningTasks;
    var s := After(g, steps);
    AfterInv(g, steps);
    GuardSeesEveryRunningTask(g, steps, call);
    StepKeepsInv(s, Dispatch(call));
    StepKeepsConfig(s, Dispatch(call));
    ComparesWhatItRead(Next(s, Dispatch(call)), later, next);
  }

  // ---- what the guard leaves possible ---------------------------------------------------------------------------------

  lemma PoolStepRetires<T>(p: Pool.State<T>, step: Pool.Step<T>)
    requires Pool.Enabled(p, step)
    ensures Pool.Next(p, step).retired >= p.retired
  {
    hide Pool.WrapAdd, Pool.WrapSub, Pool.WaitNext;
  }

  /** Every step of the dispatcher leaves its pool alone or is one step of the pool. */
  lemma DispatchDbStep(s: State, call: Failover.Call) returns (p: Option<Pool.Step<Entry>>)
    requires DispatchEnabled(s)
    ensures p.None? ==> DispatchNext(s, call).db == s.db
    ensures p.Some? ==> Pool.Enabled(s.db, p.value) && DispatchNext(s, call).db == Pool.Next(s.db, p.value)
  {
    hide Pool.Next, Failover.Connect, Failover.Disconnected;
    if WaitsNext(s) && !s.dispatcher.Setup? && !s.dispatcher.Draining? {
      p := Some(Pool.BeginWait(0));
    } else if s.dispatcher.CheckMore? && s.shared != [] {
      p := Some(Pool.BeginSum(0));
    } else if s.dispatcher.Setup? || s.dispatcher.Draining? || s.dispatcher.Counting? || s.dispatcher.Pushing? {
      p := Some(Pool.Client(0));
    } else if s.dispatcher.Holding? && Allowed(s.config, s.dispatcher.entry) {
      p := Some(Pool.BeginPush(0, s.dispatcher.entry));
    } else {
      p := None;
    }
  }

  /** Every step of the program leaves the database pool alone or is one step of it. */
  lemma DbStep(s: State, step: Step) returns (p: Option<Pool.Step<Entry>>)
    requires Enabled(s, step)
    ensures p.None? ==> Next(s, step).db == s.db
    ensures p.Some? ==> Pool.Enabled(s.db, p.value) && Next(s, step).db == Pool.Next(s.db, p.value)
  {
    hide Pool.Next, Decoded, MainNext, ServerNext, JobNext, DispatchNext, DispatchEnabled;
    p := None;
    match step
    case Dispatch(call) => p := DispatchDbStep(s, call);
    case DbThread(i) => p := Some(Pool.Worker(i));
    case DbOwner => p := Some(Pool.Control);
    case Job(i, answer) => JobLeavesAlone(s, i, answer);
    case Server(socket) => ServerSameOutput(s, socket);
    case Main => MainEffect(s);
    case _ =>
  }

  lemma StepRetires(s: State, step: Step)
    requires Enabled(s, step)
    ensures Next(s, step).db.retired >= s.db.retired
  {
    hide Pool.Next, Pool.Enabled, Next, Enabled;
    var p := DbStep(s, step);
    if p.Some? {
      PoolStepRetires(s.db, p.value);
    }
  }

  lemma {:induction false} RunRetires(s: State, steps: seq<Step>)
    requires CanRun(s, steps)
    ensures Run(s, steps).db.retired >= s.db.retired
    decreases |steps|
  {
    if steps != [] {
      hide Next, Enabled;
      StepRetires(s, steps[0]);
      RunRetires(Next(s, steps[0]), steps[1..]);
    }
  }

  /** What is queued, held or on its way later, against the counter the guard has read. */
  lemma OutstandingSince(s: State, u: State)
    requires DbPool(s) && DbPool(u) && s.dispatcher.Counting? && u.db.retired >= s.db.retired
    ensures var c := s.db.clients[0];
            && c.issuedAt == |s.db.issued| && c.retiredAt <= u.db.retired
            && |u.db.queue| + |Pool.HeldTasks(u.db)| + |Pool.InFlightTasks(u.db)| ==
               c.total + (|u.db.issued| - |s.db.issued|) - (u.db.retired - c.retiredAt)
  {
    hide PoolProofs.Conserved, PoolProofs.Fifo, PoolProofs.Threads, PoolProofs.Waits, Gather;
  }

  /** If the counter itself, not the difference, was below the maximum when the guard read it, then up to
      and after the push that follows at most the maximum of tasks are queued or running, whatever else
      happens; in general they exceed the counter read by at most one. */
  lemma CounterBelowMaximumSuffices(g: Setting, steps: seq<Step>, later: seq<Step>)
    requires CanRun(Begin(g), steps) && After(g, steps).dispatcher.Counting?
    requires CanRun(After(g, steps), later)
    requires |Run(After(g, steps), later).db.issued| <= |After(g, steps).db.issued| + 1
    ensures var s := After(g, steps);
            var u := Run(s, later);
            var outstanding := |u.db.queue| + |Pool.HeldTasks(u.db)| + |Pool.InFlightTasks(u.db)|;
            && |s.db.clients| == 1 && s.db.clients[0].Summing?
            && outstanding <= s.db.clients[0].total + 1
            && (s.db.clients[0].total < g.config.maxConnections ==> outstanding <= g.config.maxConnections)
  {
    hide Inv, CanRun, Run, Begin, PoolProofs.Inv, Gather;
    AfterInv(g, steps);
    var s := After(g, steps);
    RunKeepsInv(s, later);
    RunRetires(s, later);
    DispatcherParts(s);
    DispatcherParts(Run(s, later));
    OutstandingSince(s, Run(s, later));
  }

  // ---- connections ----------------------------------------------------------------------------------------------------------------

  /** With any number of connections served at once, the pushes that came from one connection are the
      queries decoded from its bytes, in order, and its acknowledgements are never ahead of its pushes
      and at most one behind. */
  lemma ConnectionKeepsItsOrder(g: Setting, steps: seq<Step>, k: nat)
    requires CanRun(Begin(g), steps) && k < |After(g, steps).handlers|
    ensures var s := After(g, steps);
            var h := s.handlers[k];
            && h.pushed <= |Decoded(s.config, h.received)|
            && FromConnection(s.pushed, k) == Decoded(s.config, h.received)[..h.pushed]
            && h.acked <= h.pushed <= h.acked + 1
            && (h.ended ==> FromConnection(s.pushed, k) == Decoded(s.config, h.received) && h.acked == h.pushed)
  {
    AfterInv(g, steps);
    var s := After(g, steps);
    assert HandlerOk(s.config, s.pushed, k, s.handlers[k]);
  }

  /** When `main` goes on from joining the accept loop, every connection ever accepted has ended, with
      every query it decoded pushed and acknowledged: nothing can be pushed by a connection any more. */
  lemma InputIsCompleteAtShutdown(g: Setting, steps: seq<Step>, k: nat)
    requires CanRun(Begin(g), steps) && InputClosed(After(g, steps).main) && k < |After(g, steps).handlers|
    ensures var s := After(g, steps);
            && s.handlers[k].ended
            && FromConnection(s.pushed, k) == Decoded(s.config, s.handlers[k].received)
            && (forall i :: !Serves(s, i))
  {
    AfterInv(g, steps);
    ClosedInput(After(g, steps), k);
    ConnectionKeepsItsOrder(g, steps, k);
  }

  lemma StopComesLate(s: State, step: Step)
    requires Enabled(s, step) && (s.outputStop ==> InputClosed(s.main))
    ensures var t := Next(s, step); t.outputStop ==> InputClosed(t.main)
  {
    hide Pool.Next, Pool.Enabled, Decoded, ServerNext, JobNext, DispatchNext, DispatchEnabled;
    match step
    case Job(i, answer) => JobEffect(s, i, answer);
    case Dispatch(call) => DispatchLeavesMain(s, call);
    case Server(socket) => ServerLeavesMain(s, socket);
    case _ =>
  }

  lemma ServerLeavesMain(s: State, socket: Option<nat>)
    requires ServerEnabled(s)
    ensures ServerNext(s, socket).main == s.main && ServerNext(s, socket).outputStop == s.outputStop
  {
    hide Pool.Next, Pool.Enabled;
  }

  lemma DispatchLeavesMain(s: State, call: Failover.Call)
    requires DispatchEnabled(s)
    ensures DispatchNext(s, call).main == s.main && DispatchNext(s, call).outputStop == s.outputStop
  {
    hide Pool.Next, Pool.Enabled, Failover.Connect, Failover.Disconnected;
  }

  lemma {:induction false} RunStopsLate(s: State, steps: seq<Step>)
    requires CanRun(s, steps) && (s.outputStop ==> InputClosed(s.main))
    ensures var t := Run(s, steps); t.outputStop ==> InputClosed(t.main)
    decreases |steps|
  {
    if steps != [] {
      hide Next, Enabled, InputClosed;
      StopComesLate(s, steps[0]);
      RunStopsLate(Next(s, steps[0]), steps[1..]);
    }
  }

  /** The dispatcher is told to stop only when every connection ever accepted has ended with all its
      queries pushed. */
  lemma DispatcherStopsAfterInput(g: Setting, steps: seq<Step>, k: nat)
    requires CanRun(Begin(g), steps) && After(g, steps).outputStop && k < |After(g, steps).handlers|
    ensures var s := After(g, steps);
            s.handlers[k].ended && FromConnection(s.pushed, k) == Decoded(s.config, s.handlers[k].received)
  {
    RunStopsLate(Begin(g), steps);
    InputIsCompleteAtShutdown(g, steps, k);
  }

  lemma ClosedInput(s: State, k: nat)
    requires ClientPool(s) && Handlers(s) && s.clients.ctl.Destroyed? && k < |s.handlers|
    ensures s.handlers[k].ended
    ensures forall i :: !Serves(s, i)
  {
    var p := s.clients;
    assert PoolProofs.DoneBefore(p, |p.issued|) && PoolProofs.AllExited(p.workers);
    assert p.issued[k] in p.finished;
    assert p.issued[k].id == k;
    var j :| 0 <= j < |p.finished| && p.finished[j] == p.issued[k];
    assert s.handlers[p.finished[j].id].ended;
  }

  // ---- why entries are dropped ------------------------------------------------------------------------------------------------------------

  /** The dispatcher refuses everything: every attempt counter is 0, and the limit is at most 0. */
  predicate RefusesAll(config: Config) {
    config.obeyRetryCount && config.retryCount <= 0
  }

  ghost predicate DropsExplained(config: Config, dropped: seq<Drop>) {
    forall k :: 0 <= k < |dropped| ==>
      dropped[k].reason != NoPool && (dropped[k].reason == RetryLimit <==> RefusesAll(config))
  }

  ghost predicate Outcomes(s: State) {
    && s.db.threadCount == s.config.maxConnections + 1
    && DropsExplained(s.config, s.dropped)
    && (RefusesAll(s.config) ==> s.db.issued == [] && s.executed == [])
  }

  /** No queued entry has a counted attempt. */
  lemma HeldHasNoAttempts(s: State)
    requires Conserved(s) && s.dispatcher.Holding?
    ensures s.dispatcher.entry.attempts == 0
  {
    hide Gather;
    var e := s.dispatcher.entry;
    assert InHand(s.dispatcher, s.db.clients)[e] == 1;
    assert e in PlacesOf(s);
    assert e in s.pushed;
  }

  lemma OneMoreDrop(config: Config, dropped: seq<Drop>, d: Drop)
    requires DropsExplained(config, dropped) && d.reason != NoPool && (d.reason == RetryLimit <==> RefusesAll(config))
    ensures DropsExplained(config, dropped + [d])
  {
  }

  /** A task is running only if something was pushed to the pool, with the pool live. */
  lemma JobMeansPushed(s: State, i: nat)
    requires DbPool(s) && Lifetime(s) && Jobs(s) && i < |s.jobs| && !s.jobs[i].NoJob?
    ensures s.database.live && s.db.issued != []
  {
    hide Gather;
    JobMeansLive(s, i);
    assert |s.db.issued| == s.db.total + s.db.retired;
  }

  lemma LiveJobKeepsOutcomes(s: State, i: nat, answer: Answer)
    requires Outcomes(s) && JobEnabled(s, i, answer) && s.database.live && s.db.issued != []
    ensures Outcomes(JobNext(s, i, answer))
  {
    hide DropsExplained;
    if s.jobs[i].Acquiring? {
      OneMoreDrop(s.config, s.dropped, Drop(s.jobs[i].entry, NoConnection));
    } else if s.jobs[i].Connected? {
      OneMoreDrop(s.config, s.dropped, Drop(s.jobs[i].entry, SqlError));
    }
  }

  lemma JobKeepsOutcomes(s: State, i: nat, answer: Answer)
    requires Outcomes(s) && OutputSide(s) && JobEnabled(s, i, answer)
    ensures Outcomes(JobNext(s, i, answer))
  {
    hide DbPool, Lifetime, Jobs, Connections, Conserved, Shutdown, JobNext, Outcomes;
    JobMeansPushed(s, i);
    LiveJobKeepsOutcomes(s, i, answer);
  }

  lemma HoldingKeepsOutcomes(s: State, call: Failover.Call)
    requires Outcomes(s) && DispatchEnabled(s) && s.dispatcher.Holding? && s.dispatcher.entry.attempts == 0
    ensures Outcomes(DispatchNext(s, call))
  {
    hide DropsExplained, Pool.WrapAdd;
    if RefusesAll(s.config) {
      OneMoreDrop(s.config, s.dropped, Drop(s.dispatcher.entry, RetryLimit));
    }
  }

  lemma CallingDispatchLeavesAlone(s: State, call: Failover.Call)
    requires DbPool(s) && DispatchEnabled(s) && (SumsNext(s) || s.dispatcher.Popping? || s.dispatcher.Pushing?)
    ensures var t := DispatchNext(s, call);
            && t.db.threadCount == s.db.threadCount && t.db.issued == s.db.issued && t.config == s.config
            && t.dropped == s.dropped && t.executed == s.executed
  {
    hide PoolProofs.Inv, Pool.Next;
    if s.dispatcher.Counting? {
      SumEffect(s.db);
    } else if s.dispatcher.Pushing? {
      EnqueueEffect(s.db);
    } else if s.dispatcher.CheckMore? {
      CallEffect(s.db, Pool.BeginSum(0));
    }
  }

  lemma OtherDispatchLeavesAlone(s: State, call: Failover.Call)
    requires DbPool(s) && DispatchEnabled(s) && !s.dispatcher.Holding?
    ensures var t := DispatchNext(s, call);
            && t.db.threadCount == s.db.threadCount && t.db.issued == s.db.issued && t.config == s.config
            && t.dropped == s.dropped && t.executed == s.executed
  {
    hide DbPool, DispatchNext;
    if WaitsNext(s) {
      WaitingDispatchEffect(s, call);
    } else if SumsNext(s) || MovesNext(s) {
      CallingDispatchLeavesAlone(s, call);
    } else {
      PlainDispatchEffect(s, call);
    }
  }

  lemma DispatchKeepsOutcomes(s: State, call: Failover.Call)
    requires Outcomes(s) && OutputSide(s) && DispatchEnabled(s)
    ensures Outcomes(DispatchNext(s, call))
  {
    hide DbPool, Lifetime, Jobs, Connections, Conserved, Shutdown, DispatchNext, DispatchEnabled, DropsExplained;
    if s.dispatcher.Holding? {
      HeldHasNoAttempts(s);
      HoldingKeepsOutcomes(s, call);
    } else {
      OtherDispatchLeavesAlone(s, call);
    }
  }

  lemma DbStepLeavesAlone(s: State, step: Step)
    requires PoolProofs.Inv(s.db) && Enabled(s, step) && (step.DbThread? || step.DbOwner?)
    ensures var t := Next(s, step);
            && t.db.threadCount == s.db.threadCount && t.db.issued == s.db.issued && t.config == s.config
            && t.dropped == s.dropped && t.executed == s.executed
  {
    hide PoolProofs.Inv, Pool.Next, Pool.Enabled;
    if step.DbThread? {
      WorkerEffect(s.db, step.i);
    } else {
      CreateEffect(s.db);
    }
  }

  lemma DbStepKeepsOutcomes(s: State, step: Step)
    requires Outcomes(s) && OutputSide(s) && Enabled(s, step) && (step.DbThread? || step.DbOwner?)
    ensures Outcomes(Next(s, step))
  {
    hide PoolProofs.Inv, DbPool, Conserved, Lifetime, Jobs, Connections, Shutdown, DropsExplained, Next, Enabled;
    DbPoolInv(s);
    DbStepLeavesAlone(s, step);
  }

  lemma MainLeavesAlone(s: State)
    requires MainEnabled(s)
    ensures var t := MainNext(s);
            t.db == s.db && t.config == s.config && t.dropped == s.dropped && t.executed == s.executed
  {
  }

  lemma OtherStepLeavesAlone(s: State, step: Step)
    requires Enabled(s, step) && !step.DbThread? && !step.DbOwner? && !step.Job? && !step.Dispatch?
    ensures var t := Next(s, step);
            t.db == s.db && t.config == s.config && t.dropped == s.dropped && t.executed == s.executed
  {
    hide Pool.Next, Pool.Enabled, Decoded, MainNext, ServerNext;
    if step.Main? {
      MainLeavesAlone(s);
    } else if step.Server? {
      ServerSameOutput(s, step.socket);
    }
  }

  lemma OtherStepKeepsOutcomes(s: State, step: Step)
    requires Outcomes(s) && Enabled(s, step) && !step.DbThread? && !step.DbOwner? && !step.Job? && !step.Dispatch?
    ensures Outcomes(Next(s, step))
  {
    hide Next, Enabled;
    OtherStepLeavesAlone(s, step);
  }

  lemma StepKeepsOutcomes(s: State, step: Step)
    requires Outcomes(s) && OutputSide(s) && Enabled(s, step)
    ensures Outcomes(Next(s, step))
  {
    hide Outcomes, OutputSide, JobNext, DispatchNext, ServerNext, MainNext, PushNext, DbThreadNext, DbOwnerNext;
    if step.Job? {
      JobKeepsOutcomes(s, step.i, step.answer);
    } else if step.Dispatch? {
      DispatchKeepsOutcomes(s, step.call);
    } else if step.DbThread? || step.DbOwner? {
      DbStepKeepsOutcomes(s, step);
    } else {
      OtherStepKeepsOutcomes(s, step);
    }
  }

  lemma {:induction false} RunKeepsOutcomes(s: State, steps: seq<Step>)
    requires Inv(s) && Outcomes(s) && CanRun(s, steps)
    ensures Outcomes(Run(s, steps)) && Run(s, steps).config == s.config
    decreases |steps|
  {
    if steps != [] {
      hide Outcomes, InputSide, OutputSide, Next, Enabled;
      StepKeepsInv(s, steps[0]);
      StepKeepsConfig(s, steps[0]);
      StepKeepsOutcomes(s, steps[0]);
      RunKeepsOutcomes(Next(s, steps[0]), steps[1..]);
    }
  }

  lemma DispatchKeepsConfig(s: State, call: Failover.Call)
    requires DispatchEnabled(s)
    ensures DispatchNext(s, call).config == s.config
  {
    hide Pool.Next, Pool.Enabled, Failover.Connect;
  }

  lemma StepKeepsConfig(s: State, step: Step)
    requires Enabled(s, step)
    ensures Next(s, step).config == s.config
  {
    hide Pool.Next, Pool.Enabled, Decoded, MainNext, ServerNext, DispatchNext, JobNext;
    if step.Dispatch? {
      DispatchKeepsConfig(s, step.call);
    } else if step.Job? {
      JobLeavesAlone(s, step.i, step.answer);
    } else if step.Main? || step.Server? {
      OtherStepLeavesAlone(s, step);
    }
  }

  lemma AfterOutcomes(g: Setting, steps: seq<Step>)
    requires CanRun(Begin(g), steps)
    ensures Outcomes(After(g, steps)) && After(g, steps).config == g.config
  {
    hide Inv;
    InitInv(g.config, g.servers, g.garbage, g.clientThreads, g.hardware);
    RunKeepsOutcomes(Begin(g), steps);
  }

  /** Why an entry is ever dropped.  The branch for a missing connection pool is never taken, so its
      entries are not lost; and since a failed attempt is counted on a copy that is not put back, the
      retry limit drops an entry if and only if it would drop every entry at first sight. */
  lemma ReasonsForDropping(g: Setting, steps: seq<Step>, k: nat)
    requires CanRun(Begin(g), steps)
    ensures var s := After(g, steps);
            && (k < |s.dropped| ==>
                  && s.dropped[k].reason != NoPool
                  && (s.dropped[k].reason == RetryLimit <==> RefusesAll(g.config)))
            && (RefusesAll(g.config) ==> s.executed == [])
            && (forall i :: 0 <= i < |s.shared| ==> s.shared[i].attempts == 0)
  {
    AfterOutcomes(g, steps);
    AfterInv(g, steps);
    var s := After(g, steps);
    SharedHasNoAttempts(s);
  }

  lemma SharedHasNoAttempts(s: State)
    requires Conserved(s)
    ensures forall i :: 0 <= i < |s.shared| ==> s.shared[i].attempts == 0
  {
    hide Gather;
    forall i | 0 <= i < |s.shared|
      ensures s.shared[i].attempts == 0
    {
      assert s.shared[i] in multiset(s.shared);
      assert s.shared[i] in PlacesOf(s);
      assert s.shared[i] in s.pushed;
    }
  }

  lemma JobDrops(s: State, i: nat, answer: Answer)
    requires JobEnabled(s, i, answer) && s.database.live
    ensures var t := JobNext(s, i, answer);
            && t.dropped == s.dropped + (if s.jobs[i].Acquiring? && answer.Throws? then [Drop(s.jobs[i].entry, NoConnection)]
                                         else if s.jobs[i].Connected? && answer.Fails? then [Drop(s.jobs[i].entry, SqlError)]
                                         else [])
            && t.executed == s.executed + (if s.jobs[i].Connected? && answer.Executes? then [s.jobs[i].entry] else [])
            && t.shared == s.shared + (if s.jobs[i].NullConnection? || s.jobs[i].Deadlocked? then [s.jobs[i].entry] else [])
            && |t.jobs| == |s.jobs|
            && (t.jobs[i].NullConnection? <==> s.jobs[i].Acquiring? && answer.GivesNull?)
            && (t.jobs[i].Deadlocked? <==> s.jobs[i].Connected? && answer.Deadlocks?)
  {
  }

  /** In every run: a task drops its entry when getConnection throws, with reason NoConnection, or the
      statement fails, with reason SqlError, and at no other step; it counts it as executed when the
      statement succeeds; and it puts it back when it was given a null connection or met a deadlock. */
  lemma WhatBecomesOfATask(g: Setting, steps: seq<Step>, i: nat, answer: Answer)
    requires CanRun(Begin(g), steps) && Enabled(After(g, steps), Job(i, answer))
    ensures var s := After(g, steps);
            var t := Next(s, Job(i, answer));
            && t.dropped == s.dropped + (if s.jobs[i].Acquiring? && answer.Throws? then [Drop(s.jobs[i].entry, NoConnection)]
                                         else if s.jobs[i].Connected? && answer.Fails? then [Drop(s.jobs[i].entry, SqlError)]
                                         else [])
            && t.executed == s.executed + (if s.jobs[i].Connected? && answer.Executes? then [s.jobs[i].entry] else [])
            && t.shared == s.shared + (if s.jobs[i].NullConnection? || s.jobs[i].Deadlocked? then [s.jobs[i].entry] else [])
            && |t.jobs| == |s.jobs|
            && (t.jobs[i].NullConnection? <==> s.jobs[i].Acquiring? && answer.GivesNull?)
            && (t.jobs[i].Deadlocked? <==> s.jobs[i].Connected? && answer.Deadlocks?)
  {
    AfterInv(g, steps);
    var s := After(g, steps);
    hide DbPool, Lifetime, Jobs, Conserved, Connections, Shutdown, JobNext;
    JobMeansLive(s, i);
    JobDrops(s, i, answer);
  }

  /** At most one more task than connections runs at once. */
  lemma TasksBoundedByThreads(g: Setting, steps: seq<Step>)
    requires CanRun(Begin(g), steps)
    ensures |Pool.RunningTasks(After(g, steps).db)| <= g.config.maxConnections + 1
  {
    AfterOutcomes(g, steps);
    AfterInv(g, steps);
    var s := After(g, steps);
    GatherAtMostOneEach(s.db.workers, Pool.ExecutingOf);
  }
}
