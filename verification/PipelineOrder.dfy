/** The order in which the wired program hands queries on, over every run. */
module PipelineOrder {
  import opened Common
  import Pool = ThreadPool
  import PoolProofs = ThreadPoolProofs
  import Failover
  import opened Pipeline
  import opened PipelineProofs
  import opened PipelineTheorems
  import opened PipelineRuns

  // ---- what arrives in the shared queue ------------------------------------------------------------------

  /** What one step adds to the shared queue: a query pushed by a connection, or an entry put back by a
      task. */
  function ArrivalOf(s: State, step: Step): seq<Entry>
    requires Enabled(s, step)
  {
    match step
    case Push(_) => Next(s, step).pushed[|s.pushed|..]
    case Job(i, _) =>
      (match s.jobs[i]
       case NullConnection(e) => [e]
       case Deadlocked(e, _) => [e]
       case _ => [])
    case _ => []
  }

  /** What a run adds to it, in the order of its steps. */
  function Arrivals(s: State, steps: seq<Step>): seq<Entry>
    requires CanRun(s, steps)
    decreases |steps|
  {
    if steps == [] then [] else ArrivalOf(s, steps[0]) + Arrivals(Next(s, steps[0]), steps[1..])
  }

  // ---- what has been taken from it ------------------------------------------------------------------------

  /** The entries the retry limit refused. */
  function RefusedOf(dropped: seq<Drop>): seq<Entry> {
    if dropped == [] then []
    else
      var last := dropped[|dropped| - 1];
      RefusedOf(dropped[..|dropped| - 1]) + (if last.reason.RetryLimit? then [last.entry] else [])
  }

  lemma RefusedAppend(dropped: seq<Drop>, d: Drop)
    ensures RefusedOf(dropped + [d]) == RefusedOf(dropped) + if d.reason.RetryLimit? then [d.entry] else []
  {
    assert (dropped + [d])[..|dropped|] == dropped;
  }

  function Bodies(tasks: seq<Pool.Task<Entry>>): seq<Entry> {
    seq(|tasks|, k requires 0 <= k < |tasks| => tasks[k].body)
  }

  lemma BodiesConcat(xs: seq<Pool.Task<Entry>>, ys: seq<Pool.Task<Entry>>)
    ensures Bodies(xs + ys) == Bodies(xs) + Bodies(ys)
  {
  }

  function HandOf(d: DispatcherPc): seq<Entry> {
    if d.Holding? then [d.entry] else []
  }

  /** Everything ever taken out of the shared queue: refused, pushed to the pool, in the dispatcher's hand,
      logged at the end. */
  function Taken(s: State): seq<Entry> {
    RefusedOf(s.dropped) + Bodies(s.db.issued) + HandOf(s.dispatcher) + s.logged
  }

  /** Nothing is logged before the dispatcher has ended. */
  predicate LoggedLate(s: State) {
    s.logged != [] ==> OutputClosed(s.main)
  }

  // ---- one step -------------------------------------------------------------------------------------------------

  ghost predicate SameTaken(s: State, t: State) {
    && RefusedOf(t.dropped) == RefusedOf(s.dropped) && t.db.issued == s.db.issued
    && HandOf(t.dispatcher) == HandOf(s.dispatcher) && t.logged == s.logged
  }

  lemma JobArrives(s: State, i: nat, answer: Answer)
    requires JobEnabled(s, i, answer) && s.database.live
    ensures var t := JobNext(s, i, answer);
            && SameTaken(s, t)
            && t.shared == s.shared + (if s.jobs[i].NullConnection? || s.jobs[i].Deadlocked? then [s.jobs[i].entry] else [])
  {
    hide JobNext, RefusedOf;
    JobEffect(s, i, answer);
    JobDrops(s, i, answer);
    assert s.dropped + [] == s.dropped;
    if s.jobs[i].Acquiring? {
      RefusedAppend(s.dropped, Drop(s.jobs[i].entry, NoConnection));
    } else if s.jobs[i].Connected? {
      RefusedAppend(s.dropped, Drop(s.jobs[i].entry, SqlError));
    }
  }

  lemma PushArrives(s: State, k: nat)
    requires k < |s.handlers| && HasQuery(s, k)
    ensures var t := PushNext(s, k); SameTaken(s, t) && t.shared == s.shared + t.pushed[|s.pushed|..]
  {
    hide Decoded, RefusedOf;
  }

  /** Steps of the other threads neither add to the queue nor take from it. */
  lemma OthersLeaveQueue(s: State, step: Step)
    requires Inv(s) && Enabled(s, step) && !step.Push? && !step.Job? && !step.Dispatch? && !step.Main?
    ensures SameTaken(s, Next(s, step)) && Next(s, step).shared == s.shared
  {
    hide Inv, RefusedOf, Pool.Next, Pool.Enabled, Decoded, ServerNext;
    OnlyHoldingIssues(s, step);
    if !step.DbThread? && !step.DbOwner? {
      InputStepSameOutput(s, step);
    }
  }

  lemma LogArrives(s: State)
    requires MainEnabled(s) && (s.main.DrainPop? ==> s.shared != [] && !s.dispatcher.Holding?)
    ensures Taken(MainNext(s)) + MainNext(s).shared == Taken(s) + s.shared
  {
    hide RefusedOf, Bodies;
    MainEffect(s);
    if s.main.DrainPop? {
      assert s.shared == [s.shared[0]] + s.shared[1..];
    }
  }

  lemma PopTakes(s: State, call: Failover.Call)
    requires DispatchEnabled(s) && s.dispatcher.Popping? && s.shared != [] && s.logged == []
    ensures Taken(DispatchNext(s, call)) + DispatchNext(s, call).shared == Taken(s) + s.shared
  {
    hide RefusedOf, Bodies;
    assert s.shared == [s.shared[0]] + s.shared[1..];
  }

  lemma HandedOver(s: State, call: Failover.Call)
    requires DispatchEnabled(s) && s.dispatcher.Holding? && s.logged == [] && s.dispatcher.entry.attempts == 0
    requires RefusesAll(s.config) ==> s.db.issued == []
    ensures Taken(DispatchNext(s, call)) + DispatchNext(s, call).shared == Taken(s) + s.shared
  {
    hide RefusedOf, Bodies, Pool.WrapAdd;
    var e := s.dispatcher.entry;
    var t := DispatchNext(s, call);
    if RefusesAll(s.config) {
      RefusedAppend(s.dropped, Drop(e, RetryLimit));
      assert Bodies([]) == [] by { NoBodies(); }
    } else {
      var task := Pool.Task(|s.db.issued|, e);
      assert t.db.issued == s.db.issued + [task];
      BodiesConcat(s.db.issued, [task]);
      assert Bodies([task]) == [e] by { OneBody(task); }
    }
  }

  lemma NoBodies()
    ensures Bodies([]) == []
  {
  }

  lemma OneBody(task: Pool.Task<Entry>)
    ensures Bodies([task]) == [task.body]
  {
  }

  lemma CallingLeavesQueue(s: State, call: Failover.Call)
    requires DispatchEnabled(s) && (SumsNext(s) || s.dispatcher.Pushing?)
    ensures var t := DispatchNext(s, call); t.shared == s.shared && t.logged == s.logged && !t.dispatcher.Holding?
  {
    hide Pool.Next, Pool.Enabled;
  }

  lemma OtherDispatchLeavesQueue(s: State, call: Failover.Call)
    requires DbPool(s) && DispatchEnabled(s) && !s.dispatcher.Popping? && !s.dispatcher.Holding?
    ensures SameTaken(s, DispatchNext(s, call)) && DispatchNext(s, call).shared == s.shared
  {
    hide DbPool, DispatchNext, DispatchEnabled, RefusedOf;
    OtherDispatchLeavesAlone(s, call);
    if WaitsNext(s) {
      WaitingDispatchEffect(s, call);
    } else if SumsNext(s) || s.dispatcher.Pushing? {
      CallingLeavesQueue(s, call);
    } else {
      PlainDispatchEffect(s, call);
    }
  }

  lemma DispatchTakes(s: State, call: Failover.Call)
    requires OutputSide(s) && Outcomes(s) && LoggedLate(s) && DispatchEnabled(s)
    ensures Taken(DispatchNext(s, call)) + DispatchNext(s, call).shared == Taken(s) + s.shared
  {
    assert s.logged == [] && (s.dispatcher.Popping? ==> s.shared != []) by {
      hide DbPool, Lifetime, Jobs, Conserved, Connections, Outcomes;
    }
    hide DbPool, Lifetime, Jobs, Connections, Conserved, Shutdown, DispatchNext, DispatchEnabled, Taken;
    if s.dispatcher.Popping? {
      PopTakes(s, call);
    } else if s.dispatcher.Holding? {
      HeldHasNoAttempts(s);
      HandedOver(s, call);
    } else {
      OtherDispatchLeavesQueue(s, call);
      SameMeansTaken(s, DispatchNext(s, call));
    }
  }

  lemma SameMeansTaken(s: State, t: State)
    requires SameTaken(s, t)
    ensures Taken(t) == Taken(s)
  {
  }

  /** What had arrived before the step and arrives with it is what has been taken or is still queued after
      it, in the same order. */
  lemma StepKeepsOrder(s: State, step: Step)
    requires Inv(s) && Outcomes(s) && LoggedLate(s) && Enabled(s, step)
    ensures Taken(Next(s, step)) + Next(s, step).shared == Taken(s) + s.shared + ArrivalOf(s, step)
  {
    hide InputSide, Outcomes, LoggedLate, Taken, SameTaken, JobNext, DispatchNext, MainNext, PushNext;
    match step
    case Dispatch(call) => DispatchTakes(s, call);
    case Main => MainTakes(s);
    case Push(i) => PushArrives(s, ConnOf(s, i)); SameMeansTaken(s, Next(s, step)); Associates(s, Next(s, step), ArrivalOf(s, step));
    case Job(i, answer) => JobTakes(s, i, answer);
    case _ => OthersLeaveQueue(s, step); SameMeansTaken(s, Next(s, step));
  }

  lemma Associates(s: State, t: State, arrived: seq<Entry>)
    requires Taken(t) == Taken(s) && t.shared == s.shared + arrived
    ensures Taken(t) + t.shared == Taken(s) + s.shared + arrived
  {
  }

  lemma MainTakes(s: State)
    requires OutputSide(s) && MainEnabled(s)
    ensures Taken(MainNext(s)) + MainNext(s).shared == Taken(s) + s.shared
  {
    hide DbPool, Lifetime, Jobs, Conserved, Connections, MainNext, MainEnabled, Taken;
    LogArrives(s);
  }

  lemma JobTakes(s: State, i: nat, answer: Answer)
    requires OutputSide(s) && Enabled(s, Job(i, answer))
    ensures Taken(JobNext(s, i, answer)) + JobNext(s, i, answer).shared == Taken(s) + s.shared + ArrivalOf(s, Job(i, answer))
  {
    hide DbPool, Lifetime, Jobs, Conserved, Connections, Shutdown, JobNext, Taken, SameTaken;
    JobMeansLive(s, i);
    JobArrives(s, i, answer);
    SameMeansTaken(s, JobNext(s, i, answer));
    Associates(s, JobNext(s, i, answer), ArrivalOf(s, Job(i, answer)));
  }

  // ---- every run ----------------------------------------------------------------------------------------------------

  lemma StepLogsLate(s: State, step: Step)
    requires Inv(s) && Enabled(s, step) && LoggedLate(s)
    ensures LoggedLate(Next(s, step))
  {
    hide Inv, Decoded, Pool.Next, Pool.Enabled, ServerNext, JobNext, DispatchNext, DispatchEnabled;
    match step
    case Job(i, answer) => JobEffect(s, i, answer);
    case Dispatch(call) => DispatchLeavesMain(s, call); DispatchLeavesLog(s, call);
    case Server(socket) => ServerSameOutput(s, socket);
    case _ =>
  }

  lemma DispatchLeavesLog(s: State, call: Failover.Call)
    requires DispatchEnabled(s)
    ensures DispatchNext(s, call).logged == s.logged
  {
    hide Pool.Next, Pool.Enabled, Failover.Connect, Failover.Disconnected;
  }

  lemma ArrivalsFirst(s: State, steps: seq<Step>)
    requires CanRun(s, steps) && steps != []
    ensures Arrivals(s, steps) == ArrivalOf(s, steps[0]) + Arrivals(Next(s, steps[0]), steps[1..])
    ensures Run(s, steps) == Run(Next(s, steps[0]), steps[1..])
  {
    hide Enabled, Next, ArrivalOf;
  }

  lemma Regroup(x: seq<Entry>, a: seq<Entry>, b: seq<Entry>)
    ensures x + a + b == x + (a + b)
  {
  }

  lemma {:induction false} RunKeepsOrder(s: State, steps: seq<Step>)
    requires Inv(s) && Outcomes(s) && LoggedLate(s) && CanRun(s, steps)
    ensures Taken(Run(s, steps)) + Run(s, steps).shared == Taken(s) + s.shared + Arrivals(s, steps)
    decreases |steps|
  {
    if steps == [] {
      assert Taken(s) + s.shared + [] == Taken(s) + s.shared;
    } else {
      hide Inv, Outcomes, LoggedLate, Next, Enabled, Taken, ArrivalOf, Arrivals, Run;
      var t := Next(s, steps[0]);
      StepKeepsOrder(s, steps[0]);
      StepKeepsInv(s, steps[0]);
      InvOutput(s);
      StepKeepsOutcomes(s, steps[0]);
      StepLogsLate(s, steps[0]);
      RunKeepsOrder(t, steps[1..]);
      ArrivalsFirst(s, steps);
      Regroup(Taken(s) + s.shared, ArrivalOf(s, steps[0]), Arrivals(t, steps[1..]));
    }
  }

  lemma InvOutput(s: State)
    requires Inv(s)
    ensures OutputSide(s)
  {
    hide InputSide, OutputSide;
  }

  lemma {:induction false} RunLogsLate(s: State, steps: seq<Step>)
    requires Inv(s) && LoggedLate(s) && CanRun(s, steps)
    ensures LoggedLate(Run(s, steps))
    decreases |steps|
  {
    if steps != [] {
      hide Inv, LoggedLate, Next, Enabled;
      StepLogsLate(s, steps[0]);
      StepKeepsInv(s, steps[0]);
      RunLogsLate(Next(s, steps[0]), steps[1..]);
    }
  }

  /** Over any stretch of any run, the shared queue is a queue: what is taken from it, by the retry limit,
      the pool, the dispatcher's hand or the log, followed by what is left, is what had been taken and was
      left before, followed by the arrivals, in their order. */
  lemma TakenInArrivalOrder(g: Setting, steps: seq<Step>, later: seq<Step>)
    requires CanRun(Begin(g), steps) && CanRun(After(g, steps), later)
    ensures var s := After(g, steps);
            var t := Run(s, later);
            Taken(t) + t.shared == Taken(s) + s.shared + Arrivals(s, later)
  {
    hide Inv, Outcomes, Taken, Arrivals, CanRun, Run;
    AfterInv(g, steps);
    AfterOutcomes(g, steps);
    InitInv(g.config, g.servers, g.garbage, g.clientThreads, g.hardware);
    RunLogsLate(Begin(g), steps);
    RunKeepsOrder(After(g, steps), later);
  }

  // ---- the pool starts them in that order ------------------------------------------------------------------------------

  /** The task a sole pusher has counted and not yet enqueued. */
  function OnItsWay<T>(p: Pool.State<T>): seq<Pool.Task<T>> {
    if |p.clients| == 1 && p.clients[0].Enqueueing? then [p.clients[0].task] else []
  }

  /** With a sole pusher, tasks are enqueued in the order in which they are counted. */
  ghost predicate SoleOrder<T>(p: Pool.State<T>) {
    |p.clients| == 1 && p.issued == p.enqueued + OnItsWay(p)
  }

  lemma PoolStepKeepsSoleOrder<T>(p: Pool.State<T>, step: Pool.Step<T>)
    requires SoleOrder(p) && Pool.Enabled(p, step)
    ensures SoleOrder(Pool.Next(p, step))
  {
    hide Pool.WrapAdd, Pool.WrapSub, Pool.WaitNext;
    if step.BeginPush? {
      assert p.issued == p.enqueued;
    } else if step.Client? && p.clients[0].Enqueueing? {
      assert Pool.Next(p, step).enqueued == p.issued;
    }
  }

  lemma {:induction false} RunKeepsSoleOrder(s: State, steps: seq<Step>)
    requires SoleOrder(s.db) && CanRun(s, steps)
    ensures SoleOrder(Run(s, steps).db)
    decreases |steps|
  {
    if steps != [] {
      hide SoleOrder, Next, Enabled, Pool.Next, Pool.Enabled;
      var p := DbStep(s, steps[0]);
      if p.Some? {
        PoolStepKeepsSoleOrder(s.db, p.value);
      }
      RunKeepsSoleOrder(Next(s, steps[0]), steps[1..]);
    }
  }

  /** What the dispatcher holds or is pushing. */
  function InDispatch(s: State): seq<Entry> {
    HandOf(s.dispatcher) + Bodies(OnItsWay(s.db))
  }

  lemma IssuedByPlace(s: State)
    requires SoleOrder(s.db) && DbPool(s)
    ensures Bodies(s.db.issued) == Bodies(s.db.started) + Bodies(s.db.queue) + Bodies(OnItsWay(s.db))
    ensures Bodies(OnItsWay(s.db)) == [] || HandOf(s.dispatcher) == []
  {
    assert s.db.started + s.db.queue == s.db.enqueued by {
      hide PoolProofs.Counter, PoolProofs.Conserved, PoolProofs.Threads, PoolProofs.Waits, PoolProofs.Sums;
    }
    hide PoolProofs.Inv, Bodies;
    BodiesConcat(s.db.started, s.db.queue);
    BodiesConcat(s.db.enqueued, OnItsWay(s.db));
    NoBodies();
  }

  lemma TakenByPlace(s: State)
    requires SoleOrder(s.db) && DbPool(s)
    ensures Taken(s) == RefusedOf(s.dropped) + Bodies(s.db.started) + Bodies(s.db.queue) + InDispatch(s) + s.logged
  {
    hide DbPool, SoleOrder, RefusedOf, Bodies, OnItsWay, HandOf;
    IssuedByPlace(s);
    var refused, started, queue, way, hand :=
      RefusedOf(s.dropped), Bodies(s.db.started), Bodies(s.db.queue), Bodies(OnItsWay(s.db)), HandOf(s.dispatcher);
    assert refused + (started + queue + way) + hand + s.logged == refused + started + queue + (hand + way) + s.logged;
  }

  /** In every run, the tasks started, then those queued in the pool, then what the dispatcher holds, then
      what was logged, then the shared queue, are what arrived in the shared queue, in the order of its
      arrival; or, under a limit that refuses everything, what was refused comes first and none was
      started. */
  lemma StartedInArrivalOrder(g: Setting, steps: seq<Step>)
    requires CanRun(Begin(g), steps)
    ensures var s := After(g, steps);
            && RefusedOf(s.dropped) + Bodies(s.db.started) + Bodies(s.db.queue) + InDispatch(s) + s.logged + s.shared ==
                 Arrivals(Begin(g), steps)
            && (RefusesAll(g.config) ==> s.db.started == [])
            && (!RefusesAll(g.config) ==> RefusedOf(s.dropped) == [])
  {
    hide Inv, Outcomes, Taken, Arrivals, CanRun, Run, DbPool, SoleOrder, RefusedOf, Bodies, InDispatch;
    var s := After(g, steps);
    AfterInv(g, steps);
    DispatcherParts(s);
    StartsInOrder(g);
    RunKeepsSoleOrder(Begin(g), steps);
    TakenByPlace(s);
    TakenFromTheStart(g, steps);
    AfterOutcomes(g, steps);
    RefusedAllOrNone(s);
  }

  lemma StartsInOrder(g: Setting)
    ensures SoleOrder(Begin(g).db) && CanRun(Begin(g), []) && After(g, []) == Begin(g)
    ensures Taken(Begin(g)) + Begin(g).shared == []
  {
  }

  lemma TakenFromTheStart(g: Setting, steps: seq<Step>)
    requires CanRun(Begin(g), steps)
    ensures Taken(After(g, steps)) + After(g, steps).shared == Arrivals(Begin(g), steps)
  {
    StartsInOrder(g);
    hide Taken, Arrivals, CanRun, Run, Begin;
    TakenInArrivalOrder(g, [], steps);
  }

  lemma {:induction false} NoneRefused(dropped: seq<Drop>)
    requires forall d :: d in dropped ==> !d.reason.RetryLimit?
    ensures RefusedOf(dropped) == []
  {
    if dropped != [] {
      NoneRefused(dropped[..|dropped| - 1]);
    }
  }

  lemma RefusedAllOrNone(s: State)
    requires Outcomes(s) && DbPool(s)
    ensures RefusesAll(s.config) ==> s.db.started == []
    ensures !RefusesAll(s.config) ==> RefusedOf(s.dropped) == []
  {
    if RefusesAll(s.config) {
      NothingStarted(s);
    } else {
      hide DbPool;
      NoneRefused(s.dropped);
    }
  }

  lemma NothingStarted(s: State)
    requires DbPool(s) && s.db.issued == []
    ensures s.db.started == []
  {
    hide PoolProofs.Threads, PoolProofs.Waits, PoolProofs.Sums;
    assert multiset(s.db.enqueued) <= multiset(s.db.issued);
    assert |multiset(s.db.enqueued)| == |s.db.enqueued|;
    assert multiset(s.db.issued) == multiset{};
  }

  // ---- without put-backs --------------------------------------------------------------------------------------------------

  /** No task of the run has put its entry back. */
  predicate NothingPutBack(s: State, steps: seq<Step>)
    requires CanRun(s, steps)
    decreases |steps|
  {
    steps != [] ==>
      && (steps[0].Job? ==> !s.jobs[steps[0].i].NullConnection? && !s.jobs[steps[0].i].Deadlocked?)
      && NothingPutBack(Next(s, steps[0]), steps[1..])
  }

  lemma OnlyPushesArrive(s: State, step: Step)
    requires Inv(s) && Enabled(s, step)
    requires step.Job? ==> !s.jobs[step.i].NullConnection? && !s.jobs[step.i].Deadlocked?
    ensures Next(s, step).pushed == s.pushed + ArrivalOf(s, step)
  {
    hide Inv, Decoded, Pool.Next, Pool.Enabled, ServerNext, JobNext, DispatchNext, DispatchEnabled, MainNext;
    match step
    case Job(i, answer) => JobEffect(s, i, answer); assert s.pushed + [] == s.pushed;
    case Dispatch(_) => OutputStepKeepsInput(s, step); assert s.pushed + [] == s.pushed;
    case Main => MainEffect(s); assert s.pushed + [] == s.pushed;
    case Server(socket) => ServerSameOutput(s, socket); assert s.pushed + [] == s.pushed;
    case Push(_) =>
    case _ => assert s.pushed + [] == s.pushed;
  }

  lemma {:induction false} ArrivalsArePushes(s: State, steps: seq<Step>)
    requires Inv(s) && CanRun(s, steps) && NothingPutBack(s, steps)
    ensures Run(s, steps).pushed == s.pushed + Arrivals(s, steps)
    decreases |steps|
  {
    if steps == [] {
      assert s.pushed + [] == s.pushed;
    } else {
      hide Inv, Next, Enabled, ArrivalOf, Arrivals, Run;
      OnlyPushesArrive(s, steps[0]);
      StepKeepsInv(s, steps[0]);
      ArrivalsArePushes(Next(s, steps[0]), steps[1..]);
      ArrivalsFirst(s, steps);
      Regroup(s.pushed, ArrivalOf(s, steps[0]), Arrivals(Next(s, steps[0]), steps[1..]));
    }
  }

  /** As long as no task has put its entry back, queries start in exactly the order in which the connections
      pushed them: started, queued, held, logged and shared are what was pushed. */
  lemma StartedInPushOrder(g: Setting, steps: seq<Step>)
    requires CanRun(Begin(g), steps) && NothingPutBack(Begin(g), steps) && !RefusesAll(g.config)
    ensures var s := After(g, steps);
            Bodies(s.db.started) + Bodies(s.db.queue) + InDispatch(s) + s.logged + s.shared == s.pushed
  {
    hide Inv, Arrivals, CanRun, Run, RefusedOf, Bodies, InDispatch, NothingPutBack;
    InitInv(g.config, g.servers, g.garbage, g.clientThreads, g.hardware);
    ArrivalsArePushes(Begin(g), steps);
    StartedInArrivalOrder(g, steps);
    var s := After(g, steps);
    assert [] + Bodies(s.db.started) == Bodies(s.db.started);
    assert [] + Arrivals(Begin(g), steps) == Arrivals(Begin(g), steps);
  }
}
