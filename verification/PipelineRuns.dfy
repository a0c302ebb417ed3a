/** Runs of the wired program that do occur: what its upper bounds leave possible. */
module PipelineRuns {
  import opened Bags
  import opened Common
  import Pool = ThreadPool
  import opened FrameDecoder
  import opened FrameTheorems
  import Failover
  import PoolProofs = ThreadPoolProofs
  import opened Pipeline
  import opened PipelineProofs
  import opened PipelineTheorems

  ghost predicate Reaches(g: Setting, s: State) {
    exists steps: seq<Step> :: CanRun(Begin(g), steps) && Run(Begin(g), steps) == s
  }

  lemma {:induction false} RunOneMore(s: State, steps: seq<Step>, last: Step)
    requires CanRun(s, steps) && Enabled(Run(s, steps), last)
    ensures CanRun(s, steps + [last]) && Run(s, steps + [last]) == Next(Run(s, steps), last)
    decreases |steps|
  {
    hide Enabled, Next;
    if steps == [] {
      assert steps + [last] == [last];
      assert [last][1..] == [];
    } else {
      RunOneMore(Next(s, steps[0]), steps[1..], last);
      assert (steps + [last])[1..] == steps[1..] + [last];
    }
  }

  /** One step more. */
  lemma Take(g: Setting, s: State, step: Step) returns (t: State)
    requires Reaches(g, s) && Enabled(s, step)
    ensures t == Next(s, step) && Reaches(g, t)
  {
    hide Enabled, Next;
    var steps :| CanRun(Begin(g), steps) && Run(Begin(g), steps) == s;
    RunOneMore(Begin(g), steps, step);
    t := Next(s, step);
  }

  lemma StartsHere(g: Setting)
    ensures Reaches(g, Begin(g))
  {
    assert CanRun(Begin(g), []) && Run(Begin(g), []) == Begin(g);
  }

  function ClientThreads(g: Setting): nat {
    Pool.EffectiveCount(g.clientThreads, g.hardware)
  }

  /** The program can deliver at all: there is a thread to serve a connection, a server to try and a
      connection to ask for, and the retry limit lets a first attempt through. */
  predicate Delivers(g: Setting) {
    ClientThreads(g) >= 1 && g.servers >= 1 && g.config.maxConnections >= 1 && !RefusesAll(g.config)
  }

  function Fresh<T>(k: nat): seq<Pool.WorkerPc<T>> {
    seq(k, _ => Pool.ReadRunning)
  }

  function NoJobs(k: nat): seq<JobPc> {
    seq(k, _ => NoJob)
  }

  // ---- one connection sends its queries -------------------------------------------------------------------

  lemma {:induction false} ClientsCreated(g: Setting, k: nat) returns (s: State)
    requires k <= ClientThreads(g)
    ensures Reaches(g, s) && s == Begin(g).(clients := Begin(g).clients.(workers := Fresh(k)))
  {
    hide Reaches;
    StartsHere(g);
    if k == 0 {
      s := Begin(g);
    } else {
      var r := ClientsCreated(g, k - 1);
      s := Take(g, r, ClientOwner);
      assert Fresh<nat>(k - 1) + [Pool.ReadRunning] == Fresh(k);
    }
  }

  /** The accept loop is back at its top, and the first thread serves the one connection accepted. */
  ghost predicate InputOpen(g: Setting, s: State) {
    var p := s.clients;
    && |p.workers| == ClientThreads(g) == p.threadCount >= 1 && p.workers[0].Executing? && p.workers[0].task.id == 0
    && (forall j :: 1 <= j < |p.workers| ==> p.workers[j].ReadRunning?)
    && p.running && !p.paused && p.ctl.Ready? && p.total == 1 && |p.clients| == 1 && p.clients[0].Idle?
    && s.server.ServerTop? && !s.serverStop
  }

  /** Nothing has happened but on the side of the clients. */
  ghost predicate OutputUntouched(g: Setting, s: State) {
    && s.config == g.config && s.db == Begin(g).db && s.jobs == [] && s.dispatcher.Starting? && s.main.InService? && !s.outputStop
    && s.database == Begin(g).database && s.poolNumber == 0 && s.executed == []
  }

  lemma Accepted(g: Setting) returns (s: State)
    requires ClientThreads(g) >= 1
    ensures Reaches(g, s) && OutputUntouched(g, s) && s.handlers == [Handler([], 0, 0, false)]
    ensures s.shared == [] && s.pushed == [] && s.clients.workers == Fresh(ClientThreads(g))
    ensures s.clients.running && !s.clients.paused && s.clients.ctl.Ready? && s.clients.queue == [Pool.Task(0, 3)]
    ensures s.clients.total == 1 && s.clients.threadCount == ClientThreads(g) && s.clients.clients == [Pool.Idle]
    ensures s.server.ServerTop? && !s.serverStop && s.executed == []
  {
    hide Reaches;
    var r := ClientsCreated(g, ClientThreads(g));
    var a := Take(g, r, ClientOwner);
    var b := Take(g, a, Server(None));
    var c := Take(g, b, Server(Some(3)));
    s := Take(g, c, Server(None));
  }

  lemma Served(g: Setting) returns (s: State)
    requires ClientThreads(g) >= 1
    ensures Reaches(g, s) && OutputUntouched(g, s) && s.handlers == [Handler([], 0, 0, false)]
    ensures s.shared == [] && s.pushed == [] && Serves(s, 0) && ConnOf(s, 0) == 0 && InputOpen(g, s)
  {
    hide Reaches;
    var r := Accepted(g);
    var a := Take(g, r, ClientThread(0));
    assert a.clients.workers[0] == Pool.ReadPaused;
    var b := Take(g, a, ClientThread(0));
    assert b.clients.workers[0] == Pool.TryPop;
    s := Take(g, b, ClientThread(0));
  }

  function EmptyQueries(n: nat): seq<Frame> {
    seq(n, _ => Frame([], []))
  }

  function Sent(n: nat): seq<byte> {
    [PROTO_VERSION] + Encode(EmptyQueries(n))
  }

  lemma SentDecodes(config: Config, n: nat)
    ensures |Decoded(config, Sent(n))| == n
  {
    hide FeedAll, Encode;
    RoundTrip(config.status, EmptyQueries(n));
  }

  /** `k` of `n` queries sent have been pushed and acknowledged. */
  ghost predicate HasPushed(g: Setting, s: State, n: nat, k: nat) {
    && OutputUntouched(g, s) && InputOpen(g, s) && s.handlers == [Handler(Sent(n), k, k, false)] && Serves(s, 0) && ConnOf(s, 0) == 0
    && |s.shared| == |s.pushed| == k && (forall j :: 0 <= j < k ==> s.shared[j].attempts == 0)
  }

  lemma PushOneMore(g: Setting, r: State, n: nat, k: nat) returns (s: State)
    requires Reaches(g, r) && HasPushed(g, r, n, k) && k < n
    ensures Reaches(g, s) && HasPushed(g, s, n, k + 1)
  {
    hide Reaches, Decoded, Sent;
    SentDecodes(g.config, n);
    var a := Take(g, r, Push(0));
    s := Take(g, a, Acknowledge(0));
  }

  lemma Received(g: Setting, n: nat) returns (s: State)
    requires ClientThreads(g) >= 1
    ensures Reaches(g, s) && HasPushed(g, s, n, 0)
  {
    hide Reaches, Sent;
    var r := Served(g);
    SentNotEmpty(n);
    NothingDecoded(g.config);
    s := Take(g, r, Receive(0, Sent(n)));
    assert [] + Sent(n) == Sent(n);
  }

  lemma SentNotEmpty(n: nat)
    ensures Sent(n) != []
  {
  }

  lemma NothingDecoded(config: Config)
    ensures Decoded(config, []) == []
  {
  }

  lemma {:induction false} AllPushed(g: Setting, n: nat, k: nat) returns (s: State)
    requires ClientThreads(g) >= 1 && k <= n
    ensures Reaches(g, s) && HasPushed(g, s, n, k)
    decreases k
  {
    hide Reaches, HasPushed;
    if k == 0 {
      s := Received(g, n);
    } else {
      var r := AllPushed(g, n, k - 1);
      s := PushOneMore(g, r, n, k - 1);
    }
  }

  // ---- the database pool and its connection pool come up ----------------------------------------------------

  function DbThreads(g: Setting): nat {
    g.config.maxConnections + 1
  }

  lemma {:induction false} DbCreated(g: Setting, r: State, k: nat) returns (s: State)
    requires Reaches(g, r) && OutputUntouched(g, r) && k <= DbThreads(g)
    ensures Reaches(g, s) && s == r.(db := r.db.(workers := Fresh(k)), jobs := NoJobs(k))
    decreases k
  {
    hide Reaches;
    if k == 0 {
      s := r;
      assert Fresh<Entry>(0) == [] && NoJobs(0) == [];
    } else {
      var q := DbCreated(g, r, k - 1);
      s := Take(g, q, DbOwner);
      assert Fresh<Entry>(k - 1) + [Pool.ReadRunning] == Fresh(k) && NoJobs(k - 1) + [NoJob] == NoJobs(k);
    }
  }

  /** The pool of the database tasks is up with all its threads at the start of their loop, `k` tasks being
      queued. */
  ghost predicate Up(g: Setting, s: State, k: nat) {
    && s.config == g.config && s.main.InService? && !s.outputStop && AllAccepted(g, s) && s.executed == []
    && s.db.running && !s.db.paused && s.db.ctl.Ready? && s.db.total == |s.db.queue| == k
    && s.db.workers == Fresh(DbThreads(g)) && s.jobs == NoJobs(DbThreads(g)) && |s.db.clients| == 1
    && (forall j :: 0 <= j < |s.shared| ==> s.shared[j].attempts == 0)
  }

  /** The one connection has sent all its queries, and they have been pushed and acknowledged. */
  ghost predicate AllAccepted(g: Setting, s: State) {
    && InputOpen(g, s) && |s.pushed| == DbThreads(g)
    && s.handlers == [Handler(Sent(DbThreads(g)), DbThreads(g), DbThreads(g), false)]
  }

  lemma Ready(g: Setting) returns (s: State)
    requires ClientThreads(g) >= 1
    ensures Reaches(g, s) && Up(g, s, 0) && |s.shared| == DbThreads(g)
    ensures s.dispatcher.Starting? && Pool.Free(s.db.clients[0]) && s.database == Begin(g).database
  {
    hide Reaches, Serves;
    var q := AllPushed(g, DbThreads(g), DbThreads(g));
    var r := DbCreated(g, q, DbThreads(g));
    s := Take(g, r, DbOwner);
  }

  const OPENS: Failover.Call := Failover.Call(false, 1, 1, Failover.Opens, 1)

  lemma Waited(g: Setting) returns (s: State)
    requires ClientThreads(g) >= 1
    ensures Reaches(g, s) && Up(g, s, 0) && |s.shared| == DbThreads(g)
    ensures s.dispatcher.Pinging? && Pool.Free(s.db.clients[0]) && s.database == Begin(g).database
  {
    hide Reaches, Fresh, NoJobs;
    var r := Ready(g);
    var a := Take(g, r, Dispatch(OPENS));
    var b := Take(g, a, Dispatch(OPENS));
    assert b.dispatcher.Setup? && b.db.clients[0] == Pool.Waiting(Pool.ReadTotal);
    s := Take(g, b, Dispatch(OPENS));
  }

  lemma FirstServerIsViable(g: Setting)
    requires g.servers >= 1
    ensures Failover.Connect(Failover.Disconnected(Begin(g).database, OPENS), OPENS).live
  {
    assert Failover.Viable(0, 1);
  }

  lemma Opened(g: Setting) returns (s: State)
    requires ClientThreads(g) >= 1 && g.servers >= 1
    ensures Reaches(g, s) && Up(g, s, 0) && |s.shared| == DbThreads(g)
    ensures s.dispatcher.Top? && Pool.Free(s.db.clients[0]) && s.database.live
  {
    hide Reaches, Fresh, NoJobs, Failover.Connect, Failover.Disconnected;
    FirstServerIsViable(g);
    var r := Waited(g);
    var a := Take(g, r, Dispatch(OPENS));
    s := Take(g, a, Dispatch(OPENS));
  }

  // ---- the dispatcher fills the pool before a thread wakes -----------------------------------------------------

  /** The dispatcher has pushed `k` tasks and is about to look for the next query. */
  ghost predicate Looking(g: Setting, s: State, k: nat) {
    && Up(g, s, k) && s.dispatcher.CheckMore? && Pool.Free(s.db.clients[0]) && s.database.live
    && |s.shared| + k == DbThreads(g)
  }

  lemma StartsLooking(g: Setting) returns (s: State)
    requires ClientThreads(g) >= 1 && g.servers >= 1
    ensures Reaches(g, s) && Looking(g, s, 0)
  {
    hide Reaches, Fresh, NoJobs;
    var r := Opened(g);
    var a := Take(g, r, Dispatch(OPENS));
    var b := Take(g, a, Dispatch(OPENS));
    s := Take(g, b, Dispatch(OPENS));
  }

  /** The guard sees nothing running, since everything pushed is still queued. */
  lemma GuardPasses(g: Setting, r: State, k: nat) returns (s: State)
    requires Delivers(g) && Reaches(g, r) && Looking(g, r, k) && k < DbThreads(g)
    ensures Reaches(g, s) && Up(g, s, k) && s.dispatcher.Popping? && Pool.Free(s.db.clients[0])
    ensures s.database.live && |s.shared| + k == DbThreads(g)
  {
    hide Reaches, Fresh, NoJobs, AllAccepted;
    var a := Take(g, r, Dispatch(OPENS));
    var b := Take(g, a, Dispatch(OPENS));
    assert b.dispatcher.Comparing? && b.db.clients[0] == Pool.Summed(0);
    s := Take(g, b, Dispatch(OPENS));
    SameAccepted(g, r, s);
  }

  lemma SameAccepted(g: Setting, s: State, t: State)
    requires AllAccepted(g, s) && t.clients == s.clients && t.server == s.server && t.serverStop == s.serverStop
    requires t.pushed == s.pushed && t.handlers == s.handlers
    ensures AllAccepted(g, t)
  {
  }

  /** The dispatcher holds an entry it has popped, `k` tasks being queued. */
  ghost predicate Carrying(g: Setting, s: State, k: nat) {
    && Up(g, s, k) && s.dispatcher.Holding? && s.dispatcher.entry.attempts == 0 && Pool.Free(s.db.clients[0])
    && s.database.live && |s.shared| + k + 1 == DbThreads(g)
  }

  lemma PopsTask(g: Setting, r: State, k: nat) returns (s: State)
    requires k < DbThreads(g)
    requires Reaches(g, r) && Up(g, r, k) && r.dispatcher.Popping? && Pool.Free(r.db.clients[0])
    requires r.database.live && |r.shared| + k == DbThreads(g)
    ensures Reaches(g, s) && Carrying(g, s, k)
  {
    hide Reaches, Fresh, NoJobs, AllAccepted;
    s := Take(g, r, Dispatch(OPENS));
    SameAccepted(g, r, s);
  }

  lemma PushesTask(g: Setting, r: State, k: nat) returns (s: State)
    requires Delivers(g) && DbThreads(g) < WORD && k < DbThreads(g)
    requires Reaches(g, r) && Carrying(g, r, k)
    ensures Reaches(g, s) && Looking(g, s, k + 1)
  {
    hide Reaches, Fresh, NoJobs, AllAccepted;
    var a := Take(g, r, Dispatch(OPENS));
    s := Take(g, a, Dispatch(OPENS));
    SameAccepted(g, r, s);
  }

  lemma {:induction false} Filled(g: Setting, k: nat) returns (s: State)
    requires Delivers(g) && DbThreads(g) < WORD && k <= DbThreads(g)
    ensures Reaches(g, s) && Looking(g, s, k)
    decreases k
  {
    hide Reaches, Looking, Up, Carrying;
    if k == 0 {
      s := StartsLooking(g);
    } else {
      var r := Filled(g, k - 1);
      var a := GuardPasses(g, r, k - 1);
      var b := PopsTask(g, a, k - 1);
      s := PushesTask(g, b, k - 1);
    }
  }

  // ---- every thread takes a task ------------------------------------------------------------------------------

  /** The first `i` threads run a task each; the others are at the start of their loop. */
  ghost predicate Taken(g: Setting, s: State, i: nat) {
    && s.config == g.config && s.main.InService? && !s.outputStop && AllAccepted(g, s) && s.executed == []
    && s.dispatcher.CheckMore? && s.shared == [] && s.database.live
    && s.db.running && !s.db.paused && s.db.ctl.Ready? && |s.db.clients| == 1 && Pool.Free(s.db.clients[0])
    && s.db.total == DbThreads(g) && (forall j :: 0 <= j < |s.jobs| ==> if j < i then s.jobs[j].Entered? else s.jobs[j].NoJob?)
    && |s.db.workers| == |s.jobs| == DbThreads(g) && |s.db.queue| + i == DbThreads(g)
    && (forall j :: 0 <= j < i ==> s.db.workers[j].Executing?)
    && (forall j :: i <= j < |s.db.workers| ==> s.db.workers[j].ReadRunning?)
  }

  lemma TakesTask(g: Setting, r: State, i: nat) returns (s: State)
    requires Reaches(g, r) && Taken(g, r, i) && i < DbThreads(g)
    ensures Reaches(g, s) && Taken(g, s, i + 1)
  {
    hide Reaches;
    var a := Take(g, r, DbThread(i));
    assert a.db.workers == r.db.workers[i := Pool.ReadPaused];
    var b := Take(g, a, DbThread(i));
    assert b.db.workers == r.db.workers[i := Pool.TryPop];
    s := Take(g, b, DbThread(i));
    assert s.db.workers == r.db.workers[i := Pool.Executing(r.db.queue[0])];
  }

  lemma {:induction false} AllTaken(g: Setting, i: nat) returns (s: State)
    requires Delivers(g) && DbThreads(g) < WORD && i <= DbThreads(g)
    ensures Reaches(g, s) && Taken(g, s, i)
    decreases i
  {
    hide Reaches;
    if i == 0 {
      s := Filled(g, DbThreads(g));
    } else {
      hide Taken;
      var r := AllTaken(g, i - 1);
      s := TakesTask(g, r, i - 1);
    }
  }

  lemma {:induction false} AllExecuting<T>(workers: seq<Pool.WorkerPc<T>>)
    requires forall w :: w in workers ==> w.Executing?
    ensures |Gather(workers, Pool.ExecutingOf)| == |workers|
  {
    if workers != [] {
      AllExecuting(workers[..|workers| - 1]);
    }
  }

  /** Whatever the maximum of connections, there is a run in which one task more than that runs at once:
      the dispatcher pushes while what it pushed before is still queued and hence not counted. */
  lemma OneMoreThanMaximumRuns(g: Setting) returns (s: State)
    requires Delivers(g) && DbThreads(g) < WORD
    ensures Reaches(g, s) && |Pool.RunningTasks(s.db)| == g.config.maxConnections + 1
  {
    hide Reaches, Gather;
    s := AllTaken(g, DbThreads(g));
    AllExecuting(s.db.workers);
  }

  // ---- when nothing is ever pushed to the pool -------------------------------------------------------------------

  lemma OnlyHoldingIssues(s: State, step: Step)
    requires Inv(s) && Enabled(s, step) && !(step.Dispatch? && s.dispatcher.Holding?)
    ensures Next(s, step).db.issued == s.db.issued
  {
    hide Inv, DbPool, DispatchNext, DispatchEnabled, JobNext, MainNext, ServerNext, PushNext, DbThreadNext, DbOwnerNext;
    DispatcherParts(s);
    match step
    case Dispatch(call) => OtherDispatchLeavesAlone(s, call);
    case Job(i, answer) => JobLeavesAlone(s, i, answer);
    case DbThread(_) => DbPoolInv(s); DbStepLeavesAlone(s, step);
    case DbOwner => DbPoolInv(s); DbStepLeavesAlone(s, step);
    case _ => OtherStepLeavesAlone(s, step);
  }

  /** No server: no connection pool is ever live. */
  ghost predicate Serverless(s: State) {
    s.database.marks == [] && !s.database.live
  }

  lemma NowhereToConnect(d: Failover.Db, call: Failover.Call)
    requires d.marks == [] && !d.live
    ensures Failover.Disconnected(d, call) == d && Failover.Connect(d, call) == d
  {
  }

  lemma ServerlessDispatch(s: State, call: Failover.Call)
    requires DispatchEnabled(s) && Serverless(s) && (s.dispatcher.Pinging? || s.dispatcher.Opening?)
    ensures Serverless(DispatchNext(s, call))
  {
    hide Pool.Next, Pool.Enabled, Failover.Connect, Failover.Disconnected;
    NowhereToConnect(s.database, call);
  }

  lemma ServerlessStays(s: State, step: Step)
    requires Inv(s) && Enabled(s, step) && Serverless(s)
    ensures Serverless(Next(s, step))
  {
    hide Inv, DbPool, DispatchNext, DispatchEnabled, JobNext, MainNext, ServerNext, PushNext, DbThreadNext, DbOwnerNext;
    DispatcherParts(s);
    if !step.Dispatch? {
      OthersLeaveDatabase(s, step);
    } else if s.dispatcher.Pinging? || s.dispatcher.Opening? {
      ServerlessDispatch(s, step.call);
    } else if WaitsNext(s) {
      WaitingDispatchEffect(s, step.call);
    } else {
      PlainDispatchKeepsDatabase(s, step.call);
    }
  }

  lemma ServerlessHoldsNothing(s: State)
    requires Inv(s) && Serverless(s)
    ensures !s.dispatcher.Holding?
  {
    hide Inv, DbPool;
    DispatcherParts(s);
  }

  /** No connection allowed: the guard never lets the dispatcher pop. */
  ghost predicate Shut(s: State) {
    s.config.maxConnections == 0 && !s.dispatcher.Popping? && !s.dispatcher.Holding? && !s.dispatcher.Pushing?
  }

  lemma ShutStays(s: State, step: Step)
    requires Inv(s) && Enabled(s, step) && Shut(s)
    ensures Shut(Next(s, step))
  {
    hide Inv, DbPool, Lifetime, DispatchNext, DispatchEnabled, JobNext, MainNext, ServerNext, PushNext, DbThreadNext;
    DispatcherParts(s);
    if !step.Dispatch? {
      OthersLeaveDispatcher(s, step);
    } else if WaitsNext(s) {
      WaitingDispatchEffect(s, step.call);
    } else {
      ShutDispatch(s, step.call);
    }
  }

  lemma ShutDispatch(s: State, call: Failover.Call)
    requires DispatchEnabled(s) && Shut(s) && !WaitsNext(s)
    ensures Shut(DispatchNext(s, call))
  {
    hide Pool.Next, Pool.Enabled, Failover.Connect, Failover.Disconnected;
  }

  /** No thread for a connection: none is ever served. */
  ghost predicate Unserved(s: State) {
    s.clients.threadCount == 0 && s.pushed == []
  }

  lemma ServerKeepsThreadCount(s: State, socket: Option<nat>)
    requires ServerEnabled(s)
    ensures ServerNext(s, socket).clients.threadCount == s.clients.threadCount && ServerNext(s, socket).pushed == s.pushed
  {
    hide Pool.WrapAdd, Pool.WaitNext;
  }

  lemma OwnerKeepsThreadCount(s: State)
    requires ClientPool(s) && Pool.ControlEnabled(s.clients)
    ensures Pool.ControlNext(s.clients).threadCount == s.clients.threadCount
  {
    hide PoolProofs.Inv, Pool.WaitNext;
  }

  lemma NobodyServes(s: State, i: nat)
    requires ClientPool(s) && s.clients.threadCount == 0
    ensures !Serves(s, i)
  {
    hide PoolProofs.Counter, PoolProofs.Conserved, PoolProofs.Waits, PoolProofs.Sums, PoolProofs.Fifo;
  }

  lemma InputPool(s: State)
    requires Inv(s)
    ensures ClientPool(s) && Conserved(s)
  {
    hide ClientPool, Conserved, Handlers, DbPool, Lifetime, Jobs, Connections, Shutdown;
  }

  lemma UnservedStays(s: State, step: Step)
    requires Inv(s) && Enabled(s, step) && Unserved(s)
    ensures Unserved(Next(s, step))
  {
    hide Inv, ClientPool, Conserved, DispatchNext, DispatchEnabled, JobNext, MainNext, ServerNext, DbThreadNext, DbOwnerNext;
    InputPool(s);
    match step
    case ClientThread(i) => NobodyServes(s, i); WorkerKeepsThreadCount(s.clients, i);
    case ClientOwner => OwnerKeepsThreadCount(s);
    case Server(socket) => ServerKeepsThreadCount(s, socket);
    case Receive(i, _) => NobodyServes(s, i);
    case Push(i) => NobodyServes(s, i);
    case Acknowledge(i) => NobodyServes(s, i);
    case EndConnection(i) => NobodyServes(s, i);
    case _ => OutputStepKeepsInput(s, step);
  }

  lemma WorkerKeepsThreadCount(p: Pool.State<nat>, i: nat)
    requires Pool.Enabled(p, Pool.Worker(i))
    ensures Pool.Next(p, Pool.Worker(i)).threadCount == p.threadCount
  {
    hide Pool.WrapSub;
  }

  lemma OutputStepKeepsInput(s: State, step: Step)
    requires Inv(s) && Enabled(s, step) && (step.DbThread? || step.DbOwner? || step.Job? || step.Dispatch? || step.Main?)
    ensures Next(s, step).clients == s.clients && Next(s, step).pushed == s.pushed
  {
    hide Inv, DbPool, DispatchNext, DispatchEnabled, JobNext, MainNext, Pool.Next, Pool.Enabled, InputClosed;
    match step
    case Dispatch(call) => DispatcherParts(s); DispatchSameInput(s, call);
    case Job(i, answer) => JobEffect(s, i, answer);
    case Main => MainEffect(s);
    case _ =>
  }

  lemma HeldWasPushed(s: State)
    requires Conserved(s) && s.dispatcher.Holding?
    ensures s.dispatcher.entry in s.pushed
  {
    hide Gather;
    var e := s.dispatcher.entry;
    assert InHand(s.dispatcher, s.db.clients)[e] == 1;
    assert e in PlacesOf(s);
  }

  lemma UnservedHoldsNothing(s: State)
    requires Conserved(s) && Unserved(s)
    ensures !s.dispatcher.Holding?
  {
    hide Conserved;
    if s.dispatcher.Holding? {
      HeldWasPushed(s);
    }
  }

  /** One of the three, and nothing pushed to the pool so far. */
  ghost predicate Starved(s: State) {
    s.db.issued == [] && (Serverless(s) || Shut(s) || Unserved(s))
  }

  lemma StarvedStays(s: State, step: Step)
    requires Inv(s) && Enabled(s, step) && Starved(s)
    ensures Starved(Next(s, step))
  {
    hide Inv, Enabled, Next, Serverless, Unserved, Conserved, ClientPool;
    assert !s.dispatcher.Holding? by {
      if Serverless(s) {
        ServerlessHoldsNothing(s);
      } else if Unserved(s) {
        InputPool(s);
        UnservedHoldsNothing(s);
      }
    }
    OnlyHoldingIssues(s, step);
    if Serverless(s) {
      ServerlessStays(s, step);
    } else if Unserved(s) {
      UnservedStays(s, step);
    } else {
      ShutStays(s, step);
    }
  }

  lemma {:induction false} RunStaysStarved(s: State, steps: seq<Step>)
    requires Inv(s) && CanRun(s, steps) && Starved(s)
    ensures Starved(Run(s, steps))
    decreases |steps|
  {
    if steps != [] {
      hide Inv, Enabled, Next, Starved;
      StarvedStays(s, steps[0]);
      StepKeepsInv(s, steps[0]);
      RunStaysStarved(Next(s, steps[0]), steps[1..]);
    }
  }

  lemma NothingIssued(g: Setting, steps: seq<Step>)
    requires CanRun(Begin(g), steps) && !Delivers(g)
    ensures After(g, steps).db.issued == []
  {
    hide Inv;
    if RefusesAll(g.config) {
      AfterOutcomes(g, steps);
    } else {
      InitInv(g.config, g.servers, g.garbage, g.clientThreads, g.hardware);
      RunStaysStarved(Begin(g), steps);
    }
  }

  lemma NothingRuns(s: State)
    requires DbPool(s) && s.db.issued == []
    ensures Pool.RunningTasks(s.db) == multiset{}
  {
    hide Gather, PoolProofs.Fifo, PoolProofs.Threads, PoolProofs.Waits, PoolProofs.Sums;
  }

  /** Some run has more tasks running at once than there may be connections if and only if the program can
      deliver at all: its guard never enforces the maximum it tests. */
  lemma MaximumExceededIff(g: Setting)
    requires DbThreads(g) < WORD
    ensures (exists s :: Reaches(g, s) && |Pool.RunningTasks(s.db)| > g.config.maxConnections) <==> Delivers(g)
  {
    hide Pool.RunningTasks, Inv, DbPool;
    if Delivers(g) {
      var s := OneMoreThanMaximumRuns(g);
      assert Reaches(g, s) && |Pool.RunningTasks(s.db)| > g.config.maxConnections;
    } else {
      forall s | Reaches(g, s)
        ensures |Pool.RunningTasks(s.db)| == 0
      {
        var steps: seq<Step> :| CanRun(Begin(g), steps) && Run(Begin(g), steps) == s;
        NothingIssued(g, steps);
        AfterInv(g, steps);
        DispatcherParts(s);
        NothingRuns(s);
      }
    }
  }
}
