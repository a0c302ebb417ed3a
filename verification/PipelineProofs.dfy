/** What every step of the wired program keeps. */
module PipelineProofs {
  import opened Bags
  import opened Common
  import Pool = ThreadPool
  import PoolProofs = ThreadPoolProofs
  import opened FrameDecoder
  import Failover
  import opened Pipeline

  // ---- the invariant ------------------------------------------------------------------------------------

  predicate Closing(ctl: Pool.ControlPc) {
    ctl.DestroyWait? || ctl.DestroyStop? || ctl.DestroyJoin? || ctl.Destroyed?
  }

  predicate UnpausedWait(at: Pool.WaitPc) {
    at.ReadPausedFlag? || at.ReadTotal?
  }

  /** The client pool, its single pusher the accept loop, and its destructor, which waits unpaused. */
  ghost predicate ClientPool(s: State) {
    var p := s.clients;
    && PoolProofs.Inv(p) && !p.paused && |p.clients| == 1
    && (p.ctl.Creating? || p.ctl.Ready? || Closing(p.ctl))
    && (s.server.Left? <==> Closing(p.ctl))
    && (if s.server.Enqueueing? then p.clients[0].Enqueueing? else p.clients[0].Idle?)
    && (p.ctl.DestroyWait? ==> UnpausedWait(p.ctl.at))
    && (p.ctl.DestroyStop? || p.ctl.DestroyJoin? || p.ctl.Destroyed? ==> p.ctl.unpaused && p.ctl.seen == |p.issued|)
  }

  predicate Quiet(d: DispatcherPc) {
    d.Starting? || d.Setup? || d.Pinging? || d.Opening? || d.Disconnecting? || d.Finished?
  }

  /** The dispatcher has decided to look for queries on the strength of a live pool. */
  predicate Dispatching(d: DispatcherPc) {
    d.CheckQueue? || d.CheckMore? || d.Counting? || d.Comparing? || d.Popping? || d.Holding? || d.Pushing?
  }

  /** The database pool and its single pusher, the dispatcher. */
  ghost predicate DbPool(s: State) {
    var p := s.db;
    && PoolProofs.Inv(p) && !p.paused && |p.clients| == 1 && (p.ctl.Creating? || p.ctl.Ready?)
    && (match s.dispatcher
        case Setup => p.clients[0].Waiting? && UnpausedWait(p.clients[0].at)
        case Draining => p.clients[0].Waiting? && UnpausedWait(p.clients[0].at)
        case Counting => p.clients[0].Summing? && p.clients[0].issuedAt == |p.issued|
        case Comparing => p.clients[0].Summed?
        case Pushing => p.clients[0].Enqueueing?
        case _ => Pool.Free(p.clients[0]))
    && (Quiet(s.dispatcher) ==> p.total == 0)
  }

  /** The connection pool lives exactly from its one opening to the end of the dispatcher, and tasks are
      outstanding only while it does. */
  ghost predicate Lifetime(s: State) {
    && (s.dispatcher.Starting? || s.dispatcher.Setup? || s.dispatcher.Pinging? || s.dispatcher.Opening? ==> !s.database.live)
    && (Dispatching(s.dispatcher) ==> s.database.live)
    && (s.db.total > 0 ==> s.database.live)
    && s.poolNumber <= 1
    && (!s.dispatcher.Finished? ==> (s.poolNumber == 1 <==> s.database.live))
    && (s.dispatcher.Finished? ==> !s.database.live)
  }

  /** Each executing worker of the database pool is inside a task, the others are not. */
  ghost predicate Jobs(s: State) {
    && |s.jobs| == |s.db.workers|
    && (forall i :: 0 <= i < |s.jobs| ==> (s.db.workers[i].Executing? <==> !s.jobs[i].NoJob?))
    && (forall i :: 0 <= i < |s.jobs| && (s.jobs[i].Connected? || s.jobs[i].Deadlocked? || s.jobs[i].Releasing?) ==>
          s.jobs[i].pool == s.poolNumber)
  }

  ghost function BorrowedOf(j: JobPc): multiset<()> {
    if j.Connected? || j.Deadlocked? || j.Releasing? then multiset{()} else multiset{}
  }

  /** Connections taken from the pool are the ones given back and the ones held by tasks. */
  ghost predicate Connections(acquired: nat, returned: nat, jobs: seq<JobPc>) {
    acquired == returned + |Gather(jobs, BorrowedOf)|
  }

  // ---- where entries are

  ghost function BodyOf(t: Pool.Task<Entry>): multiset<Entry> {
    multiset{t.body}
  }

  ghost function CarriedOf(j: JobPc): multiset<Entry> {
    match j
    case Entered(e) => multiset{e}
    case Acquiring(e) => multiset{e}
    case NullConnection(e) => multiset{e}
    case Connected(e, _) => multiset{e}
    case Deadlocked(e, _) => multiset{e}
    case _ => multiset{}
  }

  ghost function DroppedOf(d: Drop): multiset<Entry> {
    multiset{d.entry}
  }

  /** The entry the dispatcher has popped and not yet enqueued in the pool. */
  ghost function InHand(d: DispatcherPc, clients: seq<Pool.ClientPc<Entry>>): multiset<Entry> {
    if d.Holding? then multiset{d.entry}
    else if |clients| == 1 && clients[0].Enqueueing? then multiset{clients[0].task.body}
    else multiset{}
  }

  ghost function Places(
      shared: seq<Entry>, hand: multiset<Entry>, queue: seq<Pool.Task<Entry>>, jobs: seq<JobPc>,
      executed: seq<Entry>, dropped: seq<Drop>, logged: seq<Entry>): multiset<Entry>
  {
    multiset(shared) + hand + Gather(queue, BodyOf) + Gather(jobs, CarriedOf)
    + multiset(executed) + Gather(dropped, DroppedOf) + multiset(logged)
  }

  ghost function PlacesOf(s: State): multiset<Entry> {
    Places(s.shared, InHand(s.dispatcher, s.db.clients), s.db.queue, s.jobs, s.executed, s.dropped, s.logged)
  }

  /** Pushes are numbered in order, and no attempt has been counted. */
  ghost predicate Numbered(pushed: seq<Entry>) {
    forall k :: 0 <= k < |pushed| ==> pushed[k].id == k && pushed[k].attempts == 0
  }

  /** Every entry ever pushed is in exactly one place. */
  ghost predicate Conserved(s: State) {
    multiset(s.pushed) == PlacesOf(s) && Numbered(s.pushed)
  }

  // ---- connections

  /** The queries of the entries that came from connection `k`, in push order. */
  function FromConnection(entries: seq<Entry>, k: nat): seq<seq<byte>> {
    if entries == [] then []
    else
      var last := entries[|entries| - 1];
      FromConnection(entries[..|entries| - 1], k) + (if last.conn == k then [last.query] else [])
  }

  ghost predicate HandlerOk(config: Config, pushed: seq<Entry>, k: nat, h: Handler) {
    var queries := Decoded(config, h.received);
    && h.pushed <= |queries| && h.acked <= h.pushed <= h.acked + 1
    && FromConnection(pushed, k) == queries[..h.pushed]
    && (h.ended ==> h.acked == h.pushed == |queries|)
  }

  /** The tasks the client pool has run to the end are connections that have ended. */
  ghost predicate Ended(finished: seq<Pool.Task<nat>>, handlers: seq<Handler>) {
    forall k :: 0 <= k < |finished| ==> finished[k].id < |handlers| && handlers[finished[k].id].ended
  }

  ghost predicate Handlers(s: State) {
    && |s.handlers| == |s.clients.issued|
    && (forall k :: 0 <= k < |s.handlers| ==> HandlerOk(s.config, s.pushed, k, s.handlers[k]))
    && (forall k :: 0 <= k < |s.pushed| ==> s.pushed[k].conn < |s.handlers|)
    && Ended(s.clients.finished, s.handlers)
  }

  // ---- shutdown

  predicate InputClosed(m: MainPc) {
    m.StopOutput? || m.JoinOutput? || m.DrainTest? || m.DrainPop? || m.Exited?
  }

  predicate OutputClosed(m: MainPc) {
    m.DrainTest? || m.DrainPop? || m.Exited?
  }

  /** How far the shutdown has got, and what is known of the queue where it is popped. */
  ghost predicate Shutdown(s: State) {
    && !s.popFault
    && (OutputClosed(s.main) ==> s.dispatcher.Finished?)
    && (s.main.DrainPop? ==> s.shared != [])
    && (s.main.Exited? ==> s.shared == [])
    && (s.dispatcher.Counting? || s.dispatcher.Comparing? || s.dispatcher.Popping? ==> s.shared != [])
  }

  /** The half of the program that receives queries. */
  ghost predicate InputSide(s: State) {
    ClientPool(s) && Handlers(s) && (InputClosed(s.main) ==> s.clients.ctl.Destroyed?)
  }

  /** The half that delivers them. */
  ghost predicate OutputSide(s: State) {
    && DbPool(s) && Lifetime(s) && Jobs(s) && Connections(s.acquired, s.returned, s.jobs) && Conserved(s) && Shutdown(s)
  }

  ghost predicate Inv(s: State) {
    InputSide(s) && OutputSide(s)
  }

  // ---- what the halves depend on

  ghost predicate SameInput(s: State, t: State) {
    && t.config == s.config && t.clients == s.clients && t.server == s.server && t.handlers == s.handlers
    && t.pushed == s.pushed && (InputClosed(t.main) ==> InputClosed(s.main))
  }

  ghost predicate SameOutput(s: State, t: State) {
    && t.config == s.config && t.db == s.db && t.jobs == s.jobs && t.dispatcher == s.dispatcher && t.database == s.database
    && t.poolNumber == s.poolNumber && t.acquired == s.acquired && t.returned == s.returned
    && t.shared == s.shared && t.popFault == s.popFault && t.main == s.main
    && t.pushed == s.pushed && t.executed == s.executed && t.dropped == s.dropped && t.logged == s.logged
  }

  lemma SameInputKeeps(s: State, t: State)
    requires InputSide(s) && SameInput(s, t)
    ensures InputSide(t)
  {
    hide PoolProofs.Inv, HandlerOk, Ended;
  }

  lemma SameOutputKeeps(s: State, t: State)
    requires OutputSide(s) && SameOutput(s, t)
    ensures OutputSide(t)
  {
    hide PoolProofs.Inv, Connections, Places, InHand, Numbered;
  }

  // ---- the start ----------------------------------------------------------------------------------------

  lemma InitInv(config: Config, servers: nat, garbage: nat, clientThreads: nat, hardware: nat)
    ensures Inv(Init(config, servers, garbage, clientThreads, hardware))
  {
    PoolProofs.InitInv<nat>(clientThreads, hardware, 1);
    PoolProofs.InitInv<Entry>(config.maxConnections + 1, hardware, 1);
    hide PoolProofs.Inv;
  }

  // ---- what pool steps change ------------------------------------------------------------------------------

  /** No worker step raises the counter. */
  lemma WorkerCounter<T>(p: Pool.State<T>, i: nat)
    requires PoolProofs.Inv(p) && Pool.Enabled(p, Pool.Worker(i))
    ensures Pool.WorkerNext(p, i).total <= p.total
  {
    hide PoolProofs.Conserved, PoolProofs.Fifo, PoolProofs.Threads, PoolProofs.Waits, PoolProofs.Sums, Pool.WrapSub, Gather;
    PoolProofs.WorkerHeldSize(p, i);
    if p.workers[i].Decrementing? {
      PoolProofs.WrapSubExact(p.total, 1);
    }
  }

  /** A worker step leaves the clients, the flags and the owner alone. */
  lemma WorkerEffect<T>(p: Pool.State<T>, i: nat)
    requires PoolProofs.Inv(p) && Pool.Enabled(p, Pool.Worker(i))
    ensures var t := Pool.Next(p, Pool.Worker(i));
            && PoolProofs.Inv(t) && t.total <= p.total
            && t.clients == p.clients && t.ctl == p.ctl && t.paused == p.paused && t.issued == p.issued
            && |t.workers| == |p.workers| && t.workers == p.workers[i := t.workers[i]]
            && t.threadCount == p.threadCount
  {
    hide PoolProofs.Inv, Pool.WrapSub;
    PoolProofs.StepKeepsInv(p, Pool.Worker(i));
    WorkerCounter(p, i);
  }

  /** What a worker step does to the queue, the tasks run to the end and the worker. */
  lemma WorkerMoves<T>(p: Pool.State<T>, i: nat)
    requires Pool.Enabled(p, Pool.Worker(i))
    ensures var t := Pool.Next(p, Pool.Worker(i));
            && (p.workers[i].TryPop? && p.queue != [] ==>
                  t.queue == p.queue[1..] && t.workers[i] == Pool.Executing(p.queue[0]) && t.finished == p.finished)
            && (p.workers[i].Executing? ==>
                  t.queue == p.queue && t.workers[i].Decrementing? && t.finished == p.finished + [p.workers[i].task])
            && (!p.workers[i].Executing? && !(p.workers[i].TryPop? && p.queue != []) ==>
                  t.queue == p.queue && !t.workers[i].Executing? && t.finished == p.finished)
  {
    hide Pool.WrapSub;
  }

  // ---- client pool workers, its owner, the accept loop --------------------------------------------------------

  lemma ClientThreadKeeps(s: State, i: nat)
    requires InputSide(s) && ClientThreadEnabled(s, i)
    ensures InputSide(s.(clients := Pool.Next(s.clients, Pool.Worker(i))))
  {
    hide PoolProofs.Inv, Pool.Next, Pool.Enabled, HandlerOk, Gather;
    WorkerEffect(s.clients, i);
    WorkerMoves(s.clients, i);
  }

  lemma ClientOwnerKeeps(s: State)
    requires InputSide(s) && !s.clients.ctl.Destroyed? && Pool.ControlEnabled(s.clients)
    ensures InputSide(s.(clients := Pool.Next(s.clients, Pool.Control)))
  {
    hide PoolProofs.Inv, HandlerOk, Gather, Pool.WrapSub;
    PoolProofs.StepKeepsInv(s.clients, Pool.Control);
  }

  lemma {:induction false} NothingFrom(entries: seq<Entry>, k: nat)
    requires forall j :: 0 <= j < |entries| ==> entries[j].conn < k
    ensures FromConnection(entries, k) == []
  {
    if entries != [] {
      NothingFrom(entries[..|entries| - 1], k);
    }
  }

  lemma NewHandlerOk(s: State)
    requires Handlers(s)
    ensures HandlerOk(s.config, s.pushed, |s.handlers|, Handler([], 0, 0, false))
  {
    NothingFrom(s.pushed, |s.handlers|);
  }

  lemma ServerKeeps(s: State, socket: Option<nat>)
    requires InputSide(s) && ServerEnabled(s)
    ensures InputSide(ServerNext(s, socket))
  {
    hide PoolProofs.Inv, HandlerOk, Gather, Pool.WrapAdd;
    NewHandlerOk(s);
    match s.server
    case ServerTop => PoolProofs.StepKeepsInv(s.clients, Pool.BeginDestroy);
    case Listening =>
      if socket.Some? {
        PoolProofs.StepKeepsInv(s.clients, Pool.BeginPush(0, socket.value));
      }
    case Enqueueing => PoolProofs.StepKeepsInv(s.clients, Pool.Client(0));
    case Left =>
  }

  // ---- connections ---------------------------------------------------------------------------------------------

  /** More bytes only add queries behind those already decoded. */
  lemma DecodedGrows(config: Config, received: seq<byte>, bytes: seq<byte>)
    ensures Decoded(config, received) <= Decoded(config, received + bytes)
  {
    hide FeedAll;
    FeedSplit(Current, config.status, Start(Current), received, bytes);
    FeedAppends(Current, config.status, FeedAll(Current, config.status, Start(Current), received), bytes);
  }

  lemma ReceiveKeepsHandlers(s: State, i: nat, bytes: seq<byte>)
    requires Handlers(s) && Enabled(s, Receive(i, bytes))
    ensures Handlers(Next(s, Receive(i, bytes)))
  {
    hide Gather, Decoded, FromConnection;
    DecodedGrows(s.config, s.handlers[ConnOf(s, i)].received, bytes);
  }

  lemma AnswerKeepsHandlers(s: State, step: Step)
    requires Handlers(s) && Enabled(s, step) && (step.Acknowledge? || step.EndConnection?)
    ensures Handlers(Next(s, step))
  {
    hide Gather, Decoded, FromConnection;
  }

  lemma FromConnectionAppend(entries: seq<Entry>, e: Entry, k: nat)
    ensures FromConnection(entries + [e], k) == FromConnection(entries, k) + if e.conn == k then [e.query] else []
  {
    assert (entries + [e])[..|entries|] == entries;
  }

  /** A push is the next query of its own connection and of no other. */
  lemma PushKeepsHandlers(s: State, k: nat)
    requires Handlers(s) && k < |s.handlers| && HasQuery(s, k)
    ensures Handlers(PushNext(s, k))
  {
    hide Decoded, FromConnection;
    var t := PushNext(s, k);
    var entry := t.pushed[|s.pushed|];
    forall j | 0 <= j < |t.handlers|
      ensures HandlerOk(t.config, t.pushed, j, t.handlers[j])
    {
      FromConnectionAppend(s.pushed, entry, j);
      assert HandlerOk(s.config, s.pushed, j, s.handlers[j]);
    }
  }

  // Moving one entry between two of the places.

  lemma PushToShared(a: multiset<Entry>, b: multiset<Entry>, c: multiset<Entry>, d: multiset<Entry>, e: multiset<Entry>,
                     f: multiset<Entry>, g: multiset<Entry>, x: multiset<Entry>)
    ensures (a + x) + b + c + d + e + f + g == a + b + c + d + e + f + g + x
  {
  }

  lemma PushKeepsConserved(s: State, k: nat)
    requires Conserved(s) && k < |s.handlers| && HasQuery(s, k)
    ensures Conserved(PushNext(s, k))
  {
    hide Gather, Decoded;
    var t := PushNext(s, k);
    var entry := t.pushed[|s.pushed|];
    MultisetAppend(s.pushed, entry);
    MultisetAppend(s.shared, entry);
    PushToShared(multiset(s.shared), InHand(s.dispatcher, s.db.clients), Gather(s.db.queue, BodyOf), Gather(s.jobs, CarriedOf),
                 multiset(s.executed), Gather(s.dropped, DroppedOf), multiset(s.logged), multiset{entry});
  }

  // ---- steps of the input half ------------------------------------------------------------------------------------

  predicate InputStep(step: Step) {
    !step.DbThread? && !step.DbOwner? && !step.Job? && !step.Dispatch? && !step.Main? && !step.Push?
  }

  lemma InputStepSameOutput(s: State, step: Step)
    requires Enabled(s, step) && InputStep(step)
    ensures SameOutput(s, Next(s, step))
  {
    hide Pool.Next, Pool.Enabled, Decoded, ServerNext, ServerEnabled, Pool.ControlEnabled;
    if step.Server? {
      ServerSameOutput(s, step.socket);
    }
  }

  lemma ServerSameOutput(s: State, socket: Option<nat>)
    requires ServerEnabled(s)
    ensures SameOutput(s, ServerNext(s, socket))
  {
    hide Pool.Next, Pool.Enabled;
  }

  lemma ConnectionKeepsInput(s: State, step: Step)
    requires InputSide(s) && Enabled(s, step) && (step.Receive? || step.Acknowledge? || step.EndConnection?)
    ensures InputSide(Next(s, step))
  {
    hide PoolProofs.Inv, Handlers, Decoded, Pool.Next, Pool.Enabled, Gather;
    if step.Receive? {
      ReceiveKeepsHandlers(s, step.i, step.bytes);
    } else {
      AnswerKeepsHandlers(s, step);
    }
    HandlersRange(s);
  }

  lemma HandlersRange(s: State)
    requires Handlers(s)
    ensures |s.handlers| == |s.clients.issued|
  {
  }

  lemma InputStepKeepsInv(s: State, step: Step)
    requires Inv(s) && Enabled(s, step) && InputStep(step)
    ensures Inv(Next(s, step))
  {
    hide InputSide, OutputSide, SameOutput, ServerNext, ServerEnabled, Decoded, ClientThreadEnabled, Pool.Next;
    InputStepSameOutput(s, step);
    SameOutputKeeps(s, Next(s, step));
    match step
    case ClientThread(i) => ClientThreadKeeps(s, i);
    case ClientOwner => ClientOwnerKeeps(s);
    case Server(socket) => ServerKeeps(s, socket);
    case _ => ConnectionKeepsInput(s, step);
  }

  lemma PushKeepsOutput(s: State, k: nat)
    requires OutputSide(s) && s.main != Exited && k < |s.handlers| && HasQuery(s, k)
    ensures OutputSide(PushNext(s, k))
  {
    hide PoolProofs.Inv, Connections, Conserved, Gather, Decoded;
    PushKeepsConserved(s, k);
  }

  lemma PushKeepsInput(s: State, k: nat)
    requires InputSide(s) && k < |s.handlers| && HasQuery(s, k)
    ensures InputSide(PushNext(s, k))
  {
    hide PoolProofs.Inv, Handlers, Decoded, Gather;
    PushKeepsHandlers(s, k);
  }

  lemma PushKeepsInv(s: State, i: nat)
    requires Inv(s) && Enabled(s, Push(i))
    ensures Inv(Next(s, Push(i)))
  {
    hide InputSide, OutputSide, HasQuery, PushNext;
    PushKeepsInput(s, ConnOf(s, i));
    PushKeepsOutput(s, ConnOf(s, i));
  }

  // ---- workers and owner of the database pool -----------------------------------------------------------------------

  lemma SameBag(a: multiset<Entry>, b: multiset<Entry>, c: multiset<Entry>, d: multiset<Entry>, e: multiset<Entry>,
                f: multiset<Entry>, g: multiset<Entry>, x: multiset<Entry>)
    ensures a + b + (x + c) + d + e + f + g == a + b + c + (d + x) + e + f + g
    ensures a + b + c + (d + x) + e + f + g == (a + x) + b + c + d + e + f + g
    ensures a + b + c + (d + x) + e + f + g == a + b + c + d + (e + x) + f + g
    ensures a + b + c + (d + x) + e + f + g == a + b + c + d + e + (f + x) + g
    ensures (x + a) + b + c + d + e + f + g == a + (b + x) + c + d + e + f + g
    ensures (x + a) + b + c + d + e + f + g == a + b + c + d + e + f + (g + x)
    ensures a + (b + x) + c + d + e + f + g == a + b + (c + x) + d + e + f + g
    ensures a + (b + x) + c + d + e + f + g == a + b + c + d + e + (f + x) + g
  {
  }

  /** A popped task goes from the pool's queue into the worker's hands. */
  lemma DbThreadKeepsConserved(s: State, i: nat)
    requires Conserved(s) && DbThreadEnabled(s, i) && Jobs(s)
    ensures Conserved(DbThreadNext(s, i))
  {
    hide Gather, Pool.Next, Pool.Enabled;
    var t := DbThreadNext(s, i);
    WorkerMoves(s.db, i);
    WorkerKeepsClients(s.db, i);
    var rest := GatherUpdate(s.jobs, i, t.jobs[i], CarriedOf);
    if s.db.workers[i].TryPop? && s.db.queue != [] {
      GatherFront(s.db.queue, BodyOf);
      assert CarriedOf(s.jobs[i]) == multiset{};
      assert rest == Gather(s.jobs, CarriedOf);
      SameBag(multiset(s.shared), InHand(s.dispatcher, s.db.clients), Gather(t.db.queue, BodyOf), rest,
              multiset(s.executed), Gather(s.dropped, DroppedOf), multiset(s.logged), multiset{s.db.queue[0].body});
    }
  }

  lemma WorkerKeepsClients<T>(p: Pool.State<T>, i: nat)
    requires Pool.Enabled(p, Pool.Worker(i))
    ensures Pool.Next(p, Pool.Worker(i)).clients == p.clients
  {
    hide Pool.WrapSub;
  }

  lemma DbThreadKeepsJobs(s: State, i: nat)
    requires Jobs(s) && PoolProofs.Inv(s.db) && DbThreadEnabled(s, i) && Connections(s.acquired, s.returned, s.jobs)
    ensures Jobs(DbThreadNext(s, i))
    ensures var t := DbThreadNext(s, i); Connections(t.acquired, t.returned, t.jobs)
  {
    hide PoolProofs.Inv, Gather, Pool.Next, Pool.Enabled;
    var t := DbThreadNext(s, i);
    WorkerEffect(s.db, i);
    WorkerMoves(s.db, i);
    GatherUpdateSize(s.jobs, i, t.jobs[i], BorrowedOf);
  }

  lemma DbThreadKeepsRest(s: State, i: nat)
    requires DbPool(s) && Lifetime(s) && Shutdown(s) && DbThreadEnabled(s, i)
    ensures DbPool(DbThreadNext(s, i)) && Lifetime(DbThreadNext(s, i)) && Shutdown(DbThreadNext(s, i))
  {
    hide PoolProofs.Inv, Pool.Next, Pool.Enabled;
    WorkerEffect(s.db, i);
  }

  lemma DbThreadKeepsInv(s: State, i: nat)
    requires Inv(s) && Enabled(s, DbThread(i))
    ensures Inv(Next(s, DbThread(i)))
  {
    hide InputSide, DbPool, Lifetime, Shutdown, Jobs, Connections, Conserved, Pool.Next;
    DbThreadKeepsConserved(s, i);
    DbPoolInv(s);
    DbThreadKeepsJobs(s, i);
    DbThreadKeepsRest(s, i);
    SameInputKeeps(s, DbThreadNext(s, i));
  }

  lemma DbPoolInv(s: State)
    requires DbPool(s)
    ensures PoolProofs.Inv(s.db)
  {
  }

  lemma CreateEffect<T>(p: Pool.State<T>)
    requires PoolProofs.Inv(p) && p.ctl.Creating?
    ensures var t := Pool.Next(p, Pool.Control);
            && PoolProofs.Inv(t) && t.total == p.total && t.clients == p.clients && t.paused == p.paused
            && t.issued == p.issued && t.queue == p.queue && t.threadCount == p.threadCount && (t.ctl.Creating? || t.ctl.Ready?)
            && t.workers == if |p.workers| < p.threadCount then p.workers + [Pool.ReadRunning] else p.workers
  {
    hide PoolProofs.Inv;
    PoolProofs.StepKeepsInv(p, Pool.Control);
  }

  lemma DbOwnerKeepsBags(s: State)
    requires Conserved(s) && Connections(s.acquired, s.returned, s.jobs) && PoolProofs.Inv(s.db) && s.db.ctl.Creating?
    ensures Conserved(DbOwnerNext(s))
    ensures var t := DbOwnerNext(s); Connections(t.acquired, t.returned, t.jobs)
  {
    hide PoolProofs.Inv, Gather, Pool.Next, Pool.Enabled, Numbered, InHand;
    CreateEffect(s.db);
    GatherAppend(s.jobs, NoJob, CarriedOf);
    GatherAppend(s.jobs, NoJob, BorrowedOf);
  }

  lemma DbOwnerKeepsOutput(s: State)
    requires OutputSide(s) && s.db.ctl.Creating?
    ensures OutputSide(DbOwnerNext(s))
  {
    hide PoolProofs.Inv, Gather, Pool.Next, Pool.Enabled, Conserved, Connections;
    CreateEffect(s.db);
    DbOwnerKeepsBags(s);
  }

  lemma DbOwnerKeepsInv(s: State)
    requires Inv(s) && Enabled(s, DbOwner)
    ensures Inv(Next(s, DbOwner))
  {
    hide InputSide, OutputSide, Pool.Next;
    DbOwnerKeepsOutput(s);
    SameInputKeeps(s, DbOwnerNext(s));
  }

  // ---- tasks ------------------------------------------------------------------------------------------------------------

  /** While a worker is inside a task the connection pool lives. */
  lemma JobMeansLive(s: State, i: nat)
    requires DbPool(s) && Lifetime(s) && Jobs(s) && i < |s.jobs| && !s.jobs[i].NoJob?
    ensures s.database.live && s.db.total > 0 && !Quiet(s.dispatcher)
  {
    hide Gather;
    if s.db.total == 0 {
      PoolProofs.ZeroMeansAllDone(s.db);
    }
  }

  // What one job does to the places, by where its entry goes.

  ghost predicate SameRest(s: State, t: State) {
    t.pushed == s.pushed && t.db == s.db && t.dispatcher == s.dispatcher && t.logged == s.logged
  }

  lemma JobStays(s: State, t: State, i: nat, j: JobPc)
    requires Conserved(s) && SameRest(s, t) && i < |s.jobs| && t.jobs == s.jobs[i := j]
    requires CarriedOf(s.jobs[i]) == CarriedOf(j)
    requires t.shared == s.shared && t.executed == s.executed && t.dropped == s.dropped
    ensures Conserved(t)
  {
    hide Gather, CarriedOf, InHand;
    var rest := GatherUpdate(s.jobs, i, j, CarriedOf);
  }

  lemma JobToShared(s: State, t: State, i: nat, j: JobPc, e: Entry)
    requires Conserved(s) && SameRest(s, t) && i < |s.jobs| && t.jobs == s.jobs[i := j]
    requires CarriedOf(s.jobs[i]) == multiset{e} && CarriedOf(j) == multiset{}
    requires t.shared == s.shared + [e] && t.executed == s.executed && t.dropped == s.dropped
    ensures Conserved(t)
  {
    hide Gather, CarriedOf, InHand;
    var rest := GatherUpdate(s.jobs, i, j, CarriedOf);
    MultisetAppend(s.shared, e);
    SameBag(multiset(s.shared), InHand(s.dispatcher, s.db.clients), Gather(s.db.queue, BodyOf), rest, multiset(s.executed),
            Gather(s.dropped, DroppedOf), multiset(s.logged), multiset{e});
  }

  lemma JobToExecuted(s: State, t: State, i: nat, j: JobPc, e: Entry)
    requires Conserved(s) && SameRest(s, t) && i < |s.jobs| && t.jobs == s.jobs[i := j]
    requires CarriedOf(s.jobs[i]) == multiset{e} && CarriedOf(j) == multiset{}
    requires t.shared == s.shared && t.executed == s.executed + [e] && t.dropped == s.dropped
    ensures Conserved(t)
  {
    hide Gather, CarriedOf, InHand;
    var rest := GatherUpdate(s.jobs, i, j, CarriedOf);
    MultisetAppend(s.executed, e);
    SameBag(multiset(s.shared), InHand(s.dispatcher, s.db.clients), Gather(s.db.queue, BodyOf), rest, multiset(s.executed),
            Gather(s.dropped, DroppedOf), multiset(s.logged), multiset{e});
  }

  lemma JobToDropped(s: State, t: State, i: nat, j: JobPc, d: Drop)
    requires Conserved(s) && SameRest(s, t) && i < |s.jobs| && t.jobs == s.jobs[i := j]
    requires CarriedOf(s.jobs[i]) == multiset{d.entry} && CarriedOf(j) == multiset{}
    requires t.shared == s.shared && t.executed == s.executed && t.dropped == s.dropped + [d]
    ensures Conserved(t)
  {
    hide Gather, CarriedOf, InHand;
    var rest := GatherUpdate(s.jobs, i, j, CarriedOf);
    GatherAppend(s.dropped, d, DroppedOf);
    SameBag(multiset(s.shared), InHand(s.dispatcher, s.db.clients), Gather(s.db.queue, BodyOf), rest, multiset(s.executed),
            Gather(s.dropped, DroppedOf), multiset(s.logged), multiset{d.entry});
  }

  lemma PutBackKeepsConserved(s: State, i: nat, answer: Answer)
    requires Conserved(s) && JobEnabled(s, i, answer) && (s.jobs[i].NullConnection? || s.jobs[i].Deadlocked?)
    ensures Conserved(JobNext(s, i, answer))
  {
    hide Conserved;
    var t := JobNext(s, i, answer);
    JobToShared(s, t, i, t.jobs[i], s.jobs[i].entry);
  }

  lemma AcquireKeepsConserved(s: State, i: nat, answer: Answer)
    requires Conserved(s) && JobEnabled(s, i, answer) && s.jobs[i].Acquiring? && s.database.live
    ensures Conserved(JobNext(s, i, answer))
  {
    hide Conserved;
    var t := JobNext(s, i, answer);
    if answer.Throws? {
      JobToDropped(s, t, i, t.jobs[i], Drop(s.jobs[i].entry, NoConnection));
    } else {
      JobStays(s, t, i, t.jobs[i]);
    }
  }

  /** Where the entry of a connected job goes. */
  lemma ExecuteEffect(s: State, i: nat, answer: Answer)
    requires JobEnabled(s, i, answer) && s.jobs[i].Connected?
    ensures |JobNext(s, i, answer).jobs| == |s.jobs|
    ensures var t := JobNext(s, i, answer);
            && t.jobs == s.jobs[i := t.jobs[i]] && SameRest(s, t) && t.shared == s.shared
            && t.executed == (if answer.Executes? then s.executed + [s.jobs[i].entry] else s.executed)
            && t.dropped == (if answer.Fails? then s.dropped + [Drop(s.jobs[i].entry, SqlError)] else s.dropped)
            && CarriedOf(t.jobs[i]) == if answer.Deadlocks? then multiset{s.jobs[i].entry} else multiset{}
  {
  }

  lemma ExecuteKeepsConserved(s: State, i: nat, answer: Answer)
    requires Conserved(s) && JobEnabled(s, i, answer) && s.jobs[i].Connected?
    ensures Conserved(JobNext(s, i, answer))
  {
    hide Conserved, JobNext;
    var t := JobNext(s, i, answer);
    ExecuteEffect(s, i, answer);
    if answer.Executes? {
      JobToExecuted(s, t, i, t.jobs[i], s.jobs[i].entry);
    } else if answer.Deadlocks? {
      JobStays(s, t, i, t.jobs[i]);
    } else {
      JobToDropped(s, t, i, t.jobs[i], Drop(s.jobs[i].entry, SqlError));
    }
  }

  lemma EnterKeepsConserved(s: State, i: nat, answer: Answer)
    requires Conserved(s) && i < |s.jobs| && s.jobs[i].Entered? && s.database.live
    ensures Conserved(JobNext(s, i, answer))
  {
    hide Conserved;
    JobStays(s, JobNext(s, i, answer), i, Acquiring(s.jobs[i].entry));
  }

  lemma ReleaseKeepsConserved(s: State, i: nat, answer: Answer)
    requires Conserved(s) && i < |s.jobs| && s.jobs[i].Releasing?
    ensures Conserved(JobNext(s, i, answer))
  {
    hide Conserved;
    JobStays(s, JobNext(s, i, answer), i, JobDone);
  }

  lemma JobKeepsConserved(s: State, i: nat, answer: Answer)
    requires Conserved(s) && JobEnabled(s, i, answer) && s.database.live
    ensures Conserved(JobNext(s, i, answer))
  {
    hide Conserved, JobNext;
    if s.jobs[i].NullConnection? || s.jobs[i].Deadlocked? {
      PutBackKeepsConserved(s, i, answer);
    } else if s.jobs[i].Acquiring? {
      AcquireKeepsConserved(s, i, answer);
    } else if s.jobs[i].Connected? {
      ExecuteKeepsConserved(s, i, answer);
    } else if s.jobs[i].Entered? {
      EnterKeepsConserved(s, i, answer);
    } else {
      ReleaseKeepsConserved(s, i, answer);
    }
  }

  lemma BorrowedSize(j: JobPc)
    ensures |BorrowedOf(j)| == if j.Connected? || j.Deadlocked? || j.Releasing? then 1 else 0
  {
  }

  /** A connection is counted out when it is taken and counted back when it is returned. */
  lemma JobBalance(s: State, i: nat, answer: Answer)
    requires JobEnabled(s, i, answer) && s.database.live
    ensures i < |s.jobs| == |JobNext(s, i, answer).jobs|
    ensures var t := JobNext(s, i, answer);
            && t.jobs == s.jobs[i := t.jobs[i]]
            && t.acquired - t.returned == s.acquired - s.returned - |BorrowedOf(s.jobs[i])| + |BorrowedOf(t.jobs[i])|
  {
    hide BorrowedOf;
    BorrowedSize(s.jobs[i]);
    BorrowedSize(JobNext(s, i, answer).jobs[i]);
  }

  lemma JobKeepsConnections(s: State, i: nat, answer: Answer)
    requires Connections(s.acquired, s.returned, s.jobs) && JobEnabled(s, i, answer) && s.database.live
    ensures var t := JobNext(s, i, answer); Connections(t.acquired, t.returned, t.jobs)
  {
    hide Gather, JobNext, JobEnabled, BorrowedOf;
    JobBalance(s, i, answer);
    GatherUpdateSize(s.jobs, i, JobNext(s, i, answer).jobs[i], BorrowedOf);
  }

  /** What a job changes. */
  lemma JobEffect(s: State, i: nat, answer: Answer)
    requires JobEnabled(s, i, answer)
    ensures var t := JobNext(s, i, answer);
            && t == s.(jobs := t.jobs, shared := t.shared, executed := t.executed, dropped := t.dropped,
                       acquired := t.acquired, returned := t.returned)
            && |t.shared| >= |s.shared|
  {
  }

  lemma JobLeavesAlone(s: State, i: nat, answer: Answer)
    requires JobEnabled(s, i, answer)
    ensures var t := JobNext(s, i, answer);
            && t.config == s.config && t.db == s.db && t.dispatcher == s.dispatcher && t.main == s.main
            && t.database == s.database && t.poolNumber == s.poolNumber && t.popFault == s.popFault
            && |t.shared| >= |s.shared|
  {
    hide JobNext, JobEnabled;
    JobEffect(s, i, answer);
  }

  lemma JobKeepsRest(s: State, i: nat, answer: Answer)
    requires DbPool(s) && Lifetime(s) && Shutdown(s) && JobEnabled(s, i, answer) && s.main != Exited
    ensures var t := JobNext(s, i, answer); DbPool(t) && Lifetime(t) && Shutdown(t)
  {
    hide PoolProofs.Inv, JobNext;
    JobLeavesAlone(s, i, answer);
  }

  /** A job replaces itself, and holds a connection of the live pool only. */
  lemma JobReplaces(s: State, i: nat, answer: Answer)
    requires JobEnabled(s, i, answer) && s.database.live
    requires s.jobs[i].Connected? || s.jobs[i].Deadlocked? || s.jobs[i].Releasing? ==> s.jobs[i].pool == s.poolNumber
    ensures |JobNext(s, i, answer).jobs| == |s.jobs|
    ensures var j := JobNext(s, i, answer).jobs[i];
            && JobNext(s, i, answer).jobs == s.jobs[i := j] && !j.NoJob?
            && (j.Connected? || j.Deadlocked? || j.Releasing? ==> j.pool == s.poolNumber)
  {
  }

  lemma JobKeepsJobs(s: State, i: nat, answer: Answer)
    requires Jobs(s) && JobEnabled(s, i, answer) && s.database.live
    ensures Jobs(JobNext(s, i, answer))
  {
    hide JobNext;
    JobReplaces(s, i, answer);
    JobLeavesAlone(s, i, answer);
  }

  lemma JobKeepsInv(s: State, i: nat, answer: Answer)
    requires Inv(s) && Enabled(s, Job(i, answer))
    ensures Inv(Next(s, Job(i, answer)))
  {
    hide InputSide, DbPool, Lifetime, Shutdown, Jobs, Connections, Conserved;
    JobMeansLive(s, i);
    JobKeepsConserved(s, i, answer);
    JobKeepsConnections(s, i, answer);
    JobKeepsRest(s, i, answer);
    JobKeepsJobs(s, i, answer);
    SameInputKeeps(s, JobNext(s, i, answer));
  }

  // ---- calls of the dispatcher into its pool ----------------------------------------------------------------------------

  /** Everything of a pool but its client. */
  ghost predicate SameButClient<T>(p: Pool.State<T>, t: Pool.State<T>) {
    && t.total == p.total && t.workers == p.workers && t.queue == p.queue && t.ctl == p.ctl && t.paused == p.paused
    && t.issued == p.issued && t.finished == p.finished && t.threadCount == p.threadCount
    && |t.clients| == |p.clients|
  }

  lemma CallEffect<T>(p: Pool.State<T>, step: Pool.Step<T>)
    requires PoolProofs.Inv(p) && Pool.Enabled(p, step) && |p.clients| == 1
    requires step == Pool.BeginWait(0) || step == Pool.BeginSum(0)
    ensures var t := Pool.Next(p, step);
            && PoolProofs.Inv(t) && SameButClient(p, t)
            && t.clients[0] == if step.BeginWait? then Pool.Waiting(Pool.ReadPausedFlag) else Pool.Summing(p.total, |p.issued|, p.retired)
  {
    hide PoolProofs.Inv;
    PoolProofs.StepKeepsInv(p, step);
  }

  /** A wait in a pool that is not paused returns only when the counter reads zero. */
  lemma WaitEffect<T>(p: Pool.State<T>)
    requires PoolProofs.Inv(p) && Pool.Enabled(p, Pool.Client(0)) && |p.clients| == 1 && !p.paused
    requires p.clients[0].Waiting? && UnpausedWait(p.clients[0].at)
    ensures var t := Pool.Next(p, Pool.Client(0));
            && PoolProofs.Inv(t) && SameButClient(p, t)
            && ((t.clients[0].Waiting? && UnpausedWait(t.clients[0].at)) || (t.clients[0].Waited? && t.total == 0))
  {
    hide PoolProofs.Inv;
    PoolProofs.StepKeepsInv(p, Pool.Client(0));
  }

  lemma SumEffect<T>(p: Pool.State<T>)
    requires PoolProofs.Inv(p) && Pool.Enabled(p, Pool.Client(0)) && |p.clients| == 1 && p.clients[0].Summing?
    ensures var t := Pool.Next(p, Pool.Client(0));
            PoolProofs.Inv(t) && SameButClient(p, t) && t.clients[0].Summed?
  {
    hide PoolProofs.Inv, Pool.WrapSub;
    PoolProofs.StepKeepsInv(p, Pool.Client(0));
  }

  lemma PushEffect<T>(p: Pool.State<T>, body: T)
    requires PoolProofs.Inv(p) && Pool.Enabled(p, Pool.BeginPush(0, body)) && |p.clients| == 1
    ensures var t := Pool.Next(p, Pool.BeginPush(0, body));
            && PoolProofs.Inv(t) && t.workers == p.workers && t.queue == p.queue && t.ctl == p.ctl && t.paused == p.paused
            && |t.clients| == 1 && t.clients[0] == Pool.Enqueueing(Pool.Task(|p.issued|, body))
  {
    hide PoolProofs.Inv, Pool.WrapAdd;
    PoolProofs.StepKeepsInv(p, Pool.BeginPush(0, body));
  }

  lemma EnqueueEffect<T>(p: Pool.State<T>)
    requires PoolProofs.Inv(p) && Pool.Enabled(p, Pool.Client(0)) && |p.clients| == 1 && p.clients[0].Enqueueing?
    ensures var t := Pool.Next(p, Pool.Client(0));
            && PoolProofs.Inv(t) && t.workers == p.workers && t.total == p.total && t.ctl == p.ctl && t.paused == p.paused
            && t.issued == p.issued && t.threadCount == p.threadCount
            && |t.clients| == 1 && t.clients[0].Idle? && t.queue == p.queue + [p.clients[0].task]
  {
    hide PoolProofs.Inv;
    PoolProofs.StepKeepsInv(p, Pool.Client(0));
  }

  // ---- the dispatcher ----------------------------------------------------------------------------------------------------

  /** Nothing moves between the places. */
  lemma SamePlaces(s: State, t: State)
    requires Conserved(s) && t.pushed == s.pushed && t.shared == s.shared && t.db.queue == s.db.queue && t.jobs == s.jobs
    requires t.executed == s.executed && t.dropped == s.dropped && t.logged == s.logged
    requires InHand(t.dispatcher, t.db.clients) == InHand(s.dispatcher, s.db.clients)
    ensures Conserved(t)
  {
    hide InHand, Places;
  }

  predicate WaitsNext(s: State) {
    s.dispatcher.Starting? || s.dispatcher.Setup? || s.dispatcher.Draining?
    || (s.dispatcher.Top? && s.outputStop) || (s.dispatcher.CheckPool? && !s.database.live)
  }

  predicate SumsNext(s: State) {
    (s.dispatcher.CheckMore? && s.shared != []) || s.dispatcher.Counting?
  }

  predicate MovesNext(s: State) {
    s.dispatcher.Popping? || s.dispatcher.Holding? || s.dispatcher.Pushing?
  }

  lemma PlainDispatchEffect(s: State, call: Failover.Call)
    requires DispatchEnabled(s) && !WaitsNext(s) && !SumsNext(s) && !MovesNext(s)
    ensures var t := DispatchNext(s, call);
            t == s.(dispatcher := t.dispatcher, database := t.database, poolNumber := t.poolNumber) && !t.dispatcher.Holding?
  {
    hide Pool.Next, Pool.Enabled, Failover.Connect, Failover.Disconnected;
  }

  lemma PlainDispatchKeepsConserved(s: State, call: Failover.Call)
    requires Conserved(s) && DispatchEnabled(s) && !WaitsNext(s) && !SumsNext(s) && !MovesNext(s)
    ensures Conserved(DispatchNext(s, call))
  {
    hide Conserved, DispatchNext;
    PlainDispatchEffect(s, call);
    SamePlaces(s, DispatchNext(s, call));
  }

  lemma PlainDispatchKeepsPool(s: State, call: Failover.Call)
    requires DbPool(s) && Lifetime(s) && Shutdown(s) && DispatchEnabled(s) && !WaitsNext(s) && !SumsNext(s) && !MovesNext(s)
    ensures DbPool(DispatchNext(s, call)) && Lifetime(DispatchNext(s, call)) && Shutdown(DispatchNext(s, call))
  {
    hide PoolProofs.Inv, Pool.Next, Pool.Enabled, Failover.Connect;
  }

  lemma PlainDispatchKeeps(s: State, call: Failover.Call)
    requires OutputSide(s) && DispatchEnabled(s) && !WaitsNext(s) && !SumsNext(s) && !MovesNext(s)
    ensures OutputSide(DispatchNext(s, call))
  {
    hide DbPool, Lifetime, Shutdown, Connections, Conserved, Jobs, DispatchNext;
    PlainDispatchKeepsConserved(s, call);
    PlainDispatchKeepsPool(s, call);
    PlainDispatchEffect(s, call);
    PlainDispatchKeepsJobs(s, call);
  }

  /** The connection pool is opened only while no task is inside it. */
  lemma PlainDispatchKeepsJobs(s: State, call: Failover.Call)
    requires DbPool(s) && Jobs(s) && DispatchEnabled(s) && !WaitsNext(s) && !SumsNext(s) && !MovesNext(s)
    ensures Jobs(DispatchNext(s, call))
  {
    hide Gather, DispatchNext, DispatchEnabled;
    PlainDispatchEffect(s, call);
    PlainDispatchOpens(s, call);
    if s.db.total == 0 {
      PoolProofs.ZeroMeansAllDone(s.db);
    }
  }

  lemma PlainDispatchOpens(s: State, call: Failover.Call)
    requires DispatchEnabled(s) && !WaitsNext(s) && !SumsNext(s) && !MovesNext(s)
    ensures s.dispatcher.Opening? || DispatchNext(s, call).poolNumber == s.poolNumber
  {
    hide Pool.Next, Pool.Enabled, Failover.Connect, Failover.Disconnected;
  }

  lemma WaitingDispatchEffect(s: State, call: Failover.Call)
    requires DbPool(s) && DispatchEnabled(s) && WaitsNext(s)
    ensures var t := DispatchNext(s, call);
            && PoolProofs.Inv(t.db) && SameButClient(s.db, t.db) && t == s.(db := t.db, dispatcher := t.dispatcher)
            && (if t.dispatcher.Setup? || t.dispatcher.Draining?
                then t.db.clients[0].Waiting? && UnpausedWait(t.db.clients[0].at)
                else t.db.clients[0].Waited? && t.db.total == 0)
            && (t.dispatcher.Pinging? || t.dispatcher.Disconnecting? || t.dispatcher.Setup? || t.dispatcher.Draining?)
            && (t.dispatcher.Pinging? ==> s.dispatcher.Setup?)
            && (t.dispatcher.Setup? ==> s.dispatcher.Setup? || s.dispatcher.Starting? || !s.database.live)
  {
    hide PoolProofs.Inv, Pool.Next, Gather;
    if s.dispatcher.Setup? || s.dispatcher.Draining? {
      WaitEffect(s.db);
    } else {
      CallEffect(s.db, Pool.BeginWait(0));
    }
  }

  lemma WaitingDispatchKeeps(s: State, call: Failover.Call)
    requires OutputSide(s) && DispatchEnabled(s) && WaitsNext(s)
    ensures OutputSide(DispatchNext(s, call))
  {
    hide PoolProofs.Inv, Connections, Conserved, Pool.Next, Gather, DispatchNext;
    WaitingDispatchEffect(s, call);
    SamePlaces(s, DispatchNext(s, call));
  }

  lemma SummingDispatchKeeps(s: State, call: Failover.Call)
    requires OutputSide(s) && DispatchEnabled(s) && SumsNext(s)
    ensures OutputSide(DispatchNext(s, call))
  {
    hide PoolProofs.Inv, Connections, Conserved, Pool.Next, Gather;
    var t := DispatchNext(s, call);
    if s.dispatcher.Counting? {
      SumEffect(s.db);
    } else {
      CallEffect(s.db, Pool.BeginSum(0));
    }
    SamePlaces(s, t);
  }

  lemma PopKeepsConserved(s: State, call: Failover.Call)
    requires Conserved(s) && DispatchEnabled(s) && s.dispatcher.Popping? && s.shared != []
    ensures Conserved(DispatchNext(s, call))
  {
    hide Gather;
    var e := s.shared[0];
    MultisetFront(s.shared);
    assert InHand(s.dispatcher, s.db.clients) == multiset{};
    SameBag(multiset(s.shared[1..]), multiset{}, Gather(s.db.queue, BodyOf), Gather(s.jobs, CarriedOf),
            multiset(s.executed), Gather(s.dropped, DroppedOf), multiset(s.logged), multiset{e});
    assert multiset{} + multiset{e} == multiset{e};
  }

  lemma RefuseKeepsConserved(s: State, t: State, e: Entry)
    requires Conserved(s) && s.dispatcher == Holding(e) && InHand(t.dispatcher, t.db.clients) == multiset{}
    requires t == s.(dispatcher := t.dispatcher, dropped := s.dropped + [Drop(e, RetryLimit)])
    ensures Conserved(t)
  {
    hide Gather;
    GatherAppend(s.dropped, Drop(e, RetryLimit), DroppedOf);
    SameBag(multiset(s.shared), multiset{}, Gather(s.db.queue, BodyOf), Gather(s.jobs, CarriedOf),
            multiset(s.executed), Gather(s.dropped, DroppedOf), multiset(s.logged), multiset{e});
    assert multiset{} + multiset{e} == multiset{e};
  }

  lemma EnqueueKeepsConserved(s: State, t: State)
    requires Conserved(s) && s.dispatcher.Pushing? && |s.db.clients| == 1 && s.db.clients[0].Enqueueing?
    requires t == s.(dispatcher := CheckMore, db := t.db)
    requires |t.db.clients| == 1 && t.db.clients[0].Idle? && t.db.queue == s.db.queue + [s.db.clients[0].task]
    ensures Conserved(t)
  {
    hide Gather;
    var task := s.db.clients[0].task;
    GatherAppend(s.db.queue, task, BodyOf);
    SameBag(multiset(s.shared), multiset{}, Gather(s.db.queue, BodyOf), Gather(s.jobs, CarriedOf),
            multiset(s.executed), Gather(s.dropped, DroppedOf), multiset(s.logged), multiset{task.body});
    assert multiset{} + multiset{task.body} == multiset{task.body};
  }

  lemma PopDispatchKeeps(s: State, call: Failover.Call)
    requires OutputSide(s) && DispatchEnabled(s) && s.dispatcher.Popping?
    ensures OutputSide(DispatchNext(s, call))
  {
    hide PoolProofs.Inv, Connections, Conserved, Pool.Next, Pool.Enabled, Gather;
    PopKeepsConserved(s, call);
  }

  lemma HoldingDispatchKeepsConserved(s: State, call: Failover.Call)
    requires Conserved(s) && DbPool(s) && DispatchEnabled(s) && s.dispatcher.Holding?
    ensures Conserved(DispatchNext(s, call))
  {
    hide PoolProofs.Inv, Conserved, Pool.Next, Gather;
    var t := DispatchNext(s, call);
    var e := s.dispatcher.entry;
    if t.dispatcher.Pushing? {
      PushEffect(s.db, e);
      SamePlaces(s, t);
    } else {
      RefuseKeepsConserved(s, t, e);
    }
  }

  lemma HoldingDispatchKeeps(s: State, call: Failover.Call)
    requires OutputSide(s) && DispatchEnabled(s) && s.dispatcher.Holding?
    ensures OutputSide(DispatchNext(s, call))
  {
    hide PoolProofs.Inv, Connections, Conserved, Pool.Next, Gather;
    HoldingDispatchKeepsConserved(s, call);
    if DispatchNext(s, call).dispatcher.Pushing? {
      PushEffect(s.db, s.dispatcher.entry);
    }
  }

  lemma PushingDispatchKeeps(s: State, call: Failover.Call)
    requires OutputSide(s) && DispatchEnabled(s) && s.dispatcher.Pushing?
    ensures OutputSide(DispatchNext(s, call))
  {
    hide PoolProofs.Inv, Connections, Conserved, Pool.Next, Gather;
    EnqueueEffect(s.db);
    EnqueueKeepsConserved(s, DispatchNext(s, call));
  }

  lemma SummingDispatchSameInput(s: State, call: Failover.Call)
    requires DispatchEnabled(s) && SumsNext(s)
    ensures SameInput(s, DispatchNext(s, call))
  {
    hide Pool.Next, Pool.Enabled;
  }

  lemma MovingDispatchSameInput(s: State, call: Failover.Call)
    requires DispatchEnabled(s) && MovesNext(s)
    ensures SameInput(s, DispatchNext(s, call))
  {
    hide Pool.Next, Pool.Enabled, InputClosed;
  }

  lemma DispatchSameInput(s: State, call: Failover.Call)
    requires DbPool(s) && DispatchEnabled(s)
    ensures SameInput(s, DispatchNext(s, call))
  {
    hide DispatchNext, DbPool;
    if WaitsNext(s) {
      WaitingDispatchEffect(s, call);
    } else if MovesNext(s) {
      MovingDispatchSameInput(s, call);
    } else if SumsNext(s) {
      SummingDispatchSameInput(s, call);
    } else {
      PlainDispatchEffect(s, call);
    }
  }

  lemma OutputPool(s: State)
    requires OutputSide(s)
    ensures DbPool(s)
  {
  }

  lemma DispatchKeepsInv(s: State, call: Failover.Call)
    requires Inv(s) && Enabled(s, Dispatch(call))
    ensures Inv(Next(s, Dispatch(call)))
  {
    hide InputSide, OutputSide, DispatchNext, DispatchEnabled, SameInput;
    OutputPool(s);
    DispatchSameInput(s, call);
    SameInputKeeps(s, DispatchNext(s, call));
    if WaitsNext(s) {
      WaitingDispatchKeeps(s, call);
    } else if SumsNext(s) {
      SummingDispatchKeeps(s, call);
    } else if s.dispatcher.Popping? {
      PopDispatchKeeps(s, call);
    } else if s.dispatcher.Holding? {
      HoldingDispatchKeeps(s, call);
    } else if s.dispatcher.Pushing? {
      PushingDispatchKeeps(s, call);
    } else {
      PlainDispatchKeeps(s, call);
    }
  }

  // ---- main -----------------------------------------------------------------------------------------------------------------

  lemma LogKeepsConserved(s: State, t: State)
    requires Conserved(s) && s.shared != []
    requires t == s.(main := t.main, shared := s.shared[1..], logged := s.logged + [s.shared[0]])
    ensures Conserved(t)
  {
    hide Gather, InHand;
    var e := s.shared[0];
    MultisetFront(s.shared);
    MultisetAppend(s.logged, e);
    SameBag(multiset(s.shared[1..]), InHand(s.dispatcher, s.db.clients), Gather(s.db.queue, BodyOf), Gather(s.jobs, CarriedOf),
            multiset(s.executed), Gather(s.dropped, DroppedOf), multiset(s.logged), multiset{e});
  }

  lemma MainEffect(s: State)
    requires MainEnabled(s)
    ensures var t := MainNext(s);
            if s.main.DrainPop? && s.shared != []
            then t == s.(main := t.main, shared := s.shared[1..], logged := s.logged + [s.shared[0]])
            else t == s.(main := t.main, serverStop := t.serverStop, outputStop := t.outputStop, popFault := t.popFault)
  {
  }

  lemma MainKeepsConserved(s: State)
    requires Conserved(s) && MainEnabled(s)
    ensures Conserved(MainNext(s))
  {
    hide Conserved, MainNext;
    MainEffect(s);
    if s.main.DrainPop? && s.shared != [] {
      LogKeepsConserved(s, MainNext(s));
    } else {
      SamePlaces(s, MainNext(s));
    }
  }

  lemma MainKeepsInv(s: State)
    requires Inv(s) && Enabled(s, Main)
    ensures Inv(Next(s, Main))
  {
    hide PoolProofs.Inv, Connections, Conserved, Jobs, Gather, HandlerOk, Ended;
    MainKeepsConserved(s);
    MainKeepsJobs(s);
    SameButServerStop(s, MainNext(s));
  }

  lemma MainKeepsJobs(s: State)
    requires Jobs(s) && MainEnabled(s)
    ensures Jobs(MainNext(s))
  {
  }

  lemma SameButServerStop(s: State, t: State)
    requires ClientPool(s) && Handlers(s) && t.config == s.config && t.clients == s.clients && t.server == s.server
    requires t.handlers == s.handlers && t.pushed == s.pushed
    ensures ClientPool(t) && Handlers(t)
  {
    hide PoolProofs.Inv, HandlerOk, Ended;
  }

  // ---- every step, every run ----------------------------------------------------------------------------------------------------

  lemma StepKeepsInv(s: State, step: Step)
    requires Inv(s) && Enabled(s, step)
    ensures Inv(Next(s, step))
  {
    hide Inv, Next, Enabled;
    match step
    case Push(i) => PushKeepsInv(s, i);
    case DbThread(i) => DbThreadKeepsInv(s, i);
    case DbOwner => DbOwnerKeepsInv(s);
    case Job(i, answer) => JobKeepsInv(s, i, answer);
    case Dispatch(call) => DispatchKeepsInv(s, call);
    case Main => MainKeepsInv(s);
    case _ => InputStepKeepsInv(s, step);
  }

  lemma {:induction false} RunKeepsInv(s: State, steps: seq<Step>)
    requires Inv(s) && CanRun(s, steps)
    ensures Inv(Run(s, steps))
    decreases |steps|
  {
    if steps != [] {
      hide Inv, Next, Enabled;
      StepKeepsInv(s, steps[0]);
      RunKeepsInv(Next(s, steps[0]), steps[1..]);
    }
  }
}
