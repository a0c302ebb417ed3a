/** The wired program: connection handlers on their pool, the shared queue, the dispatcher, the database
    pool with its tasks, and the shutdown order of `main`, as one machine over atomic steps.

    Both thread pools are machines of ThreadPool, so every step here either leaves a pool alone or is a
    step of that pool.  What a handler queues is what FrameDecoder decodes from the bytes it received. */
module Pipeline {
  import opened Common
  import Pool = ThreadPool
  import opened FrameDecoder
  import Failover

  /** A queued query.  `id` numbers the pushes of all handlers, `conn` is the connection it came from. */
  datatype Entry = Entry(id: nat, conn: nat, query: seq<byte>, attempts: int)

  datatype Reason = NoPool | NoConnection | SqlError | RetryLimit

  datatype Drop = Drop(entry: Entry, reason: Reason)

  /** One connection: the bytes received, and how many of its queries were pushed and acknowledged. */
  datatype Handler = Handler(received: seq<byte>, pushed: nat, acked: nat, ended: bool)

  /** Where OutputHandler::task stands.  A held connection remembers the number of its pool. */
  datatype JobPc =
    | NoJob
    | Entered(entry: Entry)
    | Acquiring(entry: Entry)
    | NullConnection(entry: Entry)
    | Connected(entry: Entry, pool: nat)
    | Deadlocked(entry: Entry, pool: nat)
    | Releasing(pool: nat)
    | JobDone

  /** What the database answers. */
  datatype Answer = GivesConnection | GivesNull | Throws | Executes | Deadlocks | Fails

  /** Where OutputHandler::thread_main stands. */
  datatype DispatcherPc =
    | Starting
    | Setup
    | Pinging
    | Opening
    | Top
    | CheckPool
    | CheckQueue
    | CheckMore
    | Counting
    | Comparing
    | Popping
    | Holding(entry: Entry)
    | Pushing
    | Draining
    | Disconnecting
    | Finished

  /** Where GearServer::thread_main stands; `Left` is from the start of the pool's destructor on. */
  datatype ServerPc = ServerTop | Listening | Enqueueing | Left

  /** Where `main` stands, from the end of its start-up. */
  datatype MainPc = InService | StopInput | JoinInput | StopOutput | JoinOutput | DrainTest | DrainPop | Exited

  datatype Config = Config(maxConnections: nat, obeyRetryCount: bool, retryCount: int, status: nat -> seq<nat>)

  /** `popFault` records a pop of an empty queue, which the source does not guard against. */
  datatype State = State(
    config: Config,
    shared: seq<Entry>,
    popFault: bool,
    clients: Pool.State<nat>,
    server: ServerPc,
    serverStop: bool,
    handlers: seq<Handler>,
    db: Pool.State<Entry>,
    jobs: seq<JobPc>,
    dispatcher: DispatcherPc,
    outputStop: bool,
    database: Failover.Db,
    poolNumber: nat,
    acquired: nat,
    returned: nat,
    main: MainPc,
    pushed: seq<Entry>,
    executed: seq<Entry>,
    dropped: seq<Drop>,
    logged: seq<Entry>)

  datatype Step =
    | ClientThread(i: nat)
    | ClientOwner
    | Server(socket: Option<nat>)
    | Receive(i: nat, bytes: seq<byte>)
    | Push(i: nat)
    | Acknowledge(i: nat)
    | EndConnection(i: nat)
    | DbThread(i: nat)
    | DbOwner
    | Job(i: nat, answer: Answer)
    | Dispatch(call: Failover.Call)
    | Main

  /** One client per pool: the accept loop and the dispatcher are the only pushers. */
  function Init(config: Config, servers: nat, garbage: nat, clientThreads: nat, hardware: nat): State {
    State(config, [], false, Pool.Init(clientThreads, hardware, 1), ServerTop, false, [],
          Pool.Init(config.maxConnections + 1, hardware, 1), [], Starting, false,
          Failover.Db(seq(servers, _ => 0), garbage, false), 0, 0, 0, InService, [], [], [], [])
  }

  // ---- connections -------------------------------------------------------------------------------------

  /** The queries in the bytes a handler has received. */
  function Decoded(config: Config, received: seq<byte>): seq<seq<byte>> {
    FeedAll(Current, config.status, Start(Current), received).queries
  }

  /** A worker of the client pool leaves a task only when its connection has ended. */
  predicate ClientThreadEnabled(s: State, i: nat) {
    && Pool.Enabled(s.clients, Pool.Worker(i))
    && (s.clients.workers[i].Executing? ==>
          var k := s.clients.workers[i].task.id;
          k < |s.handlers| && s.handlers[k].ended)
  }

  /** Worker `i` is serving a connection that has not ended. */
  predicate Serves(s: State, i: nat) {
    && i < |s.clients.workers| && s.clients.workers[i].Executing?
    && s.clients.workers[i].task.id < |s.handlers| && !s.handlers[s.clients.workers[i].task.id].ended
  }

  /** The number of that connection. */
  function ConnOf(s: State, i: nat): nat
    requires Serves(s, i)
  {
    s.clients.workers[i].task.id
  }

  /** Every query decoded so far has been pushed and acknowledged. */
  predicate CaughtUp(s: State, k: nat)
    requires k < |s.handlers|
  {
    var h := s.handlers[k];
    h.acked == h.pushed == |Decoded(s.config, h.received)|
  }

  /** A query has been decoded and everything before it pushed and acknowledged. */
  predicate HasQuery(s: State, k: nat)
    requires k < |s.handlers|
  {
    var h := s.handlers[k];
    h.acked == h.pushed < |Decoded(s.config, h.received)|
  }

  predicate ServerEnabled(s: State) {
    |s.clients.clients| == 1 && !s.clients.ctl.Destroyed? &&
    match s.server
    case ServerTop => s.clients.ctl.Ready?
    case Listening => Pool.Free(s.clients.clients[0]) && s.clients.total + 1 < WORD
    case Enqueueing => Pool.Busy(s.clients.clients[0])
    case Left => false
  }

  /** The accept loop: test the stop flag, accept, count the connection, enqueue it. */
  function ServerNext(s: State, socket: Option<nat>): State
    requires ServerEnabled(s)
  {
    match s.server
    case ServerTop =>
      if s.serverStop then s.(server := Left, clients := Pool.Next(s.clients, Pool.BeginDestroy))
      else s.(server := Listening)
    case Listening =>
      (match socket
       case None => s.(server := ServerTop)
       case Some(fd) =>
         s.(server := Enqueueing, handlers := s.handlers + [Handler([], 0, 0, false)],
            clients := Pool.Next(s.clients, Pool.BeginPush(0, fd))))
    case Enqueueing => s.(server := ServerTop, clients := Pool.Next(s.clients, Pool.Client(0)))
  }

  function PushNext(s: State, k: nat): State
    requires k < |s.handlers| && s.handlers[k].pushed < |Decoded(s.config, s.handlers[k].received)|
  {
    var h := s.handlers[k];
    var entry := Entry(|s.pushed|, k, Decoded(s.config, h.received)[h.pushed], 0);
    s.(shared := s.shared + [entry], pushed := s.pushed + [entry], handlers := s.handlers[k := h.(pushed := h.pushed + 1)])
  }

  // ---- database tasks ---------------------------------------------------------------------------------------

  /** A worker of the database pool leaves a task only when the task has returned. */
  predicate DbThreadEnabled(s: State, i: nat) {
    && Pool.Enabled(s.db, Pool.Worker(i)) && i < |s.jobs|
    && (s.db.workers[i].Executing? ==> s.jobs[i].JobDone?)
  }

  function DbThreadNext(s: State, i: nat): State
    requires DbThreadEnabled(s, i)
  {
    var job :=
      if s.db.workers[i].TryPop? && s.db.queue != [] then Entered(s.db.queue[0].body)
      else if s.db.workers[i].Executing? then NoJob
      else s.jobs[i];
    s.(db := Pool.Next(s.db, Pool.Worker(i)), jobs := s.jobs[i := job])
  }

  /** create_threads of the database pool. */
  function DbOwnerNext(s: State): State
    requires s.db.ctl.Creating?
  {
    s.(db := Pool.Next(s.db, Pool.Control),
       jobs := if |s.db.workers| < s.db.threadCount then s.jobs + [NoJob] else s.jobs)
  }

  predicate JobEnabled(s: State, i: nat, answer: Answer) {
    i < |s.jobs| &&
    match s.jobs[i]
    case NoJob => false
    case JobDone => false
    case Acquiring(_) => answer.GivesConnection? || answer.GivesNull? || answer.Throws?
    case Connected(_, _) => answer.Executes? || answer.Deadlocks? || answer.Fails?
    case _ => true
  }

  /** OutputHandler::task, one access to shared state at a time. */
  function JobNext(s: State, i: nat, answer: Answer): State
    requires JobEnabled(s, i, answer)
  {
    match s.jobs[i]
    case Entered(e) =>
      if s.database.live then s.(jobs := s.jobs[i := Acquiring(e)])
      else s.(jobs := s.jobs[i := JobDone], dropped := s.dropped + [Drop(e, NoPool)])
    case Acquiring(e) =>
      if !s.database.live || answer.Throws? then s.(jobs := s.jobs[i := JobDone], dropped := s.dropped + [Drop(e, NoConnection)])
      else if answer.GivesNull? then s.(jobs := s.jobs[i := NullConnection(e)])
      else s.(jobs := s.jobs[i := Connected(e, s.poolNumber)], acquired := s.acquired + 1)
    case NullConnection(e) => s.(jobs := s.jobs[i := JobDone], shared := s.shared + [e])
    case Connected(e, pool) =>
      (match answer
       case Executes => s.(jobs := s.jobs[i := Releasing(pool)], executed := s.executed + [e])
       case Deadlocks => s.(jobs := s.jobs[i := Deadlocked(e, pool)])
       case _ => s.(jobs := s.jobs[i := Releasing(pool)], dropped := s.dropped + [Drop(e, SqlError)]))
    case Deadlocked(e, pool) => s.(jobs := s.jobs[i := Releasing(pool)], shared := s.shared + [e])
    case Releasing(_) =>
      s.(jobs := s.jobs[i := JobDone], returned := if s.database.live then s.returned + 1 else s.returned)
  }

  // ---- dispatcher ----------------------------------------------------------------------------------------------

  predicate DispatchEnabled(s: State) {
    |s.db.clients| == 1 && !s.db.ctl.Destroyed? &&
    match s.dispatcher
    case Finished => false
    case Setup => Pool.Busy(s.db.clients[0])
    case Draining => Pool.Busy(s.db.clients[0])
    case Counting => Pool.Busy(s.db.clients[0])
    case Pushing => Pool.Busy(s.db.clients[0])
    case Comparing => s.db.clients[0].Summed?
    case Holding(_) => Pool.Free(s.db.clients[0]) && s.db.total + 1 < WORD
    case _ => Pool.Free(s.db.clients[0])
  }

  /** The retry limit of the dispatcher. */
  predicate Allowed(config: Config, e: Entry) {
    !config.obeyRetryCount || e.attempts < config.retryCount
  }

  function WaitFor(s: State, inside: DispatcherPc): State
    requires DispatchEnabled(s) && Pool.Free(s.db.clients[0])
  {
    s.(dispatcher := inside, db := Pool.Next(s.db, Pool.BeginWait(0)))
  }

  function DispatchNext(s: State, call: Failover.Call): State
    requires DispatchEnabled(s)
  {
    match s.dispatcher
    case Starting => WaitFor(s, Setup)
    case Setup =>
      var db := Pool.Next(s.db, Pool.Client(0));
      s.(db := db, dispatcher := if db.clients[0].Waited? then Pinging else Setup)
    case Pinging =>
      if s.database.live && call.pingOk then s.(dispatcher := Top)
      else s.(dispatcher := Opening, database := Failover.Disconnected(s.database, call))
    case Opening =>
      var database := Failover.Connect(s.database, call);
      s.(dispatcher := Top, database := database, poolNumber := if database.live then s.poolNumber + 1 else s.poolNumber)
    case Top => if s.outputStop then WaitFor(s, Draining) else s.(dispatcher := CheckPool)
    case CheckPool => if s.database.live then s.(dispatcher := CheckQueue) else WaitFor(s, Setup)
    case CheckQueue => s.(dispatcher := if s.shared == [] then Top else CheckMore)
    case CheckMore =>
      if s.shared == [] then s.(dispatcher := Top)
      else s.(dispatcher := Counting, db := Pool.Next(s.db, Pool.BeginSum(0)))
    case Counting => s.(dispatcher := Comparing, db := Pool.Next(s.db, Pool.Client(0)))
    case Comparing =>
      s.(dispatcher := if s.db.clients[0].result < s.config.maxConnections then Popping else CheckMore)
    case Popping =>
      if s.shared == [] then s.(dispatcher := CheckMore, popFault := true)
      else s.(dispatcher := Holding(s.shared[0]), shared := s.shared[1..])
    case Holding(e) =>
      if Allowed(s.config, e) then
        s.(dispatcher := Pushing, db := Pool.Next(s.db, Pool.BeginPush(0, e)))
      else
        s.(dispatcher := CheckMore, dropped := s.dropped + [Drop(e, RetryLimit)])
    case Pushing => s.(dispatcher := CheckMore, db := Pool.Next(s.db, Pool.Client(0)))
    case Draining =>
      var db := Pool.Next(s.db, Pool.Client(0));
      s.(db := db, dispatcher := if db.clients[0].Waited? then Disconnecting else Draining)
    case Disconnecting => s.(dispatcher := Finished, database := s.database.(live := false))
  }

  // ---- main -------------------------------------------------------------------------------------------------------

  /** The joins wait for the accept loop with its pool's destructor, and for the dispatcher. */
  predicate MainEnabled(s: State) {
    match s.main
    case JoinInput => s.clients.ctl.Destroyed?
    case JoinOutput => s.dispatcher.Finished?
    case Exited => false
    case _ => true
  }

  function MainNext(s: State): State
    requires MainEnabled(s)
  {
    match s.main
    case InService => s.(main := StopInput)
    case StopInput => s.(main := JoinInput, serverStop := true)
    case JoinInput => s.(main := StopOutput)
    case StopOutput => s.(main := JoinOutput, outputStop := true)
    case JoinOutput => s.(main := DrainTest)
    case DrainTest => s.(main := if s.shared == [] then Exited else DrainPop)
    case DrainPop =>
      if s.shared == [] then s.(main := DrainTest, popFault := true)
      else s.(main := DrainTest, shared := s.shared[1..], logged := s.logged + [s.shared[0]])
  }

  // ---- runs ---------------------------------------------------------------------------------------------------------

  predicate Enabled(s: State, step: Step) {
    s.main != Exited &&
    match step
    case ClientThread(i) => ClientThreadEnabled(s, i)
    case ClientOwner => !s.clients.ctl.Destroyed? && Pool.ControlEnabled(s.clients)
    case Server(_) => ServerEnabled(s)
    case Receive(i, bytes) => Serves(s, i) && CaughtUp(s, ConnOf(s, i)) && bytes != []
    case Push(i) => Serves(s, i) && HasQuery(s, ConnOf(s, i))
    case Acknowledge(i) => Serves(s, i) && s.handlers[ConnOf(s, i)].acked < s.handlers[ConnOf(s, i)].pushed
    case EndConnection(i) => Serves(s, i) && CaughtUp(s, ConnOf(s, i))
    case DbThread(i) => DbThreadEnabled(s, i)
    case DbOwner => s.db.ctl.Creating?
    case Job(i, answer) => JobEnabled(s, i, answer)
    case Dispatch(_) => DispatchEnabled(s)
    case Main => MainEnabled(s)
  }

  function Next(s: State, step: Step): State
    requires Enabled(s, step)
  {
    match step
    case ClientThread(i) => s.(clients := Pool.Next(s.clients, Pool.Worker(i)))
    case ClientOwner => s.(clients := Pool.Next(s.clients, Pool.Control))
    case Server(socket) => ServerNext(s, socket)
    case Receive(i, bytes) =>
      var h := s.handlers[ConnOf(s, i)];
      s.(handlers := s.handlers[ConnOf(s, i) := h.(received := h.received + bytes)])
    case Push(i) => PushNext(s, ConnOf(s, i))
    case Acknowledge(i) =>
      var h := s.handlers[ConnOf(s, i)];
      s.(handlers := s.handlers[ConnOf(s, i) := h.(acked := h.acked + 1)])
    case EndConnection(i) =>
      var h := s.handlers[ConnOf(s, i)];
      s.(handlers := s.handlers[ConnOf(s, i) := h.(ended := true)])
    case DbThread(i) => DbThreadNext(s, i)
    case DbOwner => DbOwnerNext(s)
    case Job(i, answer) => JobNext(s, i, answer)
    case Dispatch(call) => DispatchNext(s, call)
    case Main => MainNext(s)
  }

  predicate CanRun(s: State, steps: seq<Step>)
    decreases |steps|
  {
    steps != [] ==> Enabled(s, steps[0]) && CanRun(Next(s, steps[0]), steps[1..])
  }

  function Run(s: State, steps: seq<Step>): State
    requires CanRun(s, steps)
    decreases |steps|
  {
    if steps == [] then s else Run(Next(s, steps[0]), steps[1..])
  }
}
