/** The worker pool of thread_pool.hpp as a machine over its atomic steps.

    One step is one access to shared memory: a read of `running` or `paused`, a locked queue
    operation, an increment or decrement of `tasks_total`.  Every interleaving of workers,
    client threads and the owner of the pool is a sequence of such steps. */
module ThreadPool {
  import opened Bags
  import opened Common

  function WrapAdd(a: int, b: int): nat {
    (a + b) % WORD
  }

  function WrapSub(a: int, b: int): nat {
    (a - b) % WORD
  }

  datatype Task<T> = Task(id: nat, body: T)

  /** Where a worker stands in its loop. */
  datatype WorkerPc<T> =
    | ReadRunning
    | ReadPaused
    | TryPop
    | Executing(task: Task<T>)
    | Decrementing(task: Task<T>)
    | Sleeping
    | Exited

  /** Where a thread stands inside wait_for_tasks. */
  datatype WaitPc =
    | ReadPausedFlag
    | ReadTotal
    | SumTotal
    | SumQueued(total: nat)

  /** Where a client thread stands inside a public call.
      `seen`, `issuedAt` and `retiredAt` are history: what had been pushed and retired at the read. */
  datatype ClientPc<T> =
    | Idle
    | Enqueueing(task: Task<T>)
    | Waiting(at: WaitPc)
    | Waited(unpaused: bool, seen: nat)
    | Summing(total: nat, issuedAt: nat, retiredAt: nat)
    | Summed(result: nat)

  /** Where the owner stands inside the constructor, `reset` or the destructor. */
  datatype ControlPc =
    | Creating
    | Ready
    | ResetPause(count: nat, was: bool)
    | ResetWait(count: nat, was: bool, at: WaitPc)
    | ResetStop(count: nat, was: bool)
    | ResetJoin(count: nat, was: bool, joined: nat)
    | ResetReplace(count: nat, was: bool)
    | ResetRestore(was: bool)
    | ResetRun
    | DestroyWait(at: WaitPc)
    | DestroyStop(unpaused: bool, seen: nat)
    | DestroyJoin(unpaused: bool, seen: nat, joined: nat)
    | Destroyed(unpaused: bool, seen: nat)

  /** The pool, its threads, and four histories: pushes begun, tasks enqueued, tasks popped,
      tasks whose body returned.  `retired` counts the decrements of `total`. */
  datatype State<T> = State(
    running: bool,
    paused: bool,
    total: nat,
    queue: seq<Task<T>>,
    threadCount: nat,
    workers: seq<WorkerPc<T>>,
    clients: seq<ClientPc<T>>,
    ctl: ControlPc,
    issued: seq<Task<T>>,
    enqueued: seq<Task<T>>,
    started: seq<Task<T>>,
    finished: seq<Task<T>>,
    retired: nat)

  /** `SetPaused` is any thread writing the public flag; `hardware` is hardware_concurrency(). */
  datatype Step<T> =
    | Worker(i: nat)
    | BeginPush(c: nat, body: T)
    | BeginWait(c: nat)
    | BeginSum(c: nat)
    | Client(c: nat)
    | SetPaused(value: bool)
    | BeginReset(requested: nat, hardware: nat)
    | BeginDestroy
    | Control

  function EffectiveCount(requested: nat, hardware: nat): nat {
    if requested != 0 then requested else hardware
  }

  function Init<T>(requested: nat, hardware: nat, clientCount: nat): State<T> {
    State(true, false, 0, [], EffectiveCount(requested, hardware), [], seq(clientCount, _ => Idle), Creating,
          [], [], [], [], 0)
  }

  // ---- workers -------------------------------------------------------------------------------

  function WorkerNext<T>(s: State<T>, i: nat): State<T>
    requires i < |s.workers| && s.workers[i] != Exited
  {
    match s.workers[i]
    case ReadRunning =>
      s.(workers := s.workers[i := if s.running then ReadPaused else Exited])
    case ReadPaused =>
      s.(workers := s.workers[i := if s.paused then Sleeping else TryPop])
    case TryPop =>
      if s.queue == [] then
        s.(workers := s.workers[i := Sleeping])
      else
        s.(workers := s.workers[i := Executing(s.queue[0])],
           queue := s.queue[1..],
           started := s.started + [s.queue[0]])
    case Executing(task) =>
      s.(workers := s.workers[i := Decrementing(task)], finished := s.finished + [task])
    case Decrementing(_) =>
      s.(workers := s.workers[i := ReadRunning], total := WrapSub(s.total, 1), retired := s.retired + 1)
    case Sleeping =>
      s.(workers := s.workers[i := ReadRunning])
  }

  // ---- client calls --------------------------------------------------------------------------

  datatype WaitResult = Again(at: WaitPc) | Return(unpaused: bool)

  /** One step of wait_for_tasks. */
  function WaitNext<T>(s: State<T>, at: WaitPc): WaitResult {
    match at
    case ReadPausedFlag => Again(if s.paused then SumTotal else ReadTotal)
    case ReadTotal => if s.total == 0 then Return(true) else Again(ReadPausedFlag)
    case SumTotal => Again(SumQueued(s.total))
    case SumQueued(total) => if WrapSub(total, |s.queue|) == 0 then Return(false) else Again(ReadPausedFlag)
  }

  predicate Free<T>(c: ClientPc<T>) {
    c.Idle? || c.Waited? || c.Summed?
  }

  /** The client may go on with the call it is in. */
  predicate Busy<T>(c: ClientPc<T>) {
    c.Enqueueing? || c.Waiting? || c.Summing?
  }

  function PushNext<T>(s: State<T>, c: nat, body: T): State<T>
    requires c < |s.clients|
  {
    var task := Task(|s.issued|, body);
    s.(total := WrapAdd(s.total, 1), clients := s.clients[c := Enqueueing(task)], issued := s.issued + [task])
  }

  function ClientNext<T>(s: State<T>, c: nat): State<T>
    requires c < |s.clients| && Busy(s.clients[c])
  {
    match s.clients[c]
    case Enqueueing(task) =>
      s.(queue := s.queue + [task], enqueued := s.enqueued + [task], clients := s.clients[c := Idle])
    case Waiting(at) =>
      var pc := match WaitNext(s, at)
        case Again(next) => Waiting(next)
        case Return(unpaused) => Waited(unpaused, |s.issued|);
      s.(clients := s.clients[c := pc])
    case Summing(total, _, _) =>
      s.(clients := s.clients[c := Summed(WrapSub(total, |s.queue|))])
  }

  // ---- constructor, reset, destructor ----------------------------------------------------------

  /** join() on thread `joined` returns only when that worker has left its loop. */
  predicate Joinable<T>(s: State<T>, joined: nat) {
    joined < s.threadCount ==> joined < |s.workers| && s.workers[joined].Exited?
  }

  predicate ControlEnabled<T>(s: State<T>) {
    match s.ctl
    case Ready => false
    case Destroyed(_, _) => false
    case ResetJoin(_, _, joined) => Joinable(s, joined)
    case DestroyJoin(_, _, joined) => Joinable(s, joined)
    case _ => true
  }

  function ControlNext<T>(s: State<T>): State<T>
    requires ControlEnabled(s)
  {
    match s.ctl
    case Creating =>
      if |s.workers| < s.threadCount then s.(workers := s.workers + [ReadRunning]) else s.(ctl := Ready)
    case ResetPause(n, was) => s.(paused := true, ctl := ResetWait(n, was, ReadPausedFlag))
    case ResetWait(n, was, at) =>
      (match WaitNext(s, at)
       case Again(next) => s.(ctl := ResetWait(n, was, next))
       case Return(_) => s.(ctl := ResetStop(n, was)))
    case ResetStop(n, was) => s.(running := false, ctl := ResetJoin(n, was, 0))
    case ResetJoin(n, was, joined) =>
      s.(ctl := if joined < s.threadCount then ResetJoin(n, was, joined + 1) else ResetReplace(n, was))
    case ResetReplace(n, was) => s.(threadCount := n, workers := [], ctl := ResetRestore(was))
    case ResetRestore(was) => s.(paused := was, ctl := ResetRun)
    case ResetRun => s.(running := true, ctl := Creating)
    case DestroyWait(at) =>
      (match WaitNext(s, at)
       case Again(next) => s.(ctl := DestroyWait(next))
       case Return(unpaused) => s.(ctl := DestroyStop(unpaused, |s.issued|)))
    case DestroyStop(u, seen) => s.(running := false, ctl := DestroyJoin(u, seen, 0))
    case DestroyJoin(u, seen, joined) =>
      s.(ctl := if joined < s.threadCount then DestroyJoin(u, seen, joined + 1) else Destroyed(u, seen))
  }

  // ---- runs ------------------------------------------------------------------------------------

  /** A push is bounded by memory: fewer than WORD tasks can be outstanding.  Nothing touches a
      destroyed pool. */
  predicate Enabled<T>(s: State<T>, step: Step<T>) {
    !s.ctl.Destroyed? &&
    match step
    case Worker(i) => i < |s.workers| && !s.workers[i].Exited?
    case BeginPush(c, _) => c < |s.clients| && Free(s.clients[c]) && s.total + 1 < WORD
    case BeginWait(c) => c < |s.clients| && Free(s.clients[c])
    case BeginSum(c) => c < |s.clients| && Free(s.clients[c])
    case Client(c) => c < |s.clients| && Busy(s.clients[c])
    case SetPaused(_) => true
    case BeginReset(_, _) => s.ctl.Ready?
    case BeginDestroy => s.ctl.Ready?
    case Control => ControlEnabled(s)
  }

  function Next<T>(s: State<T>, step: Step<T>): State<T>
    requires Enabled(s, step)
  {
    match step
    case Worker(i) => WorkerNext(s, i)
    case BeginPush(c, body) => PushNext(s, c, body)
    case BeginWait(c) => s.(clients := s.clients[c := Waiting(ReadPausedFlag)])
    case BeginSum(c) => s.(clients := s.clients[c := Summing(s.total, |s.issued|, s.retired)])
    case Client(c) => ClientNext(s, c)
    case SetPaused(value) => s.(paused := value)
    case BeginReset(n, hardware) => s.(ctl := ResetPause(EffectiveCount(n, hardware), s.paused))
    case BeginDestroy => s.(ctl := DestroyWait(ReadPausedFlag))
    case Control => ControlNext(s)
  }

  predicate CanRun<T>(s: State<T>, steps: seq<Step<T>>)
    decreases |steps|
  {
    steps != [] ==> Enabled(s, steps[0]) && CanRun(Next(s, steps[0]), steps[1..])
  }

  function Run<T>(s: State<T>, steps: seq<Step<T>>): State<T>
    requires CanRun(s, steps)
    decreases |steps|
  {
    if steps == [] then s else Run(Next(s, steps[0]), steps[1..])
  }

  // ---- what each thread holds --------------------------------------------------------------------

  /** The task whose body the worker is running. */
  ghost function ExecutingOf<T>(w: WorkerPc<T>): multiset<Task<T>> {
    if w.Executing? then multiset{w.task} else multiset{}
  }

  /** The task the worker still has to count off: running, or run and not yet decremented. */
  ghost function HeldOf<T>(w: WorkerPc<T>): multiset<Task<T>> {
    if w.Executing? || w.Decrementing? then multiset{w.task} else multiset{}
  }

  /** The task counted by the client but not yet in the queue. */
  ghost function InFlightOf<T>(c: ClientPc<T>): multiset<Task<T>> {
    if c.Enqueueing? then multiset{c.task} else multiset{}
  }

  ghost function RunningTasks<T>(s: State<T>): multiset<Task<T>> {
    Gather(s.workers, ExecutingOf)
  }

  ghost function HeldTasks<T>(s: State<T>): multiset<Task<T>> {
    Gather(s.workers, HeldOf)
  }

  ghost function InFlightTasks<T>(s: State<T>): multiset<Task<T>> {
    Gather(s.clients, InFlightOf)
  }
}
