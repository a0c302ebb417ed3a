/** The shared fields of thread_pool as an object, with one method for each atomic section of the
    source.  Each method is proved to make the step of the machine in ThreadPool that carries its name. */
module ThreadPoolObject {
  import opened ThreadPool

  class Pool<T> {
    var running: bool
    var paused: bool
    var tasksTotal: nat
    var tasks: seq<Task<T>>
    var threadCount: nat

    /** The object holds the shared part of machine state `s`. */
    ghost predicate Holds(s: State<T>)
      reads this
    {
      && running == s.running && paused == s.paused && tasksTotal == s.total
      && tasks == s.queue && threadCount == s.threadCount
    }

    constructor (requested: nat, hardware: nat, ghost clientCount: nat)
      ensures Holds(Init(requested, hardware, clientCount))
    {
      running := true;
      paused := false;
      tasksTotal := 0;
      tasks := [];
      threadCount := if requested != 0 then requested else hardware;
    }

    /** The increment of push_task, before its locked section. */
    method CountPush(ghost s: State<T>, ghost c: nat, ghost body: T)
      requires Holds(s) && Enabled(s, BeginPush(c, body))
      modifies this`tasksTotal
      ensures Holds(Next(s, BeginPush(c, body)))
    {
      tasksTotal := WrapAdd(tasksTotal, 1);
    }

    /** The locked section of push_task. */
    method Enqueue(task: Task<T>, ghost s: State<T>, ghost c: nat)
      requires Holds(s) && Enabled(s, Client(c)) && s.clients[c] == Enqueueing(task)
      modifies this`tasks
      ensures Holds(Next(s, Client(c)))
    {
      tasks := tasks + [task];
    }

    /** push_task as its caller sees it. */
    method PushTask(task: Task<T>)
      modifies this`tasksTotal, this`tasks
      ensures tasksTotal == WrapAdd(old(tasksTotal), 1) && tasks == old(tasks) + [task]
    {
      tasksTotal := WrapAdd(tasksTotal, 1);
      tasks := tasks + [task];
    }

    /** pop_task: the queue is tested and popped in one locked section. */
    method PopTask(ghost s: State<T>, ghost i: nat) returns (found: bool, task: seq<Task<T>>)
      requires Holds(s) && Enabled(s, Worker(i)) && s.workers[i].TryPop?
      modifies this`tasks
      ensures Holds(Next(s, Worker(i)))
      ensures found == (old(tasks) != [])
      ensures found ==> task == old(tasks)[..1] && Next(s, Worker(i)).workers[i] == Executing(task[0])
      ensures !found ==> task == [] && Next(s, Worker(i)).workers[i] == Sleeping
    {
      if tasks == [] {
        return false, [];
      }
      found, task := true, [tasks[0]];
      tasks := tasks[1..];
    }

    /** The decrement after a task body has returned. */
    method CountDone(ghost s: State<T>, ghost i: nat)
      requires Holds(s) && Enabled(s, Worker(i)) && s.workers[i].Decrementing?
      modifies this`tasksTotal
      ensures Holds(Next(s, Worker(i)))
    {
      tasksTotal := WrapSub(tasksTotal, 1);
    }

    /** The second half of get_tasks_running, the counter having been read as `total`. */
    method TasksRunning(total: nat, ghost s: State<T>, ghost c: nat) returns (result: nat)
      requires Holds(s) && Enabled(s, Client(c)) && s.clients[c].Summing? && s.clients[c].total == total
      ensures Next(s, Client(c)).clients[c] == Summed(result)
    {
      result := WrapSub(total, |tasks|);
    }

    /** The owner's writes inside `reset` and the destructor. */
    method OwnerStep(ghost s: State<T>, pc: ControlPc)
      requires Holds(s) && Enabled(s, Control) && s.ctl == pc && pc != Creating
      modifies this
      ensures Holds(Next(s, Control))
    {
      match pc {
        case ResetPause(_, _) => paused := true;
        case ResetStop(_, _) => running := false;
        case DestroyStop(_, _) => running := false;
        case ResetReplace(n, _) => threadCount := n;
        case ResetRestore(was) => paused := was;
        case ResetRun => running := true;
        case _ =>
      }
    }
  }
}
