/** Guarantees of the pool over all its runs. */
module ThreadPoolTheorems {
  import opened Bags
  import opened Common
  import opened ThreadPool
  import opened ThreadPoolProofs

  // ---- the counter ---------------------------------------------------------------------------------

  /** In every interleaving the counter is the number of tasks queued, popped but not counted off, and
      counted but not yet queued; so no decrement ever wraps below zero. */
  lemma CounterIsExact<T>(requested: nat, hardware: nat, clientCount: nat, steps: seq<Step<T>>)
    requires CanRun(Init<T>(requested, hardware, clientCount), steps)
    ensures var s := Run(Init<T>(requested, hardware, clientCount), steps);
            && s.total == |s.queue| + |HeldTasks(s)| + |InFlightTasks(s)|
            && s.total == |s.issued| - s.retired
            && (forall i :: 0 <= i < |s.workers| && s.workers[i].Decrementing? ==>
                  s.total >= 1 && WorkerNext(s, i).total == s.total - 1)
  {
    InitInv<T>(requested, hardware, clientCount);
    RunKeepsInv(Init<T>(requested, hardware, clientCount), steps);
    CounterAt(Run(Init<T>(requested, hardware, clientCount), steps));
  }

  lemma CounterAt<T>(s: State<T>)
    requires Counter(s)
    ensures forall i :: 0 <= i < |s.workers| && s.workers[i].Decrementing? ==>
              s.total >= 1 && WorkerNext(s, i).total == s.total - 1
  {
    hide Gather, WrapSub;
    forall i | 0 <= i < |s.workers| && s.workers[i].Decrementing?
      ensures s.total >= 1 && WorkerNext(s, i).total == s.total - 1
    {
      WorkerHeldSize(s, i);
      WrapSubExact(s.total, 1);
    }
  }

  // ---- each task in one place, started once, in order -------------------------------------------------

  lemma NumberedOnce<T>(tasks: seq<Task<T>>, k: nat)
    requires forall j :: 0 <= j < |tasks| ==> tasks[j].id == j
    requires k < |tasks|
    ensures multiset(tasks)[tasks[k]] == 1
  {
    assert tasks == tasks[..k] + [tasks[k]] + tasks[k + 1..];
    assert tasks[k] !in tasks[..k];
    assert tasks[k] !in tasks[k + 1..];
  }

  /** Every push ever begun is in exactly one of: on its way to the queue, in the queue, being run,
      run to the end. */
  lemma TaskInExactlyOnePlace<T>(requested: nat, hardware: nat, clientCount: nat, steps: seq<Step<T>>, k: nat)
    requires CanRun(Init<T>(requested, hardware, clientCount), steps)
    requires k < |Run(Init<T>(requested, hardware, clientCount), steps).issued|
    ensures var s := Run(Init<T>(requested, hardware, clientCount), steps);
            var task := s.issued[k];
            InFlightTasks(s)[task] + multiset(s.queue)[task] + RunningTasks(s)[task] + multiset(s.finished)[task] == 1
  {
    InitInv<T>(requested, hardware, clientCount);
    RunKeepsInv(Init<T>(requested, hardware, clientCount), steps);
    var s := Run(Init<T>(requested, hardware, clientCount), steps);
    NumberedOnce(s.issued, k);
  }

  /** Started tasks followed by the queue are the tasks in the order they were enqueued, and no task
      starts twice. */
  lemma StartsInOrderAndOnce<T>(requested: nat, hardware: nat, clientCount: nat, steps: seq<Step<T>>)
    requires CanRun(Init<T>(requested, hardware, clientCount), steps)
    ensures var s := Run(Init<T>(requested, hardware, clientCount), steps);
            && s.started + s.queue == s.enqueued
            && (forall i, j :: 0 <= i < j < |s.started| ==> s.started[i] != s.started[j])
  {
    InitInv<T>(requested, hardware, clientCount);
    RunKeepsInv(Init<T>(requested, hardware, clientCount), steps);
    var s := Run(Init<T>(requested, hardware, clientCount), steps);
    forall i, j | 0 <= i < j < |s.started|
      ensures s.started[i] != s.started[j]
    {
      EnqueuedOnce(s, i, j);
      assert s.started[i] == s.enqueued[i] && s.started[j] == s.enqueued[j];
    }
  }

  lemma EnqueuedOnce<T>(s: State<T>, i: nat, j: nat)
    requires Conserved(s) && i < j < |s.enqueued|
    ensures s.enqueued[i] != s.enqueued[j]
  {
    var x := s.enqueued[i];
    if x == s.enqueued[j] {
      assert s.enqueued == s.enqueued[..j] + [x] + s.enqueued[j + 1..];
      assert x == s.enqueued[..j][i];
      assert multiset(s.enqueued)[x] >= 2;
      assert multiset(s.issued)[x] >= 2;
      assert x in s.issued;
      var k :| 0 <= k < |s.issued| && s.issued[k] == x;
      NumberedOnce(s.issued, k);
      assert false;
    }
  }

  /** At most `thread_count` task bodies run at once. */
  lemma AtMostThreadCountRun<T>(requested: nat, hardware: nat, clientCount: nat, steps: seq<Step<T>>)
    requires CanRun(Init<T>(requested, hardware, clientCount), steps)
    ensures var s := Run(Init<T>(requested, hardware, clientCount), steps);
            |RunningTasks(s)| <= |s.workers| <= s.threadCount
  {
    InitInv<T>(requested, hardware, clientCount);
    RunKeepsInv(Init<T>(requested, hardware, clientCount), steps);
    GatherAtMostOneEach(Run(Init<T>(requested, hardware, clientCount), steps).workers, ExecutingOf);
  }

  // ---- waiting -----------------------------------------------------------------------------------------

  /** Histories only grow. */
  ghost predicate Extends<T>(s: State<T>, t: State<T>) {
    s.issued <= t.issued && s.enqueued <= t.enqueued && s.started <= t.started && s.finished <= t.finished
  }

  lemma StepExtends<T>(s: State<T>, step: Step<T>)
    requires Enabled(s, step)
    ensures Extends(s, Next(s, step))
  {
    hide WrapSub, WrapAdd, WaitNext;
  }

  lemma {:induction false} RunExtends<T>(s: State<T>, steps: seq<Step<T>>)
    requires CanRun(s, steps)
    ensures Extends(s, Run(s, steps))
    decreases |steps|
  {
    if steps != [] {
      hide Next, Enabled;
      StepExtends(s, steps[0]);
      RunExtends(Next(s, steps[0]), steps[1..]);
    }
  }

  /** When wait_for_tasks returns by its unpaused branch, every task pushed before that read has run to
      the end, then and for ever after. */
  lemma UnpausedWaitIsSound<T>(
      requested: nat, hardware: nat, clientCount: nat, steps: seq<Step<T>>, c: nat, later: seq<Step<T>>, k: nat)
    requires CanRun(Init<T>(requested, hardware, clientCount), steps)
    requires var s := Run(Init<T>(requested, hardware, clientCount), steps);
             && Enabled(s, Client(c)) && s.clients[c] == Waiting(ReadTotal)
             && Next(s, Client(c)).clients[c].Waited?
             && CanRun(Next(s, Client(c)), later)
             && k < |s.issued|
    ensures var s := Run(Init<T>(requested, hardware, clientCount), steps);
            s.issued[k] in Run(Next(s, Client(c)), later).finished
  {
    InitInv<T>(requested, hardware, clientCount);
    RunKeepsInv(Init<T>(requested, hardware, clientCount), steps);
    var s := Run(Init<T>(requested, hardware, clientCount), steps);
    ZeroMeansAllDone(s);
    RunExtends(Next(s, Client(c)), later);
  }

  lemma {:induction false} QuietRunOnlyRetires<T>(s: State<T>, steps: seq<Step<T>>)
    requires CanRun(s, steps) && forall step :: step in steps ==> !step.BeginPush?
    ensures Run(s, steps).issued == s.issued && Run(s, steps).retired >= s.retired
    decreases |steps|
  {
    if steps != [] {
      var t := Next(s, steps[0]);
      assert t.issued == s.issued && t.retired >= s.retired by {
        hide WrapSub, WrapAdd, WaitNext, Run, CanRun;
        assert steps[0] in steps;
      }
      QuietRunOnlyRetires(t, steps[1..]);
    }
  }

  lemma PausedWaitAt<T>(t: State<T>, total: nat, retired: nat)
    requires Counter(t) && total < WORD && total + retired == |t.issued| && retired <= t.retired
    ensures WaitNext(t, SumQueued(total)) == Return(false) <==>
      HeldTasks(t) == multiset{} && InFlightTasks(t) == multiset{} && t.retired == retired
  {
    hide Gather;
    assert total - |t.queue| == |HeldTasks(t)| + |InFlightTasks(t)| + (t.retired - retired);
  }

  /** When the counter was read in `s` and no push begins before the queue is measured, a paused wait
      returns, in a client or in `reset`, if and only if no worker holds a task, no push is on its way,
      and nothing has been counted off in between. */
  lemma PausedWaitIsSound<T>(s: State<T>, steps: seq<Step<T>>)
    requires Inv(s) && CanRun(s, steps) && forall step :: step in steps ==> !step.BeginPush?
    ensures var t := Run(s, steps);
            WaitNext(t, SumQueued(s.total)) == Return(false) <==>
              HeldTasks(t) == multiset{} && InFlightTasks(t) == multiset{} && t.retired == s.retired
  {
    hide Run, CanRun, Conserved, Fifo, Threads, Waits, Sums, WaitNext, Gather;
    QuietRunOnlyRetires(s, steps);
    RunKeepsInv(s, steps);
    PausedWaitAt(Run(s, steps), s.total, s.retired);
  }

  // ---- the destructor --------------------------------------------------------------------------------------

  /** A destructor whose wait ended unpaused, with no push begun since, leaves every thread exited, the
      queue empty and every task run to the end. */
  lemma DestructorRunsEverything<T>(requested: nat, hardware: nat, clientCount: nat, steps: seq<Step<T>>)
    requires CanRun(Init<T>(requested, hardware, clientCount), steps)
    requires var s := Run(Init<T>(requested, hardware, clientCount), steps);
             s.ctl.Destroyed? && s.ctl.unpaused && |s.issued| == s.ctl.seen
    ensures var s := Run(Init<T>(requested, hardware, clientCount), steps);
            && AllExited(s.workers) && s.queue == [] && s.total == 0
            && multiset(s.finished) == multiset(s.issued)
  {
    InitInv<T>(requested, hardware, clientCount);
    RunKeepsInv(Init<T>(requested, hardware, clientCount), steps);
    DestroyedMeansDone(Run(Init<T>(requested, hardware, clientCount), steps));
  }

  lemma AllFinished<T>(issued: seq<Task<T>>, finished: seq<Task<T>>)
    requires forall k :: 0 <= k < |issued| ==> issued[k].id == k && issued[k] in finished
    ensures multiset(issued) <= multiset(finished)
  {
    forall x: Task<T>
      ensures multiset(issued)[x] <= multiset(finished)[x]
    {
      if x in issued {
        var k :| 0 <= k < |issued| && issued[k] == x;
        NumberedOnce(issued, k);
      }
    }
  }

  lemma DestroyedMeansDone<T>(s: State<T>)
    requires Inv(s) && s.ctl.Destroyed? && s.ctl.unpaused && |s.issued| == s.ctl.seen
    ensures s.queue == [] && s.total == 0 && multiset(s.finished) == multiset(s.issued)
    ensures InFlightTasks(s) == multiset{} && RunningTasks(s) == multiset{}
  {
    hide Gather, Fifo, Sums;
    AllFinished(s.issued, s.finished);
    OthersEmpty(multiset(s.issued), InFlightTasks(s), multiset(s.queue), RunningTasks(s), multiset(s.finished));
    assert |multiset(s.queue)| == |s.queue|;
    GatherNothing(s.workers, HeldOf);
  }

  // ---- reset --------------------------------------------------------------------------------------------------

  /** Over any stretch of a run the queue behaves as a queue: what was started in between is a prefix of
      the old queue followed by the new arrivals, and what is left is the rest, in the same order. */
  lemma QueueKeepsOrder<T>(s: State<T>, steps: seq<Step<T>>)
    requires Inv(s) && CanRun(s, steps)
    ensures var t := Run(s, steps);
            && s.enqueued <= t.enqueued && s.started <= t.started
            && var line := s.queue + t.enqueued[|s.enqueued|..];
               var gone := |t.started| - |s.started|;
               && gone <= |line|
               && t.started == s.started + line[..gone]
               && t.queue == line[gone..]
  {
    hide Enabled, Next, Inv, Run, CanRun;
    var t := Run(s, steps);
    RunKeepsInv(s, steps);
    RunExtends(s, steps);
    InOrder(s);
    InOrder(t);
    LineMoves(s.started, s.queue, t.started, t.queue, t.enqueued[|s.enqueued|..]);
  }

  lemma InOrder<T>(s: State<T>)
    requires Inv(s)
    ensures s.started + s.queue == s.enqueued
  {
    hide Counter, Conserved, Threads, Waits, Sums;
  }

  /** If what was gone before is a prefix of what is gone now, the difference came from the front of the
      line. */
  lemma LineMoves<A>(gone: seq<A>, line: seq<A>, goneNow: seq<A>, lineNow: seq<A>, arrived: seq<A>)
    requires gone <= goneNow && goneNow + lineNow == gone + line + arrived
    ensures var n := |goneNow| - |gone|;
            n <= |line + arrived| && goneNow == gone + (line + arrived)[..n] && lineNow == (line + arrived)[n..]
  {
    var all := gone + (line + arrived);
    assert all == goneNow + lineNow;
    assert goneNow == all[..|goneNow|] && lineNow == all[|goneNow|..];
    assert line + arrived == all[|gone|..];
  }

  /** `reset` throws its thread handles away, and starts the first new worker, only when every old
      worker has left its loop, whatever the old workers did after the wait. */
  lemma ResetStartsNoWorkerEarly<T>(requested: nat, hardware: nat, clientCount: nat, steps: seq<Step<T>>)
    requires CanRun(Init<T>(requested, hardware, clientCount), steps)
    ensures var s := Run(Init<T>(requested, hardware, clientCount), steps);
            && (s.ctl.ResetReplace? ==> AllExited(s.workers) && RunningTasks(s) == multiset{})
            && (s.ctl.ResetRestore? || s.ctl.ResetRun? ==> s.workers == [])
            && (s.ctl.Creating? ==> |s.workers| <= s.threadCount && s.running)
            && (s.ctl.Ready? ==> |s.workers| == s.threadCount && s.running)
  {
    InitInv<T>(requested, hardware, clientCount);
    RunKeepsInv(Init<T>(requested, hardware, clientCount), steps);
    var s := Run(Init<T>(requested, hardware, clientCount), steps);
    if s.ctl.ResetReplace? {
      GatherNothing(s.workers, ExecutingOf);
    }
  }

  /** The number of threads the pool is heading for. */
  function Target<T>(s: State<T>): nat {
    if s.ctl.ResetPause? || s.ctl.ResetWait? || s.ctl.ResetStop? || s.ctl.ResetJoin? || s.ctl.ResetReplace? then s.ctl.count
    else s.threadCount
  }

  /** Whether the pool is paused, but for the pause `reset` itself imposes. */
  function PausedByUser<T>(s: State<T>): bool {
    if s.ctl.ResetPause? || s.ctl.ResetWait? || s.ctl.ResetStop? || s.ctl.ResetJoin? || s.ctl.ResetReplace? || s.ctl.ResetRestore?
    then s.ctl.was
    else s.paused
  }

  lemma StepKeepsSettings<T>(s: State<T>, step: Step<T>)
    requires Enabled(s, step)
    ensures !step.BeginReset? ==> Target(Next(s, step)) == Target(s)
    ensures step.BeginReset? ==> Target(Next(s, step)) == EffectiveCount(step.requested, step.hardware)
    ensures !step.SetPaused? ==> PausedByUser(Next(s, step)) == PausedByUser(s)
  {
    hide WrapSub, WrapAdd, WaitNext;
  }

  lemma {:induction false} RunKeepsSettings<T>(s: State<T>, steps: seq<Step<T>>)
    requires CanRun(s, steps)
    requires forall step :: step in steps ==> !step.BeginReset? && !step.SetPaused?
    ensures Target(Run(s, steps)) == Target(s) && PausedByUser(Run(s, steps)) == PausedByUser(s)
    decreases |steps|
  {
    if steps != [] {
      hide Next, Enabled, Target, PausedByUser;
      StepKeepsSettings(s, steps[0]);
      RunKeepsSettings(Next(s, steps[0]), steps[1..]);
    }
  }

  /** A reset that completes, from its first step in `s`, leaves exactly the requested number of workers
      and the pause flag as it was, and has neither lost, duplicated nor reordered a queued task,
      whatever ran meanwhile. */
  lemma ResetIsTransparent<T>(s: State<T>, requested: nat, hardware: nat, steps: seq<Step<T>>)
    requires Inv(s) && s.ctl == ResetPause(EffectiveCount(requested, hardware), s.paused)
    requires CanRun(s, steps)
    requires forall step :: step in steps ==> !step.BeginReset? && !step.SetPaused?
    requires Run(s, steps).ctl.Ready?
    ensures var t := Run(s, steps);
            && s.enqueued <= t.enqueued
            && |t.workers| == t.threadCount == (if requested == 0 then hardware else requested)
            && t.running && t.paused == s.paused
            && var line := s.queue + t.enqueued[|s.enqueued|..];
               var gone := |t.started| - |s.started|;
               && 0 <= gone <= |line|
               && t.started == s.started + line[..gone]
               && t.queue == line[gone..]
  {
    hide Next, Enabled, Counter, Conserved, Fifo, Waits, Sums, Run, CanRun;
    RunKeepsInv(s, steps);
    RunKeepsSettings(s, steps);
    QueueKeepsOrder(s, steps);
  }

  lemma {:induction false} RunKeepsTarget<T>(s: State<T>, steps: seq<Step<T>>)
    requires CanRun(s, steps) && forall step :: step in steps ==> !step.BeginReset?
    ensures Target(Run(s, steps)) == Target(s)
    decreases |steps|
  {
    if steps != [] {
      hide Next, Enabled, Target, PausedByUser;
      StepKeepsSettings(s, steps[0]);
      RunKeepsTarget(Next(s, steps[0]), steps[1..]);
    }
  }

  /** A pool that is ready and was never reset has as many workers as were asked for, or as the hardware has
      when none were. */
  lemma WorkersAsAsked<T>(requested: nat, hardware: nat, clientCount: nat, steps: seq<Step<T>>)
    requires CanRun(Init<T>(requested, hardware, clientCount), steps)
    requires forall step :: step in steps ==> !step.BeginReset?
    requires Run(Init<T>(requested, hardware, clientCount), steps).ctl.Ready?
    ensures |Run(Init<T>(requested, hardware, clientCount), steps).workers| == if requested == 0 then hardware else requested
  {
    RunKeepsTarget(Init<T>(requested, hardware, clientCount), steps);
    ResetStartsNoWorkerEarly(requested, hardware, clientCount, steps);
  }

  // ---- what a paused wait leaves possible ---------------------------------------------------------------------

  /** The pause of `reset` is in force, from the wait to the moment the flag is restored. */
  predicate Pausing(ctl: ControlPc) {
    ctl.ResetWait? || ctl.ResetStop? || ctl.ResetJoin? || ctl.ResetReplace? || ctl.ResetRestore?
  }

  /** A worker that has read `paused == false` and not yet popped. */
  ghost function PoppingOf<T>(w: WorkerPc<T>): multiset<()> {
    if w.TryPop? then multiset{()} else multiset{}
  }

  /** How many such workers there are. */
  ghost function Popping<T>(s: State<T>): nat {
    |Gather(s.workers, PoppingOf)|
  }

  lemma PoppingMeansSomeone<T>(s: State<T>)
    ensures Popping(s) > 0 <==> exists i :: 0 <= i < |s.workers| && s.workers[i].TryPop?
  {
    if i :| 0 <= i < |s.workers| && s.workers[i].TryPop? {
      GatherUpdateSize(s.workers, i, s.workers[i], PoppingOf);
    } else {
      GatherNothing(s.workers, PoppingOf);
    }
  }

  /** While the pool is paused every start uses up one of the workers that were about to pop. */
  lemma PausedWorkerUsesUp<T>(s: State<T>, i: nat)
    requires s.paused && Enabled(s, Worker(i))
    ensures |WorkerNext(s, i).started| + Popping(WorkerNext(s, i)) <= |s.started| + Popping(s)
    ensures WorkerNext(s, i).paused
  {
    hide Gather, WrapSub;
    GatherUpdateSize(s.workers, i, WorkerNext(s, i).workers[i], PoppingOf);
  }

  lemma PausedStepUsesUp<T>(s: State<T>, step: Step<T>)
    requires s.paused && Pausing(s.ctl) && Enabled(s, step) && !step.SetPaused?
    ensures |Next(s, step).started| + Popping(Next(s, step)) <= |s.started| + Popping(s)
    ensures Next(s, step).paused || !Pausing(Next(s, step).ctl)
  {
    hide Gather, WrapSub, WrapAdd, WaitNext, WorkerNext;
    if step.Worker? {
      PausedWorkerUsesUp(s, step.i);
    } else if s.ctl.ResetReplace? && step.Control? {
      assert Next(s, step).workers == [];
      GatherNothing(Next(s, step).workers, PoppingOf);
    }
  }

  /** The owner does not come back to the pause except by another `reset`. */
  lemma {:induction false} PauseEndsOnce<T>(s: State<T>, steps: seq<Step<T>>)
    requires CanRun(s, steps) && !Pausing(s.ctl) && !s.ctl.ResetPause?
    requires forall step :: step in steps ==> !step.BeginReset?
    ensures !Pausing(Run(s, steps).ctl)
    decreases |steps|
  {
    if steps != [] {
      var t := Next(s, steps[0]);
      assert !Pausing(t.ctl) && !t.ctl.ResetPause? by {
        hide WrapSub, WrapAdd, WaitNext, WorkerNext, Run, CanRun;
        assert steps[0] in steps;
      }
      PauseEndsOnce(t, steps[1..]);
    }
  }

  /** During the pause of a `reset`, whatever clients and workers do, no more tasks start than there were
      workers about to pop: a worker that was not about to pop starts none.  The wait may have returned
      or not. */
  lemma {:induction false} PauseStartsAtMost<T>(s: State<T>, steps: seq<Step<T>>)
    requires s.paused && Pausing(s.ctl) && CanRun(s, steps) && Pausing(Run(s, steps).ctl)
    requires forall step :: step in steps ==> !step.SetPaused? && !step.BeginReset?
    ensures |Run(s, steps).started| + Popping(Run(s, steps)) <= |s.started| + Popping(s)
    decreases |steps|
  {
    if steps != [] {
      hide Next, Enabled, Popping;
      var t := Next(s, steps[0]);
      PausedStepUsesUp(s, steps[0]);
      if !Pausing(t.ctl) {
        LeavesPauseForGood(s, steps[0]);
        PauseEndsOnce(t, steps[1..]);
      }
      PauseStartsAtMost(t, steps[1..]);
    }
  }

  lemma LeavesPauseForGood<T>(s: State<T>, step: Step<T>)
    requires Pausing(s.ctl) && Enabled(s, step)
    ensures !Next(s, step).ctl.ResetPause?
  {
    hide WrapSub, WrapAdd, WaitNext;
  }

  /** A run of the workers alone. */
  ghost predicate WorkersRun<T>(s: State<T>, steps: seq<Step<T>>) {
    CanRun(s, steps) && forall step :: step in steps ==> step.Worker?
  }

  lemma {:induction false} NothingToStart<T>(s: State<T>, steps: seq<Step<T>>)
    requires WorkersRun(s, steps) && s.queue == []
    ensures Run(s, steps).started == s.started
    decreases |steps|
  {
    if steps != [] {
      assert steps[0] in steps;
      var t := Next(s, steps[0]);
      assert t.started == s.started && t.queue == [] by {
        hide WrapSub;
      }
      NothingToStart(t, steps[1..]);
    }
  }

  lemma {:induction false} WorkersKeepOwner<T>(s: State<T>, steps: seq<Step<T>>)
    requires WorkersRun(s, steps)
    ensures Run(s, steps).ctl == s.ctl
    decreases |steps|
  {
    if steps != [] {
      assert steps[0] in steps;
      hide WrapSub;
      WorkersKeepOwner(Next(s, steps[0]), steps[1..]);
    }
  }

  /** Once the paused wait of `reset` has returned, the old workers can still start a task if and only if
      one of them had read `paused == false` before the pause and has not popped yet, and something is
      queued. */
  lemma StartsAfterPausedWaitIff<T(!new)>(s: State<T>)
    requires s.paused && s.ctl.ResetStop?
    ensures (exists steps: seq<Step<T>> :: WorkersRun(s, steps) && |Run(s, steps).started| > |s.started|)
            <==> s.queue != [] && exists i :: 0 <= i < |s.workers| && s.workers[i].TryPop?
  {
    PoppingMeansSomeone(s);
    if steps: seq<Step<T>> :| WorkersRun(s, steps) && |Run(s, steps).started| > |s.started| {
      WorkersKeepOwner(s, steps);
      PauseStartsAtMost(s, steps);
      if s.queue == [] {
        NothingToStart(s, steps);
      }
    }
    if i :| 0 <= i < |s.workers| && s.workers[i].TryPop? && s.queue != [] {
      PopStarts(s, i);
      var steps: seq<Step<T>> := [Worker(i)];
      assert WorkersRun(s, steps) && |Run(s, steps).started| > |s.started|;
    }
  }

  lemma PopStarts<T>(s: State<T>, i: nat)
    requires !s.ctl.Destroyed? && i < |s.workers| && s.workers[i].TryPop? && s.queue != []
    ensures WorkersRun(s, [Worker(i)]) && Run(s, [Worker(i)]).started == s.started + [s.queue[0]]
  {
    var t := Next(s, Worker(i));
    assert CanRun(t, []) && Run(t, []) == t;
    var steps: seq<Step<T>> := [Worker(i)];
    assert steps[1..] == [];
  }

  // ---- what the wait of `reset` is good for ---------------------------------------------------------------------------

  /** During a pause in which no worker was about to pop: the wait knows an old value of the counter, and
      once it has returned nothing but the queue is outstanding. */
  ghost predicate Settling<T>(s: State<T>) {
    && s.paused && Pausing(s.ctl) && Popping(s) == 0
    && (s.ctl.ResetWait? ==> !s.ctl.at.ReadTotal?)
    && (s.ctl.ResetWait? && s.ctl.at.SumQueued? ==> s.total <= s.ctl.at.total < WORD)
    && (!s.ctl.ResetWait? ==> s.total == |s.queue|)
  }

  lemma AllQueuedMeansNoneHeld<T>(s: State<T>)
    requires Counter(s) && s.total == |s.queue|
    ensures forall i :: 0 <= i < |s.workers| ==> !Holding(s.workers[i])
    ensures forall c :: 0 <= c < |s.clients| ==> !s.clients[c].Enqueueing?
  {
    GatherEmptyMeansNone(s.workers, HeldOf);
    GatherEmptyMeansNone(s.clients, InFlightOf);
    forall i | 0 <= i < |s.workers|
      ensures !Holding(s.workers[i])
    {
      assert HeldOf(s.workers[i]) == multiset{};
    }
    forall c | 0 <= c < |s.clients|
      ensures !s.clients[c].Enqueueing?
    {
      assert InFlightOf(s.clients[c]) == multiset{};
    }
  }

  lemma IdleWorkerSettles<T>(s: State<T>, i: nat)
    requires i < |s.workers| && !s.workers[i].Exited? && !s.workers[i].TryPop? && !Holding(s.workers[i])
    ensures WorkerNext(s, i).total == s.total && WorkerNext(s, i).queue == s.queue
  {
  }

  lemma OtherStepInPause<T>(s: State<T>, step: Step<T>)
    requires Enabled(s, step) && !step.Control? && !step.BeginPush? && !step.SetPaused? && !step.BeginReset? && !step.BeginDestroy?
    ensures Next(s, step).ctl == s.ctl && Next(s, step).paused == s.paused
    ensures step.Client? && !s.clients[step.c].Enqueueing? ==> Next(s, step).queue == s.queue && Next(s, step).total == s.total
    ensures step.BeginWait? || step.BeginSum? ==> Next(s, step).queue == s.queue && Next(s, step).total == s.total
  {
    hide WrapSub, WaitNext;
  }

  lemma OthersSettle<T>(s: State<T>, step: Step<T>)
    requires Inv(s) && Settling(s) && Enabled(s, step) && !step.Control?
    requires !step.BeginPush? && !step.SetPaused? && !step.BeginReset?
    ensures Settling(Next(s, step))
  {
    hide Popping, WorkerNext, ClientNext, ControlNext, Conserved, Fifo, Threads, Waits, Sums, HeldTasks, InFlightTasks;
    PausedStepUsesUp(s, step);
    CounterStep(s, step);
    StepExtends(s, step);
    OtherStepInPause(s, step);
    PoppingMeansSomeone(s);
    if s.total == |s.queue| {
      AllQueuedMeansNoneHeld(s);
      if step.Worker? {
        IdleWorkerSettles(s, step.i);
      }
    }
  }

  lemma OwnerInPause<T>(s: State<T>)
    requires Pausing(s.ctl) && ControlEnabled(s) && Pausing(ControlNext(s).ctl)
    ensures var t := ControlNext(s);
            && t.total == s.total && t.queue == s.queue && t.paused == s.paused && t.started == s.started
            && (t.ctl.ResetWait? ==> s.ctl.ResetWait? && WaitNext(s, s.ctl.at) == Again(t.ctl.at))
            && (s.ctl.ResetWait? && !t.ctl.ResetWait? ==> WaitNext(s, s.ctl.at).Return?)
  {
    hide WaitNext;
  }

  lemma WaitSettles<T>(s: State<T>, at: WaitPc)
    requires Counter(s) && s.paused && !at.ReadTotal? && (at.SumQueued? ==> s.total <= at.total < WORD)
    ensures match WaitNext(s, at)
            case Again(next) => !next.ReadTotal? && (next.SumQueued? ==> s.total <= next.total < WORD)
            case Return(_) => s.total == |s.queue|
  {
    hide Gather, HeldTasks, InFlightTasks;
  }

  lemma OwnerSettles<T>(s: State<T>)
    requires Inv(s) && Settling(s) && Enabled(s, Control) && Pausing(Next(s, Control).ctl)
    ensures Settling(Next(s, Control))
  {
    PausedStepUsesUp(s, Control);
    OwnerInPause(s);
    if s.ctl.ResetWait? {
      WaitSettles(s, s.ctl.at);
    }
    hide Inv, Popping, WaitNext, ControlNext;
  }

  lemma {:induction false} RunSettles<T>(s: State<T>, steps: seq<Step<T>>)
    requires Inv(s) && Settling(s) && CanRun(s, steps) && Pausing(Run(s, steps).ctl)
    requires forall step :: step in steps ==> !step.BeginPush? && !step.SetPaused? && !step.BeginReset?
    ensures Settling(Run(s, steps))
    decreases |steps|
  {
    if steps != [] {
      hide Inv, Next, Enabled, Settling;
      var t := Next(s, steps[0]);
      SettlingPauses(s);
      StepKeepsInv(s, steps[0]);
      if !Pausing(t.ctl) {
        LeavesPauseForGood(s, steps[0]);
        PauseEndsOnce(t, steps[1..]);
      }
      if steps[0].Control? {
        OwnerSettles(s);
      } else {
        OthersSettle(s, steps[0]);
      }
      RunSettles(t, steps[1..]);
    }
  }

  lemma SettlingPauses<T>(s: State<T>)
    requires Settling(s)
    ensures Pausing(s.ctl)
  {
  }

  /** The wait of `reset` waits for running tasks: if no worker was about to pop when the pause began, and
      no push begins meanwhile, then from the return of the wait to the restoring of the flag no worker
      holds a task, and everything pushed and not finished is in the queue. */
  lemma ResetWaitsForRunning<T>(s: State<T>, steps: seq<Step<T>>)
    requires Inv(s) && s.paused && s.ctl.ResetWait? && s.ctl.at.ReadPausedFlag? && CanRun(s, steps)
    requires forall i :: 0 <= i < |s.workers| ==> !s.workers[i].TryPop?
    requires forall step :: step in steps ==> !step.BeginPush? && !step.SetPaused? && !step.BeginReset?
    requires var t := Run(s, steps); Pausing(t.ctl) && !t.ctl.ResetWait?
    ensures var t := Run(s, steps);
            t.total == |t.queue| && (forall i :: 0 <= i < |t.workers| ==> !t.workers[i].Executing? && !t.workers[i].Decrementing?)
  {
    PoppingMeansSomeone(s);
    RunKeepsInv(s, steps);
    RunSettles(s, steps);
    hide Run, CanRun, Conserved, Fifo, Threads, Waits, Sums;
    AllQueuedMeansNoneHeld(Run(s, steps));
  }

  // ---- get_tasks_running ----------------------------------------------------------------------------------------

  lemma CountAgainstState<T>(s: State<T>, c: nat)
    requires Counter(s) && Sums(s) && c < |s.clients| && s.clients[c].Summing?
    ensures var Summing(total, issuedAt, retiredAt) := s.clients[c];
            && total - |s.queue| == |HeldTasks(s)| + |InFlightTasks(s)| + (s.retired - retiredAt) - (|s.issued| - issuedAt)
            && ClientNext(s, c).clients[c] ==
                 Summed(if |s.queue| <= total then total - |s.queue| else total - |s.queue| + WORD)
  {
    if |s.queue| > s.clients[c].total {
      assert WrapSub(s.clients[c].total, |s.queue|) == s.clients[c].total - |s.queue| + WORD;
    }
  }

  /** The value get_tasks_running returns, against the truth at its second read, with any number of
      clients pushing.  It has not wrapped and counts at least the tasks popped and not yet counted off
      if and only if the pushes begun since the first read are no more than the completions since then
      plus the pushes still on their way.  It wraps if and only if the queue has outgrown the counter
      that was read, and is then above every count that could be true. */
  lemma CountAgainstTruth<T>(requested: nat, hardware: nat, clientCount: nat, steps: seq<Step<T>>, c: nat)
    requires CanRun(Init<T>(requested, hardware, clientCount), steps)
    requires var s := Run(Init<T>(requested, hardware, clientCount), steps);
             c < |s.clients| && s.clients[c].Summing?
    ensures var s := Run(Init<T>(requested, hardware, clientCount), steps);
            var Summing(total, issuedAt, retiredAt) := s.clients[c];
            var begun := |s.issued| - issuedAt;
            var completed := s.retired - retiredAt;
            && begun >= 0 && completed >= 0
            && ClientNext(s, c).clients[c].Summed?
            && var result := ClientNext(s, c).clients[c].result;
               && (|HeldTasks(s)| <= result <= total <==> begun <= completed + |InFlightTasks(s)|)
               && (total < result <==> total < |s.queue|)
               && (total < result ==> result == total - |s.queue| + WORD > |HeldTasks(s)|)
  {
    InitInv<T>(requested, hardware, clientCount);
    RunKeepsInv(Init<T>(requested, hardware, clientCount), steps);
    CountAgainstState(Run(Init<T>(requested, hardware, clientCount), steps), c);
  }

  lemma {:induction false} QuietRunKeepsRead<T>(s: State<T>, c: nat, steps: seq<Step<T>>)
    requires CanRun(s, steps) && c < |s.clients| && s.clients[c].Summing?
    requires forall step :: step in steps ==> !step.BeginPush? && step != Client(c)
    ensures |Run(s, steps).clients| == |s.clients| && Run(s, steps).clients[c] == s.clients[c]
    ensures Run(s, steps).issued == s.issued
    decreases |steps|
  {
    if steps != [] {
      var t := Next(s, steps[0]);
      assert |t.clients| == |s.clients| && t.clients[c] == s.clients[c] && t.issued == s.issued by {
        hide WrapSub, WrapAdd, WaitNext, Run, CanRun;
        assert steps[0] in steps;
      }
      QuietRunKeepsRead(t, c, steps[1..]);
    }
  }

  lemma {:induction false} RunningWithinHeld<T>(workers: seq<WorkerPc<T>>)
    ensures |Gather(workers, ExecutingOf)| <= |Gather(workers, HeldOf)|
  {
    if workers != [] {
      RunningWithinHeld(workers[..|workers| - 1]);
    }
  }

  lemma CountWithNoPushSince<T>(t: State<T>, c: nat)
    requires Inv(t) && c < |t.clients| && t.clients[c].Summing? && t.clients[c].issuedAt == |t.issued|
    ensures var total := t.clients[c].total;
            && |t.queue| <= total
            && ClientNext(t, c).clients[c] == Summed(total - |t.queue|)
            && total - |t.queue| >= |RunningTasks(t)|
  {
    hide Waits, Threads, Fifo, Conserved, ClientNext;
    CountAgainstState(t, c);
    RunningWithinHeld(t.workers);
  }

  /** For a sole pusher that has just made its first read in `s`, whatever pops and completions fall
      between the two reads, get_tasks_running does not wrap and is at least the number of tasks truly
      running at its second read. */
  lemma SolePusherCountIsSound<T>(s: State<T>, c: nat, steps: seq<Step<T>>)
    requires Inv(s) && c < |s.clients| && s.clients[c] == Summing(s.total, |s.issued|, s.retired)
    requires CanRun(s, steps)
    requires forall step :: step in steps ==> !step.BeginPush? && step != Client(c)
    requires !Run(s, steps).ctl.Destroyed?
    ensures var t := Run(s, steps);
            && |t.queue| <= s.total
            && Enabled(t, Client(c)) && Next(t, Client(c)).clients[c] == Summed(s.total - |t.queue|)
            && s.total - |t.queue| >= |RunningTasks(t)|
  {
    hide Inv, RunningTasks, ClientNext, Run, CanRun;
    QuietRunKeepsRead(s, c, steps);
    RunKeepsInv(s, steps);
    CountWithNoPushSince(Run(s, steps), c);
  }

  // ---- when a limit on outstanding tasks holds ---------------------------------------------------------------------

  /** A state `k` steps into a run. */
  function StateAt<T>(s: State<T>, steps: seq<Step<T>>, k: nat): State<T>
    requires CanRun(s, steps) && k <= |steps|
    decreases |steps|
  {
    if k == 0 then s else StateAt(Next(s, steps[0]), steps[1..], k - 1)
  }

  lemma CounterStep<T>(s: State<T>, step: Step<T>)
    requires Inv(s) && Enabled(s, step)
    ensures step.BeginPush? ==> Next(s, step).total == s.total + 1
    ensures !step.BeginPush? ==> Next(s, step).total <= s.total
  {
    hide Conserved, Fifo, Threads, Waits, Sums, Gather, WrapSub, WaitNext, InFlightTasks, HeldTasks;
    if step.Worker? {
      WorkerCounterStep(s, step.i);
    }
  }

  lemma WorkerCounterStep<T>(s: State<T>, i: nat)
    requires Counter(s) && Enabled(s, Worker(i))
    ensures WorkerNext(s, i).total <= s.total
  {
    hide Gather, WrapSub;
    CounterAt(s);
  }

  /** Whether the tasks queued, held and on their way stay within `max` all through a run. */
  ghost predicate StaysWithin<T>(s: State<T>, steps: seq<Step<T>>, max: nat)
    requires CanRun(s, steps)
  {
    forall k :: 0 <= k <= |steps| ==>
      var t := StateAt(s, steps, k);
      |t.queue| + |HeldTasks(t)| + |InFlightTasks(t)| <= max
  }

  /** Whether every push of a run begins with the counter below `max`. */
  predicate PushesBelow<T>(s: State<T>, steps: seq<Step<T>>, max: nat)
    requires CanRun(s, steps)
    decreases |steps|
  {
    steps != [] ==>
      && (steps[0].BeginPush? ==> s.total < max)
      && PushesBelow(Next(s, steps[0]), steps[1..], max)
  }

  lemma StaysWithinSplit<T>(s: State<T>, steps: seq<Step<T>>, max: nat)
    requires Inv(s) && CanRun(s, steps) && steps != []
    ensures StaysWithin(s, steps, max) <==> s.total <= max && StaysWithin(Next(s, steps[0]), steps[1..], max)
  {
    hide Next, Enabled, Conserved, Fifo, Threads, Waits, Sums, Gather, HeldTasks, InFlightTasks;
    var t := Next(s, steps[0]);
    assert StateAt(s, steps, 0) == s;
    if StaysWithin(s, steps, max) {
      forall k | 0 <= k <= |steps[1..]|
        ensures var u := StateAt(t, steps[1..], k); |u.queue| + |HeldTasks(u)| + |InFlightTasks(u)| <= max
      {
        assert StateAt(s, steps, k + 1) == StateAt(t, steps[1..], k);
      }
    } else {
      var k :| 0 <= k <= |steps| && var u := StateAt(s, steps, k); |u.queue| + |HeldTasks(u)| + |InFlightTasks(u)| > max;
      if k > 0 {
        assert StateAt(s, steps, k) == StateAt(t, steps[1..], k - 1);
      }
    }
  }

  /** Tasks queued, held or on their way never exceed a limit if and only if every push begins with the
      counter below it.  Testing get_tasks_running instead lets more through, for it leaves out what is
      queued. */
  lemma {:induction false} OutstandingWithinIff<T>(s: State<T>, steps: seq<Step<T>>, max: nat)
    requires Inv(s) && CanRun(s, steps) && s.total <= max
    ensures StaysWithin(s, steps, max) <==> PushesBelow(s, steps, max)
    decreases |steps|
  {
    if steps == [] {
      assert StateAt(s, steps, 0) == s;
    } else {
      hide Next, Enabled, Inv, StaysWithin;
      var t := Next(s, steps[0]);
      CounterStep(s, steps[0]);
      StepKeepsInv(s, steps[0]);
      StaysWithinSplit(s, steps, max);
      if t.total <= max {
        OutstandingWithinIff(t, steps[1..], max);
      } else {
        OverTheLimit(t, steps[1..], max);
      }
    }
  }

  lemma OverTheLimit<T>(s: State<T>, steps: seq<Step<T>>, max: nat)
    requires Inv(s) && CanRun(s, steps) && s.total > max
    ensures !StaysWithin(s, steps, max)
  {
    assert StateAt(s, steps, 0) == s;
  }

  // ---- the workers can always finish ------------------------------------------------------------------------------------

  /** A state in which the workers go on: no pause, no stop. */
  predicate Working<T>(s: State<T>) {
    s.running && !s.paused && s.ctl.Ready? && s.workers != []
  }

  /** How many steps a worker is at most away from its next pop. */
  function StepsToPop<T>(w: WorkerPc<T>): nat {
    match w
    case Executing(_) => 5
    case Decrementing(_) => 4
    case Sleeping => 4
    case ReadRunning => 3
    case ReadPaused => 2
    case TryPop => 1
    case Exited => 0
  }

  predicate Holding<T>(w: WorkerPc<T>) {
    w.Executing? || w.Decrementing?
  }

  lemma WorkerProgress<T>(s: State<T>, i: nat)
    requires Working(s) && i < |s.workers| && !s.workers[i].Exited?
    ensures var t := WorkerNext(s, i);
            && |t.workers| == |s.workers|
            && (|t.queue| < |s.queue| || (t.queue == s.queue && (s.queue != [] ==> StepsToPop(t.workers[i]) < StepsToPop(s.workers[i]))))
            && (s.queue == [] && Holding(s.workers[i]) ==> StepsToPop(t.workers[i]) < StepsToPop(s.workers[i]))
  {
    hide WrapSub;
  }

  lemma WorkerLeavesRest<T>(s: State<T>, i: nat)
    requires i < |s.workers| && !s.workers[i].Exited?
    ensures var t := WorkerNext(s, i);
            && |t.workers| == |s.workers| && t.workers == s.workers[i := t.workers[i]]
            && t.running == s.running && t.paused == s.paused && t.ctl == s.ctl && t.issued == s.issued && t.clients == s.clients
  {
    hide WrapSub;
  }

  lemma WorkerThere<T>(s: State<T>, i: nat)
    requires Inv(s) && Working(s) && i < |s.workers|
    ensures Enabled(s, Worker(i))
  {
    hide Counter, Conserved, Fifo, Waits, Sums;
  }

  lemma WorkerGoesOn<T>(s: State<T>, i: nat)
    requires Inv(s) && Working(s) && i < |s.workers|
    ensures Enabled(s, Worker(i))
    ensures var t := Next(s, Worker(i));
            && Inv(t) && Working(t) && t.issued == s.issued && t.clients == s.clients
            && |t.workers| == |s.workers| && t.workers == s.workers[i := t.workers[i]]
            && (|t.queue| < |s.queue| || (t.queue == s.queue && (s.queue != [] ==> StepsToPop(t.workers[i]) < StepsToPop(s.workers[i]))))
            && (s.queue == [] && Holding(s.workers[i]) ==> StepsToPop(t.workers[i]) < StepsToPop(s.workers[i]))
  {
    hide Inv, WorkerNext, StepsToPop, Holding;
    WorkerThere(s, i);
    StepKeepsInv(s, Worker(i));
    WorkerProgress(s, i);
    WorkerLeavesRest(s, i);
  }

  lemma OneMoreFirst<T>(s: State<T>, i: nat, rest: seq<Step<T>>)
    requires Enabled(s, Worker(i)) && WorkersRun(Next(s, Worker(i)), rest)
    ensures WorkersRun(s, [Worker(i)] + rest)
    ensures Run(s, [Worker(i)] + rest) == Run(Next(s, Worker(i)), rest)
  {
    hide Enabled, Next;
    assert ([Worker(i)] + rest)[1..] == rest;
  }

  lemma {:induction false} DrainQueue<T>(s: State<T>) returns (steps: seq<Step<T>>)
    requires Inv(s) && Working(s)
    ensures WorkersRun(s, steps)
    ensures var t := Run(s, steps);
            Inv(t) && Working(t) && t.issued == s.issued && t.clients == s.clients && t.queue == []
    decreases |s.queue|, StepsToPop(s.workers[0])
  {
    steps := [];
    if s.queue != [] {
      hide Inv, Enabled, Next, StepsToPop;
      WorkerGoesOn(s, 0);
      var rest := DrainQueue(Next(s, Worker(0)));
      OneMoreFirst(s, 0, rest);
      steps := [Worker(0)] + rest;
    }
  }

  lemma {:induction false} FinishHeld<T>(s: State<T>, i: nat) returns (steps: seq<Step<T>>)
    requires Inv(s) && Working(s) && s.queue == [] && i <= |s.workers|
    requires forall j :: 0 <= j < i ==> !Holding(s.workers[j])
    ensures WorkersRun(s, steps)
    ensures var t := Run(s, steps);
            && Inv(t) && t.issued == s.issued && t.clients == s.clients && t.queue == []
            && forall j :: 0 <= j < |t.workers| ==> !Holding(t.workers[j])
    decreases |s.workers| - i, if i < |s.workers| then StepsToPop(s.workers[i]) else 0
  {
    steps := [];
    if i < |s.workers| {
      hide Inv, Enabled, Next, StepsToPop;
      if Holding(s.workers[i]) {
        WorkerGoesOn(s, i);
        var rest := FinishHeld(Next(s, Worker(i)), i);
        OneMoreFirst(s, i, rest);
        steps := [Worker(i)] + rest;
      } else {
        steps := FinishHeld(s, i + 1);
      }
    }
  }

  lemma {:induction false} WorkersRunOn<T>(s: State<T>, xs: seq<Step<T>>, ys: seq<Step<T>>)
    requires WorkersRun(s, xs) && WorkersRun(Run(s, xs), ys)
    ensures WorkersRun(s, xs + ys) && Run(s, xs + ys) == Run(Run(s, xs), ys)
    decreases |xs|
  {
    hide Enabled, Next;
    if xs == [] {
      assert xs + ys == ys;
    } else {
      WorkersRunOn(Next(s, xs[0]), xs[1..], ys);
      assert (xs + ys)[1..] == xs[1..] + ys;
    }
  }

  lemma NothingHeldMeansDone<T>(t: State<T>)
    requires Inv(t) && t.queue == [] && InFlightTasks(t) == multiset{}
    requires forall j :: 0 <= j < |t.workers| ==> !Holding(t.workers[j])
    ensures t.total == 0 && multiset(t.finished) == multiset(t.issued)
  {
    hide Gather, Fifo, Waits, Sums, Threads;
    GatherNothing(t.workers, HeldOf);
    GatherNothing(t.workers, ExecutingOf);
  }

  /** No work gets stuck: from every reachable state of a pool that is ready, not paused and has a worker,
      with no push on its way, some run of the workers alone leaves the queue empty, the counter at zero
      and every task pushed so far run to its end, once. */
  lemma WorkersCanFinish<T>(requested: nat, hardware: nat, clientCount: nat, steps: seq<Step<T>>) returns (more: seq<Step<T>>)
    requires CanRun(Init<T>(requested, hardware, clientCount), steps)
    requires var s := Run(Init<T>(requested, hardware, clientCount), steps);
             s.ctl.Ready? && !s.paused && s.workers != [] && InFlightTasks(s) == multiset{}
    ensures var s := Run(Init<T>(requested, hardware, clientCount), steps);
            && WorkersRun(s, more)
            && var t := Run(s, more);
               t.queue == [] && t.total == 0 && t.issued == s.issued && multiset(t.finished) == multiset(s.issued)
  {
    hide Enabled, Next, Gather;
    InitInv<T>(requested, hardware, clientCount);
    RunKeepsInv(Init<T>(requested, hardware, clientCount), steps);
    ResetStartsNoWorkerEarly(requested, hardware, clientCount, steps);
    var s := Run(Init<T>(requested, hardware, clientCount), steps);
    hide Init, CanRun, Run, Inv, WorkersRun;
    var xs := DrainQueue(s);
    var ys := FinishHeld(Run(s, xs), 0);
    WorkersRunOn(s, xs, ys);
    more := xs + ys;
    NothingHeldMeansDone(Run(s, more));
  }

  // ---- interleavings that do occur ----------------------------------------------------------------------------------

  ghost predicate Leads<T(!new)>(s: State<T>, t: State<T>) {
    exists steps: seq<Step<T>> :: CanRun(s, steps) && Run(s, steps) == t
  }

  lemma {:induction false} RunOneMore<T>(s: State<T>, steps: seq<Step<T>>, last: Step<T>)
    requires CanRun(s, steps) && Enabled(Run(s, steps), last)
    ensures CanRun(s, steps + [last]) && Run(s, steps + [last]) == Next(Run(s, steps), last)
    decreases |steps|
  {
    hide Enabled, Next;
    if steps == [] {
      assert steps + [last] == [last];
      assert [last][1..] == [];
    } else {
      RunOneMore(Next(s, steps[0]), steps[1..], last);
      assert (steps + [last])[1..] == steps[1..] + [last];
    }
  }

  lemma LeadsOneMore<T(!new)>(s: State<T>, t: State<T>, last: Step<T>)
    requires Leads(s, t) && Enabled(t, last)
    ensures Leads(s, Next(t, last))
  {
    hide Enabled, Next;
    var steps :| CanRun(s, steps) && Run(s, steps) == t;
    RunOneMore(s, steps, last);
  }

  lemma StartsHere<T(!new)>(s: State<T>)
    ensures Leads(s, s)
  {
    assert CanRun(s, []) && Run(s, []) == s;
  }

  /** A started pool of one thread with one task queued, its worker about to pop. */
  lemma OneTaskQueued(clientCount: nat, body: nat) returns (s: State<nat>)
    requires clientCount >= 1
    ensures Leads(Init<nat>(1, 1, clientCount), s)
    ensures var task := Task(0, body);
            s == State(true, false, 1, [task], 1, [TryPop], seq(clientCount, _ => Idle), Ready, [task], [task], [], [], 0)
  {
    hide Leads;
    var s0 := Init<nat>(1, 1, clientCount);
    StartsHere(s0);
    LeadsOneMore(s0, s0, Control);
    var s1 := Next(s0, Control);
    LeadsOneMore(s0, s1, Control);
    var s2 := Next(s1, Control);
    LeadsOneMore(s0, s2, BeginPush(0, body));
    var s3 := Next(s2, BeginPush(0, body));
    LeadsOneMore(s0, s3, Client(0));
    var s4 := Next(s3, Client(0));
    LeadsOneMore(s0, s4, Worker(0));
    var s5 := Next(s4, Worker(0));
    LeadsOneMore(s0, s5, Worker(0));
    s := Next(s5, Worker(0));
    assert s.clients == s0.clients;
  }

  /** The race `reset` has to survive does occur: a worker that read `paused == false` just before the
      pause pops and runs a task after the paused wait of `reset` has returned. */
  lemma WorkerPopsAfterPausedWait() returns (s: State<nat>)
    ensures Leads(Init<nat>(1, 1, 1), s)
    ensures s.paused && s.ctl.ResetStop? && |s.workers| == 1 && s.workers[0].Executing?
  {
    hide Leads, Init;
    var s0 := Init<nat>(1, 1, 1);
    var s1 := OneTaskQueued(1, 7);
    LeadsOneMore(s0, s1, BeginReset(1, 1));
    var s2 := Next(s1, BeginReset(1, 1));
    LeadsOneMore(s0, s2, Control);
    var s3 := Next(s2, Control);
    LeadsOneMore(s0, s3, Control);
    var s4 := Next(s3, Control);
    LeadsOneMore(s0, s4, Control);
    var s5 := Next(s4, Control);
    LeadsOneMore(s0, s5, Control);
    var s6 := Next(s5, Control);
    assert s6.ctl == ResetStop(1, false) && s6.workers == [TryPop] && s6.queue == [Task(0, 7)];
    LeadsOneMore(s0, s6, Worker(0));
    s := Next(s6, Worker(0));
  }

  /** With a second client pushing between the two reads, get_tasks_running can answer 0 while a task is
      being run: the restriction to a sole pusher is needed. */
  lemma SecondPusherUndercounts() returns (s: State<nat>)
    ensures Leads(Init<nat>(1, 1, 2), s)
    ensures |s.clients| == 2 && s.clients[0] == Summed(0) && |s.workers| == 1 && s.workers[0].Executing?
  {
    hide Leads, Init;
    var s0 := Init<nat>(1, 1, 2);
    var s1 := OneTaskQueued(2, 7);
    LeadsOneMore(s0, s1, Worker(0));
    var s2 := Next(s1, Worker(0));
    LeadsOneMore(s0, s2, BeginSum(0));
    var s3 := Next(s2, BeginSum(0));
    LeadsOneMore(s0, s3, BeginPush(1, 8));
    var s4 := Next(s3, BeginPush(1, 8));
    LeadsOneMore(s0, s4, Client(1));
    var s5 := Next(s4, Client(1));
    LeadsOneMore(s0, s5, Client(0));
    s := Next(s5, Client(0));
  }

  /** With a second client pushing between the two reads, get_tasks_running can also wrap around: nothing
      runs, and it answers with the greatest value there is. */
  lemma SecondPusherWraps() returns (s: State<nat>)
    ensures Leads(Init<nat>(1, 1, 2), s)
    ensures |s.clients| == 2 && s.clients[0] == Summed(WORD - 1) && s.workers == []
  {
    hide Leads;
    var s0 := Init<nat>(1, 1, 2);
    StartsHere(s0);
    LeadsOneMore(s0, s0, BeginSum(0));
    var s1 := Next(s0, BeginSum(0));
    LeadsOneMore(s0, s1, BeginPush(1, 8));
    var s2 := Next(s1, BeginPush(1, 8));
    LeadsOneMore(s0, s2, Client(1));
    var s3 := Next(s2, Client(1));
    LeadsOneMore(s0, s3, Client(0));
    s := Next(s3, Client(0));
  }
}
