/** What every interleaving of the pool keeps, and what waiting, counting, resetting and
    destroying the pool then guarantee. */
module ThreadPoolProofs {
  import opened Bags
  import opened Common
  import opened ThreadPool

  // ---- the invariant -----------------------------------------------------------------------------

  /** The counter is exactly what is queued, held by a worker, or about to be queued. */
  ghost predicate Counter<T>(s: State<T>) {
    && s.total == |s.queue| + |HeldTasks(s)| + |InFlightTasks(s)|
    && s.total < WORD
    && |s.issued| == s.total + s.retired
  }

  /** Every push begun is in exactly one place, and pushes are numbered in order. */
  ghost predicate Conserved<T>(s: State<T>) {
    && multiset(s.issued) == InFlightTasks(s) + multiset(s.queue) + RunningTasks(s) + multiset(s.finished)
    && multiset(s.issued) == InFlightTasks(s) + multiset(s.enqueued)
    && (forall k :: 0 <= k < |s.issued| ==> s.issued[k].id == k)
  }

  /** Tasks start in the order in which they were enqueued. */
  ghost predicate Fifo<T>(s: State<T>) {
    s.started + s.queue == s.enqueued
  }

  ghost predicate AllExited<T>(workers: seq<WorkerPc<T>>) {
    forall i :: 0 <= i < |workers| ==> workers[i].Exited?
  }

  ghost predicate Stopping(ctl: ControlPc) {
    ctl.ResetJoin? || ctl.ResetReplace? || ctl.ResetRestore? || ctl.ResetRun? || ctl.DestroyJoin? || ctl.Destroyed?
  }

  /** How many threads there are, and which have been joined, at each point of the owner's code. */
  ghost predicate Threads<T>(s: State<T>) {
    && (s.running <==> !Stopping(s.ctl))
    && (s.running ==> forall i :: 0 <= i < |s.workers| ==> !s.workers[i].Exited?)
    && (match s.ctl
        case Creating => |s.workers| <= s.threadCount
        case ResetRestore(_) => s.workers == []
        case ResetRun => s.workers == []
        case _ => |s.workers| == s.threadCount)
    && (match s.ctl
        case ResetJoin(_, _, joined) => joined <= |s.workers| && AllExited(s.workers[..joined])
        case DestroyJoin(_, _, joined) => joined <= |s.workers| && AllExited(s.workers[..joined])
        case ResetReplace(_, _) => AllExited(s.workers)
        case Destroyed(_, _) => AllExited(s.workers)
        case _ => true)
  }

  /** The first `n` pushes have been run to the end. */
  ghost predicate DoneBefore<T>(s: State<T>, n: nat) {
    n <= |s.issued| && forall k :: 0 <= k < n ==> s.issued[k] in s.finished
  }

  /** Whoever has left wait_for_tasks by its unpaused branch has waited for everything before. */
  ghost predicate Waits<T>(s: State<T>) {
    && (forall c :: 0 <= c < |s.clients| && s.clients[c].Waited? && s.clients[c].unpaused ==>
          DoneBefore(s, s.clients[c].seen))
    && ((s.ctl.DestroyStop? || s.ctl.DestroyJoin? || s.ctl.Destroyed?) && s.ctl.unpaused ==>
          DoneBefore(s, s.ctl.seen))
  }

  /** What a client between the two reads of get_tasks_running remembers. */
  ghost predicate Sums<T>(s: State<T>) {
    forall c :: 0 <= c < |s.clients| && s.clients[c].Summing? ==>
      var Summing(total, issuedAt, retiredAt) := s.clients[c];
      total < WORD && issuedAt == total + retiredAt && issuedAt <= |s.issued| && retiredAt <= s.retired
  }

  ghost predicate Inv<T>(s: State<T>) {
    Counter(s) && Conserved(s) && Fifo(s) && Threads(s) && Waits(s) && Sums(s)
  }

  // ---- the invariant holds at the start and is kept by every step ----------------------------------

  lemma InitInv<T>(requested: nat, hardware: nat, clientCount: nat)
    ensures Inv(Init<T>(requested, hardware, clientCount))
  {
    var s := Init<T>(requested, hardware, clientCount);
    GatherNothing(s.clients, InFlightOf);
  }

  lemma SameClientsSameFlight<T>(s: State<T>, t: State<T>)
    requires s.clients == t.clients
    ensures InFlightTasks(s) == InFlightTasks(t)
  {
  }

  lemma WrapSubExact(a: int, b: int)
    requires 0 <= b <= a < WORD
    ensures WrapSub(a, b) == a - b
  {
  }

  /** The decrement is the only step that changes how many tasks a worker still has to count off,
      apart from the pop. */
  lemma WorkerHeldSize<T>(s: State<T>, i: nat)
    requires i < |s.workers| && !s.workers[i].Exited?
    ensures |HeldTasks(WorkerNext(s, i))| ==
      |HeldTasks(s)| + (if s.workers[i].TryPop? && s.queue != [] then 1 else 0) - (if s.workers[i].Decrementing? then 1 else 0)
    ensures s.workers[i].Decrementing? ==> |HeldTasks(s)| >= 1
  {
    hide Gather, WrapSub;
    GatherUpdateSize(s.workers, i, WorkerNext(s, i).workers[i], HeldOf);
  }

  lemma WorkerKeepsCounter<T>(s: State<T>, i: nat)
    requires Counter(s) && i < |s.workers| && !s.workers[i].Exited?
    ensures Counter(WorkerNext(s, i))
  {
    hide HeldTasks, InFlightTasks, WrapSub;
    WorkerHeldSize(s, i);
    if s.workers[i].Decrementing? {
      WrapSubExact(s.total, 1);
    }
    assert InFlightTasks(WorkerNext(s, i)) == InFlightTasks(s) by {
      SameClientsSameFlight(s, WorkerNext(s, i));
    }
  }

  lemma PopKeepsConserved<T>(s: State<T>, i: nat)
    requires Conserved(s) && i < |s.workers| && s.workers[i].TryPop? && s.queue != []
    ensures Conserved(WorkerNext(s, i))
  {
    hide Gather;
    var t := WorkerNext(s, i);
    var x := multiset{s.queue[0]};
    var rest := GatherUpdate(s.workers, i, t.workers[i], ExecutingOf);
    assert RunningTasks(s) == rest;
    MultisetFront(s.queue);
    MoveToThird(InFlightTasks(s), multiset(t.queue), rest, multiset(s.finished), x);
  }

  lemma FinishKeepsConserved<T>(s: State<T>, i: nat)
    requires Conserved(s) && i < |s.workers| && s.workers[i].Executing?
    ensures Conserved(WorkerNext(s, i))
  {
    hide Gather;
    var t := WorkerNext(s, i);
    var task := s.workers[i].task;
    var rest := GatherUpdate(s.workers, i, t.workers[i], ExecutingOf);
    assert RunningTasks(t) == rest;
    MultisetAppend(s.finished, task);
    MoveToFourth(InFlightTasks(s), multiset(s.queue), rest, multiset(s.finished), multiset{task});
  }

  lemma SameConserved<T>(s: State<T>, t: State<T>)
    requires Conserved(s)
    requires RunningTasks(t) == RunningTasks(s) && InFlightTasks(t) == InFlightTasks(s)
    requires t.queue == s.queue && t.issued == s.issued && t.enqueued == s.enqueued && t.finished == s.finished
    ensures Conserved(t)
  {
    hide RunningTasks, InFlightTasks;
  }

  lemma WorkerKeepsConserved<T>(s: State<T>, i: nat)
    requires Conserved(s) && i < |s.workers| && !s.workers[i].Exited?
    ensures Conserved(WorkerNext(s, i))
  {
    hide Gather, WrapSub, Conserved;
    if s.workers[i].TryPop? && s.queue != [] {
      PopKeepsConserved(s, i);
    } else if s.workers[i].Executing? {
      FinishKeepsConserved(s, i);
    } else {
      var t := WorkerNext(s, i);
      var rest := GatherUpdate(s.workers, i, t.workers[i], ExecutingOf);
      assert RunningTasks(t) == rest == RunningTasks(s);
      SameConserved(s, t);
    }
  }

  lemma WorkerKeepsFifo<T>(s: State<T>, i: nat)
    requires Fifo(s) && i < |s.workers| && !s.workers[i].Exited?
    ensures Fifo(WorkerNext(s, i))
  {
    hide WrapSub;
    if s.workers[i].TryPop? && s.queue != [] {
      assert s.queue == [s.queue[0]] + s.queue[1..];
    }
  }

  lemma WorkerKeepsThreads<T>(s: State<T>, i: nat)
    requires Threads(s) && i < |s.workers| && !s.workers[i].Exited? && !s.ctl.Destroyed?
    ensures Threads(WorkerNext(s, i))
  {
    hide WrapSub;
  }

  lemma WorkerKeepsWaits<T>(s: State<T>, i: nat)
    requires Waits(s) && Sums(s) && i < |s.workers| && !s.workers[i].Exited?
    ensures Waits(WorkerNext(s, i)) && Sums(WorkerNext(s, i))
  {
    hide WrapSub;
    var t := WorkerNext(s, i);
    assert s.finished <= t.finished && t.issued == s.issued && t.clients == s.clients && t.ctl == s.ctl;
  }

  lemma PushKeepsCounter<T>(s: State<T>, c: nat, body: T)
    requires Counter(s) && c < |s.clients| && Free(s.clients[c]) && s.total + 1 < WORD
    ensures Counter(PushNext(s, c, body))
  {
    hide Gather;
    var t := PushNext(s, c, body);
    GatherUpdateSize(s.clients, c, t.clients[c], InFlightOf);
  }

  lemma PushKeepsConserved<T>(s: State<T>, c: nat, body: T)
    requires Conserved(s) && c < |s.clients| && Free(s.clients[c])
    ensures Conserved(PushNext(s, c, body))
  {
    hide Gather;
    var t := PushNext(s, c, body);
    var task := t.clients[c].task;
    var rest := GatherUpdate(s.clients, c, t.clients[c], InFlightOf);
    assert InFlightTasks(s) == rest;
    MultisetAppend(s.issued, task);
    AddToFirst(rest, multiset(s.queue), RunningTasks(s), multiset(s.finished), multiset{task});
    AddToFirst(rest, multiset(s.enqueued), multiset{}, multiset{}, multiset{task});
  }

  lemma PushKeepsRest<T>(s: State<T>, c: nat, body: T)
    requires Fifo(s) && Threads(s) && Waits(s) && Sums(s) && c < |s.clients|
    ensures Fifo(PushNext(s, c, body)) && Threads(PushNext(s, c, body))
    ensures Waits(PushNext(s, c, body)) && Sums(PushNext(s, c, body))
  {
  }

  /** When the counter reads zero, nothing is queued, held or about to be queued. */
  lemma ZeroMeansAllDone<T>(s: State<T>)
    requires Counter(s) && Conserved(s) && s.total == 0
    ensures s.queue == [] && RunningTasks(s) == multiset{} && InFlightTasks(s) == multiset{}
    ensures forall i :: 0 <= i < |s.workers| ==> !s.workers[i].Executing? && !s.workers[i].Decrementing?
    ensures forall c :: 0 <= c < |s.clients| ==> !s.clients[c].Enqueueing?
    ensures DoneBefore(s, |s.issued|)
  {
    GatherEmptyMeansNone(s.workers, HeldOf);
    forall i | 0 <= i < |s.workers|
      ensures !s.workers[i].Executing? && !s.workers[i].Decrementing?
    {
      assert HeldOf(s.workers[i]) == multiset{};
    }
    GatherEmptyMeansNone(s.clients, InFlightOf);
    forall c | 0 <= c < |s.clients|
      ensures !s.clients[c].Enqueueing?
    {
      assert InFlightOf(s.clients[c]) == multiset{};
    }
    GatherNothing(s.workers, ExecutingOf);
    forall k | 0 <= k < |s.issued|
      ensures s.issued[k] in s.finished
    {
      assert s.issued[k] in multiset(s.issued);
      assert multiset(s.issued) == multiset(s.finished);
    }
  }

  lemma ClientKeepsCounter<T>(s: State<T>, c: nat)
    requires Counter(s) && c < |s.clients| && Busy(s.clients[c])
    ensures Counter(ClientNext(s, c))
  {
    hide Gather, WrapSub, WaitNext;
    var t := ClientNext(s, c);
    GatherUpdateSize(s.clients, c, t.clients[c], InFlightOf);
  }

  lemma EnqueueKeepsConserved<T>(s: State<T>, c: nat)
    requires Conserved(s) && c < |s.clients| && s.clients[c].Enqueueing?
    ensures Conserved(ClientNext(s, c))
  {
    hide Gather;
    var t := ClientNext(s, c);
    var task := s.clients[c].task;
    var rest := GatherUpdate(s.clients, c, t.clients[c], InFlightOf);
    assert InFlightTasks(t) == rest;
    MultisetAppend(s.queue, task);
    MultisetAppend(s.enqueued, task);
    MoveToSecond(rest, multiset(s.queue), RunningTasks(s), multiset(s.finished), multiset{task});
    MoveToSecond(rest, multiset(s.enqueued), multiset{}, multiset{}, multiset{task});
  }

  lemma ClientKeepsConserved<T>(s: State<T>, c: nat)
    requires Conserved(s) && c < |s.clients| && Busy(s.clients[c])
    ensures Conserved(ClientNext(s, c))
  {
    hide Gather, WrapSub, WaitNext, Conserved;
    if s.clients[c].Enqueueing? {
      EnqueueKeepsConserved(s, c);
    } else {
      var t := ClientNext(s, c);
      var rest := GatherUpdate(s.clients, c, t.clients[c], InFlightOf);
      assert InFlightTasks(t) == rest == InFlightTasks(s);
      SameConserved(s, t);
    }
  }

  lemma ClientKeepsRest<T>(s: State<T>, c: nat)
    requires Fifo(s) && Threads(s) && Sums(s) && c < |s.clients| && Busy(s.clients[c])
    ensures Fifo(ClientNext(s, c)) && Threads(ClientNext(s, c)) && Sums(ClientNext(s, c))
  {
    if s.clients[c].Enqueueing? {
      var task := s.clients[c].task;
      assert s.started + (s.queue + [task]) == s.enqueued + [task];
    }
  }

  lemma ClientKeepsWaits<T>(s: State<T>, c: nat)
    requires Waits(s) && c < |s.clients| && Busy(s.clients[c])
    requires s.total == 0 ==> DoneBefore(s, |s.issued|)
    ensures Waits(ClientNext(s, c))
  {
  }

  /** What is counted and conserved depends only on what the threads hold and on the histories. */
  lemma SameHoldings<T>(s: State<T>, t: State<T>)
    requires Counter(s) && Conserved(s) && Fifo(s)
    requires RunningTasks(t) == RunningTasks(s) && HeldTasks(t) == HeldTasks(s) && InFlightTasks(t) == InFlightTasks(s)
    requires t.total == s.total && t.queue == s.queue && t.retired == s.retired && t.issued == s.issued
    requires t.enqueued == s.enqueued && t.started == s.started && t.finished == s.finished
    ensures Counter(t) && Conserved(t) && Fifo(t)
  {
    hide RunningTasks, HeldTasks, InFlightTasks;
    SameConserved(s, t);
  }

  /** Entering a call changes only where the client stands. */
  lemma CallKeepsInv<T>(s: State<T>, c: nat, pc: ClientPc<T>)
    requires Inv(s) && c < |s.clients| && Free(s.clients[c])
    requires pc == Waiting(ReadPausedFlag) || pc == Summing(s.total, |s.issued|, s.retired)
    ensures Inv(s.(clients := s.clients[c := pc]))
  {
    hide Gather, Conserved, Fifo;
    var t := s.(clients := s.clients[c := pc]);
    var rest := GatherUpdate(s.clients, c, pc, InFlightOf);
    assert InFlightTasks(t) == rest == InFlightTasks(s);
    SameHoldings(s, t);
  }

  lemma CreateKeepsHoldings<T>(s: State<T>)
    requires Inv(s) && s.ctl.Creating?
    ensures Counter(ControlNext(s)) && Conserved(ControlNext(s)) && Fifo(ControlNext(s))
  {
    hide Gather, Counter, Conserved, Fifo, Waits, Sums, Threads;
    GatherAppend(s.workers, ReadRunning, ExecutingOf);
    GatherAppend(s.workers, ReadRunning, HeldOf);
    SameHoldings(s, ControlNext(s));
  }

  lemma ReplaceKeepsHoldings<T>(s: State<T>)
    requires Inv(s) && s.ctl.ResetReplace?
    ensures Counter(ControlNext(s)) && Conserved(ControlNext(s)) && Fifo(ControlNext(s))
  {
    hide Counter, Conserved, Fifo, Waits, Sums;
    GatherNothing(s.workers, ExecutingOf);
    GatherNothing(s.workers, HeldOf);
    SameHoldings(s, ControlNext(s));
  }

  lemma OwnerKeepsHoldings<T>(s: State<T>)
    requires Inv(s) && ControlEnabled(s)
    ensures Counter(ControlNext(s)) && Conserved(ControlNext(s)) && Fifo(ControlNext(s))
  {
    hide Gather, Counter, Conserved, Fifo, Waits, Sums, Threads, WaitNext, WrapSub;
    if s.ctl.Creating? {
      CreateKeepsHoldings(s);
    } else if s.ctl.ResetReplace? {
      ReplaceKeepsHoldings(s);
    } else {
      SameHoldings(s, ControlNext(s));
    }
  }

  lemma OwnerKeepsThreads<T>(s: State<T>)
    requires Threads(s) && ControlEnabled(s)
    ensures Threads(ControlNext(s))
  {
  }

  lemma OwnerLeavesAlone<T>(s: State<T>)
    requires ControlEnabled(s)
    ensures var t := ControlNext(s);
            t.clients == s.clients && t.issued == s.issued && t.finished == s.finished && t.retired == s.retired
  {
    hide WrapSub;
  }

  /** The owner passes on what its wait has seen. */
  lemma OwnerEffect<T>(s: State<T>)
    requires ControlEnabled(s)
    ensures var t := ControlNext(s);
            && ((t.ctl.DestroyStop? || t.ctl.DestroyJoin? || t.ctl.Destroyed?) && t.ctl.unpaused ==>
                  || (s.ctl.DestroyWait? && s.total == 0 && t.ctl.seen == |s.issued|)
                  || ((s.ctl.DestroyStop? || s.ctl.DestroyJoin?) && s.ctl.unpaused && t.ctl.seen == s.ctl.seen))
  {
    hide WrapSub;
  }

  lemma OwnerKeepsWaits<T>(s: State<T>)
    requires Waits(s) && Sums(s) && ControlEnabled(s)
    requires s.total == 0 ==> DoneBefore(s, |s.issued|)
    ensures Waits(ControlNext(s)) && Sums(ControlNext(s))
  {
    hide ControlNext, ControlEnabled;
    OwnerLeavesAlone(s);
    OwnerEffect(s);
    assert forall n: nat :: DoneBefore(ControlNext(s), n) <==> DoneBefore(s, n);
  }

  lemma StepKeepsHoldings<T>(s: State<T>, step: Step<T>)
    requires Inv(s) && Enabled(s, step)
    ensures Counter(Next(s, step)) && Conserved(Next(s, step))
  {
    hide Gather, Waits, Sums, Threads, Fifo, Counter, Conserved;
    match step
    case Worker(i) =>
      WorkerKeepsCounter(s, i);
      WorkerKeepsConserved(s, i);
    case BeginPush(c, body) =>
      PushKeepsCounter(s, c, body);
      PushKeepsConserved(s, c, body);
    case BeginWait(c) => CallKeepsInv(s, c, Waiting(ReadPausedFlag));
    case BeginSum(c) => CallKeepsInv(s, c, Summing(s.total, |s.issued|, s.retired));
    case Client(c) =>
      ClientKeepsCounter(s, c);
      ClientKeepsConserved(s, c);
    case Control => OwnerKeepsHoldings(s);
    case _ => SameHoldings(s, Next(s, step));
  }

  lemma ZeroMeansDoneBefore<T>(s: State<T>)
    requires Counter(s) && Conserved(s)
    ensures s.total == 0 ==> DoneBefore(s, |s.issued|)
  {
    if s.total == 0 {
      ZeroMeansAllDone(s);
    }
  }

  lemma FlagKeepsRest<T>(s: State<T>, value: bool)
    requires Fifo(s) && Threads(s) && Waits(s) && Sums(s)
    ensures Fifo(s.(paused := value)) && Threads(s.(paused := value))
    ensures Waits(s.(paused := value)) && Sums(s.(paused := value))
  {
  }

  lemma BeginOwnerKeepsRest<T>(s: State<T>, ctl: ControlPc)
    requires Fifo(s) && Threads(s) && Waits(s) && Sums(s) && s.ctl.Ready?
    requires ctl.ResetPause? || ctl.DestroyWait?
    ensures Fifo(s.(ctl := ctl)) && Threads(s.(ctl := ctl)) && Waits(s.(ctl := ctl)) && Sums(s.(ctl := ctl))
  {
  }

  lemma StepKeepsRest<T>(s: State<T>, step: Step<T>)
    requires Inv(s) && Enabled(s, step)
    ensures Fifo(Next(s, step)) && Threads(Next(s, step)) && Waits(Next(s, step)) && Sums(Next(s, step))
  {
    hide Gather, Waits, Sums, Threads, Fifo, Counter, Conserved, DoneBefore, ControlNext, ClientNext, WorkerNext, PushNext;
    ZeroMeansDoneBefore(s);
    match step
    case Worker(i) =>
      WorkerKeepsFifo(s, i);
      WorkerKeepsThreads(s, i);
      WorkerKeepsWaits(s, i);
    case BeginPush(c, body) => PushKeepsRest(s, c, body);
    case BeginWait(c) => CallKeepsInv(s, c, Waiting(ReadPausedFlag));
    case BeginSum(c) => CallKeepsInv(s, c, Summing(s.total, |s.issued|, s.retired));
    case Client(c) =>
      ClientKeepsRest(s, c);
      ClientKeepsWaits(s, c);
    case Control =>
      OwnerKeepsHoldings(s);
      OwnerKeepsThreads(s);
      OwnerKeepsWaits(s);
    case SetPaused(value) => FlagKeepsRest(s, value);
    case BeginReset(n, hardware) => BeginOwnerKeepsRest(s, ResetPause(EffectiveCount(n, hardware), s.paused));
    case BeginDestroy => BeginOwnerKeepsRest(s, DestroyWait(ReadPausedFlag));
  }

  /** Every step of every thread keeps the invariant. */
  lemma StepKeepsInv<T>(s: State<T>, step: Step<T>)
    requires Inv(s) && Enabled(s, step)
    ensures Inv(Next(s, step))
  {
    hide Gather, Waits, Sums, Threads, Fifo, Counter, Conserved;
    StepKeepsHoldings(s, step);
    StepKeepsRest(s, step);
  }

  lemma {:induction false} RunKeepsInv<T>(s: State<T>, steps: seq<Step<T>>)
    requires Inv(s) && CanRun(s, steps)
    ensures Inv(Run(s, steps))
    decreases |steps|
  {
    if steps != [] {
      StepKeepsInv(s, steps[0]);
      RunKeepsInv(Next(s, steps[0]), steps[1..]);
    }
  }
}
