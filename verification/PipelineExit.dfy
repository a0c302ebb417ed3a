/** A whole life of the program, from its start to the return of `main`. */
module PipelineExit {
  import opened Bags
  import opened Common
  import Pool = ThreadPool
  import opened FrameDecoder
  import opened Pipeline
  import opened PipelineProofs
  import opened PipelineTheorems
  import opened PipelineRuns

  // ---- every task runs to its end -------------------------------------------------------------------------

  /** The first `i` tasks have been executed and counted off. */
  ghost predicate Done(g: Setting, s: State, i: nat) {
    && s.config == g.config && s.main.InService? && !s.outputStop
    && AllAccepted(g, s) && s.dispatcher.CheckMore? && s.shared == [] && s.database.live
    && s.db.running && !s.db.paused && s.db.ctl.Ready? && |s.db.clients| == 1 && Pool.Free(s.db.clients[0])
    && |s.executed| == i && s.db.total + i == DbThreads(g) && |s.db.workers| == |s.jobs| == DbThreads(g)
    && (forall j :: 0 <= j < i ==> s.jobs[j].NoJob?)
    && (forall j :: i <= j < |s.jobs| ==> s.jobs[j].Entered? && s.db.workers[j].Executing?)
  }

  /** A task is given a connection, succeeds and gives it back. */
  lemma Executes(g: Setting, r: State, i: nat) returns (s: State)
    requires Reaches(g, r) && Done(g, r, i) && i < DbThreads(g)
    ensures Reaches(g, s) && s.jobs == r.jobs[i := JobDone] && |s.executed| == i + 1
    ensures s == r.(jobs := s.jobs, executed := s.executed, acquired := s.acquired, returned := s.returned)
  {
    hide Reaches, AllAccepted;
    var a := Take(g, r, Job(i, GivesConnection));
    assert a.jobs == r.jobs[i := Acquiring(r.jobs[i].entry)];
    var b := Take(g, a, Job(i, GivesConnection));
    assert b.jobs[i].Connected?;
    var c := Take(g, b, Job(i, Answer.Executes));
    assert c.jobs[i].Releasing?;
    s := Take(g, c, Job(i, GivesConnection));
  }

  lemma CountsOff(g: Setting, r: State, q: State, i: nat) returns (s: State)
    requires Done(g, q, i) && i < DbThreads(g) && DbThreads(g) < WORD
    requires Reaches(g, r) && r.jobs == q.jobs[i := JobDone] && |r.executed| == i + 1
    requires r == q.(jobs := r.jobs, executed := r.executed, acquired := r.acquired, returned := r.returned)
    ensures Reaches(g, s) && Done(g, s, i + 1)
  {
    hide Reaches;
    var a := Take(g, r, DbThread(i));
    assert a.db.workers[i].Decrementing? && a.db.workers == r.db.workers[i := a.db.workers[i]];
    assert Pool.WrapSub(a.db.total, 1) == a.db.total - 1;
    s := Take(g, a, DbThread(i));
    assert s.db.workers == r.db.workers[i := Pool.ReadRunning];
  }

  lemma {:induction false} AllDone(g: Setting, i: nat) returns (s: State)
    requires Delivers(g) && DbThreads(g) < WORD && i <= DbThreads(g)
    ensures Reaches(g, s) && Done(g, s, i)
    decreases i
  {
    hide Reaches;
    if i == 0 {
      s := AllTaken(g, DbThreads(g));
    } else {
      hide Done;
      var q := AllDone(g, i - 1);
      var r := Executes(g, q, i - 1);
      s := CountsOff(g, r, q, i - 1);
    }
  }

  // ---- main stops the input ------------------------------------------------------------------------------------

  /** The delivering half is at rest, every query executed. */
  ghost predicate OutputIdle(g: Setting, s: State) {
    && s.config == g.config && !s.outputStop && s.dispatcher.Top? && s.shared == [] && s.database.live
    && s.db.running && !s.db.paused && s.db.ctl.Ready? && |s.db.clients| == 1 && Pool.Free(s.db.clients[0])
    && s.db.total == 0 && |s.executed| == |s.pushed| == DbThreads(g)
  }

  lemma ToldToStop(g: Setting) returns (s: State)
    requires Delivers(g) && DbThreads(g) < WORD
    ensures Reaches(g, s) && OutputIdle(g, s) && s.main.JoinInput? && s.serverStop
    ensures s.clients.workers != [] && AllAccepted(g, s.(serverStop := false))
  {
    hide Reaches;
    var q := AllDone(g, DbThreads(g));
    var a := Take(g, q, Dispatch(OPENS));
    var b := Take(g, a, Step.Main);
    s := Take(g, b, Step.Main);
  }

  /** The client pool is being destroyed, its owner waiting, and its workers are at the top of their loop. */
  ghost predicate Closing(g: Setting, s: State) {
    var p := s.clients;
    && OutputIdle(g, s) && s.main.JoinInput? && |p.workers| == p.threadCount && p.total == 0 && !p.paused
    && (forall j :: 0 <= j < |p.workers| ==> p.workers[j].ReadRunning?)
  }

  lemma ConnectionEnds(g: Setting) returns (s: State)
    requires Delivers(g) && DbThreads(g) < WORD
    ensures Reaches(g, s) && Closing(g, s) && s.clients.ctl == Pool.DestroyWait(Pool.ReadPausedFlag)
  {
    hide Reaches, Decoded, Sent;
    var q := ToldToStop(g);
    SentDecodes(g.config, DbThreads(g));
    var a := Take(g, q, Server(None));
    var b := Take(g, a, EndConnection(0));
    var c := Take(g, b, ClientThread(0));
    assert c.clients.workers[0].Decrementing?;
    assert Pool.WrapSub(c.clients.total, 1) == 0;
    s := Take(g, c, ClientThread(0));
  }

  lemma WaitOver(g: Setting) returns (s: State)
    requires Delivers(g) && DbThreads(g) < WORD
    ensures Reaches(g, s) && Closing(g, s) && !s.clients.running && s.clients.ctl.DestroyJoin? && s.clients.ctl.joined == 0
  {
    hide Reaches, OutputIdle;
    var q := ConnectionEnds(g);
    var a := Take(g, q, ClientOwner);
    assert a.clients.ctl == Pool.DestroyWait(Pool.ReadTotal);
    SameOutputIdle(g, q, a);
    var b := Take(g, a, ClientOwner);
    assert b.clients.ctl.DestroyStop?;
    SameOutputIdle(g, a, b);
    s := Take(g, b, ClientOwner);
    SameOutputIdle(g, b, s);
  }

  /** The first `i` workers have left. */
  ghost predicate Leaving(g: Setting, s: State, i: nat) {
    var p := s.clients;
    && OutputIdle(g, s) && s.main.JoinInput? && |p.workers| == p.threadCount && !p.running && p.ctl.DestroyJoin?
    && (forall j :: 0 <= j < |p.workers| ==> if j < i then p.workers[j].Exited? else p.workers[j].ReadRunning?)
  }

  lemma {:induction false} WorkersLeave(g: Setting, r: State, i: nat) returns (s: State)
    requires Reaches(g, r) && Leaving(g, r, i) && i <= |r.clients.workers| && r.clients.ctl.joined == 0
    ensures Reaches(g, s) && Leaving(g, s, |s.clients.workers|) && s.clients.ctl.joined == 0
    decreases |r.clients.workers| - i
  {
    hide Reaches, OutputIdle;
    if i == |r.clients.workers| {
      s := r;
    } else {
      var a := Take(g, r, ClientThread(i));
      assert a.clients.workers == r.clients.workers[i := Pool.Exited];
      SameOutputIdle(g, r, a);
      s := WorkersLeave(g, a, i + 1);
    }
  }

  lemma SameOutputIdle(g: Setting, s: State, t: State)
    requires OutputIdle(g, s) && t == s.(clients := t.clients)
    ensures OutputIdle(g, t)
  {
  }

  lemma {:induction false} Joins(g: Setting, r: State) returns (s: State)
    requires Reaches(g, r) && Leaving(g, r, |r.clients.workers|) && r.clients.ctl.joined <= |r.clients.workers|
    ensures Reaches(g, s) && OutputIdle(g, s) && s.main.JoinInput? && s.clients.ctl.Destroyed?
    decreases |r.clients.workers| - r.clients.ctl.joined
  {
    hide Reaches, OutputIdle;
    var a := Take(g, r, ClientOwner);
    SameOutputIdle(g, r, a);
    if r.clients.ctl.joined == |r.clients.workers| {
      s := a;
    } else {
      s := Joins(g, a);
    }
  }

  // ---- main stops the output -----------------------------------------------------------------------------------------

  lemma DispatcherTold(g: Setting, r: State) returns (s: State)
    requires Reaches(g, r) && OutputIdle(g, r) && r.main.JoinInput? && r.clients.ctl.Destroyed?
    ensures Reaches(g, s) && s.main.JoinOutput? && s.outputStop && OutputIdle(g, s.(outputStop := false))
  {
    hide Reaches;
    var a := Take(g, r, Step.Main);
    s := Take(g, a, Step.Main);
  }

  lemma DispatcherEnds(g: Setting, r: State) returns (s: State)
    requires Reaches(g, r) && r.main.JoinOutput? && r.outputStop && OutputIdle(g, r.(outputStop := false))
    ensures Reaches(g, s) && s.main.JoinOutput? && s.dispatcher.Disconnecting? && |s.db.clients| == 1 && Pool.Free(s.db.clients[0])
    ensures !s.db.ctl.Destroyed? && s.shared == [] && |s.executed| == |s.pushed| == DbThreads(g)
  {
    hide Reaches;
    var a := Take(g, r, Dispatch(OPENS));
    assert a.dispatcher.Draining? && a.db.clients[0] == Pool.Waiting(Pool.ReadPausedFlag);
    var b := Take(g, a, Dispatch(OPENS));
    assert b.dispatcher.Draining? && b.db.clients[0] == Pool.Waiting(Pool.ReadTotal);
    s := Take(g, b, Dispatch(OPENS));
  }

  lemma NothingElseBecameOfThem(g: Setting, s: State)
    requires Reaches(g, s) && s.main == Exited && |s.pushed| == |s.executed|
    ensures multiset(s.executed) == multiset(s.pushed)
  {
    var steps: seq<Step> :| CanRun(Begin(g), steps) && Run(Begin(g), steps) == s;
    hide CanRun, Run, Gather;
    ExitAccountsForEverything(g, steps);
    var rest := Gather(s.dropped, DroppedOf) + multiset(s.logged);
    assert multiset(s.pushed) == multiset(s.executed) + rest;
    assert |multiset(s.executed) + rest| == |multiset(s.executed)| + |rest|;
  }

  /** The program has a whole life: whenever it can deliver at all, some run takes one query more than the
      maximum of connections, executes each of them once, is told to stop, and returns from `main`. */
  lemma WholeLife(g: Setting) returns (s: State)
    requires Delivers(g) && DbThreads(g) < WORD
    ensures Reaches(g, s) && s.main == Exited
    ensures |s.pushed| == g.config.maxConnections + 1 && multiset(s.executed) == multiset(s.pushed)
  {
    hide Reaches, OutputIdle;
    var q := WaitOver(g);
    var r := WorkersLeave(g, q, 0);
    var a := Joins(g, r);
    var told := DispatcherTold(g, a);
    var b := DispatcherEnds(g, told);
    var c := Take(g, b, Dispatch(OPENS));
    var d := Take(g, c, Step.Main);
    s := Take(g, d, Step.Main);
    NothingElseBecameOfThem(g, s);
  }
}
