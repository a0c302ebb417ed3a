/** parallelize_loop of thread_pool.hpp: the splitting arithmetic, and the blocks run under any
    scheduling while the caller waits. */
module ParallelLoop {
  import opened Bags

  /** Indices `from` to `to` of one task, both included. */
  datatype Block = Block(from: int, to: int)

  // ---- the split -------------------------------------------------------------------------------------

  /** Nonempty consecutive blocks that start at `lo` and end at `hi`. */
  ghost predicate Tiles(blocks: seq<Block>, lo: int, hi: int) {
    && blocks != []
    && blocks[0].from == lo && blocks[|blocks| - 1].to == hi
    && (forall t :: 0 <= t < |blocks| ==> blocks[t].from <= blocks[t].to)
    && (forall t :: 0 < t < |blocks| ==> blocks[t].from == blocks[t - 1].to + 1)
  }

  /** The indices of task number `t` of `n`, by the source's arithmetic. */
  function BlockAt(t: nat, n: nat, size: nat, lo: int, hi: int): Block {
    Block(t * size + lo, if t + 1 == n then hi else (t + 1) * size + lo - 1)
  }

  lemma Products(t: nat, n: nat, size: nat)
    requires t < n
    ensures (t + 1) * size == t * size + size <= n * size
    ensures t + 1 < n ==> (t + 2) * size == t * size + size + size <= n * size
  {
    assert n * size == t * size + size + (n - t - 1) * size;
    if t + 1 < n {
      assert n * size == t * size + size + size + (n - t - 2) * size;
    }
  }

  lemma BlockFits(t: nat, n: nat, size: nat, lo: int, hi: int, covered: nat)
    requires t < n && size > 0 && n * size == covered && covered <= hi - lo + 1 < covered + n
    ensures var b := BlockAt(t, n, size, lo, hi);
            && b.from <= b.to <= hi
            && (t + 1 < n ==> b.to - b.from + 1 == size && BlockAt(t + 1, n, size, lo, hi).from == b.to + 1)
            && (t + 1 == n ==> b.to - b.from + 1 < size + n)
  {
    Products(t, n, size);
    var here := t * size;
    assert (t + 1) * size == here + size;
  }

  /** How many tasks, and how many indices in each but the last. */
  function Sizes(total: nat, wanted: nat): (nat, nat)
    requires total > 0 && wanted > 0
  {
    if total < wanted then (total, 1) else (wanted, total / wanted)
  }

  lemma SizesFit(total: nat, wanted: nat)
    requires total > 0 && wanted > 0
    ensures var (n, size) := Sizes(total, wanted);
            n > 0 && size > 0 && n * size <= total < n * size + n
    ensures total / wanted == 0 <==> total < wanted
  {
  }

  /** The task blocks, in the order in which they are pushed.  The source divides by the number of tasks,
      so the pool must have a thread when no number is given. */
  method Split(first: int, last: int, requestedTasks: nat, threadCount: nat) returns (blocks: seq<Block>)
    requires requestedTasks == 0 ==> threadCount > 0
    ensures var lo, hi := if last < first then last else first, if last < first then first else last;
            var wanted := if requestedTasks == 0 then threadCount else requestedTasks;
            var total := hi - lo + 1;
            var size := if total < wanted then 1 else total / wanted;
            && Tiles(blocks, lo, hi)
            && |blocks| == (if total < wanted then total else wanted)
            && (forall t :: 0 <= t < |blocks| - 1 ==> blocks[t].to - blocks[t].from + 1 == size)
            && blocks[|blocks| - 1].to - blocks[|blocks| - 1].from + 1 < size + |blocks|
  {
    var numTasks := if requestedTasks == 0 then threadCount else requestedTasks;
    var lo, hi := first, last;
    if hi < lo {
      lo, hi := hi, lo;
    }
    var totalSize := hi - lo + 1;
    var blockSize := totalSize / numTasks;
    ghost var sizes := Sizes(totalSize, numTasks);
    assert blockSize == 0 <==> totalSize < numTasks by {
      SizesFit(totalSize, numTasks);
    }
    assert sizes.0 > 0 && sizes.1 > 0 && sizes.0 * sizes.1 <= totalSize < sizes.0 * sizes.1 + sizes.0 by {
      SizesFit(totalSize, numTasks);
    }
    if blockSize == 0 {
      blockSize := 1;
      numTasks := if totalSize > 1 then totalSize else 1;
    }
    assert (numTasks, blockSize) == sizes;
    blocks := [];
    var t := 0;
    while t < numTasks
      invariant 0 <= t <= numTasks && |blocks| == t
      invariant forall k :: 0 <= k < t ==> blocks[k] == BlockAt(k, numTasks, blockSize, lo, hi)
    {
      var start := t * blockSize + lo;
      var end := if t == numTasks - 1 then hi else (t + 1) * blockSize + lo - 1;
      blocks := blocks + [Block(start, end)];
      t := t + 1;
    }
    BlocksTile(blocks, numTasks, blockSize, lo, hi);
  }

  lemma BlocksTile(blocks: seq<Block>, n: nat, size: nat, lo: int, hi: int)
    requires n > 0 && size > 0 && n * size <= hi - lo + 1 < n * size + n
    requires |blocks| == n && forall k :: 0 <= k < n ==> blocks[k] == BlockAt(k, n, size, lo, hi)
    ensures Tiles(blocks, lo, hi)
    ensures forall t :: 0 <= t < n - 1 ==> blocks[t].to - blocks[t].from + 1 == size
    ensures blocks[n - 1].to - blocks[n - 1].from + 1 < size + n
  {
    assert blocks[0].from == lo && blocks[n - 1].to == hi;
    hide BlockAt;
    forall t | 0 <= t < n
      ensures blocks[t].from <= blocks[t].to
      ensures t + 1 < n ==> blocks[t].to - blocks[t].from + 1 == size && blocks[t + 1].from == blocks[t].to + 1
      ensures t + 1 == n ==> blocks[t].to - blocks[t].from + 1 < size + n
    {
      BlockFits(t, n, size, lo, hi, n * size);
    }
    forall t | 0 < t < n
      ensures blocks[t].from == blocks[t - 1].to + 1
    {
      BlockFits(t - 1, n, size, lo, hi, n * size);
    }
  }

  // ---- every index once ---------------------------------------------------------------------------------

  /** The integers from `a` up to but not including `b`, once each. */
  ghost function Range(a: int, b: int): (r: multiset<int>)
    ensures forall i :: r[i] == if a <= i < b then 1 else 0
    decreases b - a
  {
    if b <= a then multiset{} else Range(a, b - 1) + multiset{b - 1}
  }

  lemma RangeJoin(a: int, b: int, c: int)
    requires a <= b <= c
    ensures Range(a, b) + Range(b, c) == Range(a, c)
  {
  }

  ghost function IndicesOf(b: Block): multiset<int> {
    Range(b.from, b.to + 1)
  }

  /** Consecutive blocks cover their range with every index exactly once. */
  lemma {:induction false} TilesCoverOnce(blocks: seq<Block>, lo: int, hi: int)
    requires Tiles(blocks, lo, hi)
    ensures Gather(blocks, IndicesOf) == Range(lo, hi + 1)
  {
    var n := |blocks|;
    var init := blocks[..n - 1];
    if n == 1 {
      assert init == [];
    } else {
      TilesCoverOnce(init, lo, blocks[n - 2].to);
      TilesAscend(blocks, lo, hi, n - 1);
      RangeJoin(lo, blocks[n - 1].from, hi + 1);
    }
  }

  lemma {:induction false} TilesAscend(blocks: seq<Block>, lo: int, hi: int, t: nat)
    requires Tiles(blocks, lo, hi) && t < |blocks|
    ensures lo <= blocks[t].from
  {
    if t > 0 {
      TilesAscend(blocks, lo, hi, t - 1);
    }
  }

  // ---- running the blocks --------------------------------------------------------------------------------

  /** A pushed task: `next` is its loop variable, `done` is set by its decrement of blocks_running. */
  datatype Job = Job(block: Block, next: int, done: bool)

  /** `counted` says that the caller stands between the increment and the push of the next block;
      `calls` is the history of loop body calls. */
  datatype State = State(
    blocks: seq<Block>, jobs: seq<Job>, counted: bool, blocksRunning: nat, calls: seq<int>, returned: bool)

  datatype Step = Count | Push | Work(k: nat) | Check

  function Init(blocks: seq<Block>): State {
    State(blocks, [], false, 0, [], false)
  }

  predicate Enabled(s: State, step: Step) {
    match step
    case Count => !s.counted && |s.jobs| < |s.blocks|
    case Push => s.counted && |s.jobs| < |s.blocks|
    case Work(k) => k < |s.jobs| && !s.jobs[k].done
    case Check => !s.counted && |s.jobs| == |s.blocks| && !s.returned
  }

  /** `Work` is one turn of a task's loop, or its final decrement; which worker makes it, and when, is
      left open. */
  function Next(s: State, step: Step): State
    requires Enabled(s, step)
  {
    match step
    case Count => s.(counted := true, blocksRunning := s.blocksRunning + 1)
    case Push =>
      var b := s.blocks[|s.jobs|];
      s.(counted := false, jobs := s.jobs + [Job(b, b.from, false)])
    case Work(k) =>
      var job := s.jobs[k];
      if job.next <= job.block.to then
        s.(jobs := s.jobs[k := job.(next := job.next + 1)], calls := s.calls + [job.next])
      else
        s.(jobs := s.jobs[k := job.(done := true)],
           blocksRunning := if s.blocksRunning > 0 then s.blocksRunning - 1 else 0)
    case Check => s.(returned := s.blocksRunning == 0)
  }

  predicate CanRun(s: State, steps: seq<Step>)
    decreases |steps|
  {
    steps != [] ==> Enabled(s, steps[0]) && CanRun(Next(s, steps[0]), steps[1..])
  }

  function Run(s: State, steps: seq<Step>): State
    requires CanRun(s, steps)
    decreases |steps|
  {
    if steps == [] then s else Run(Next(s, steps[0]), steps[1..])
  }

  ghost function CalledOf(j: Job): multiset<int> {
    Range(j.block.from, j.next)
  }

  ghost function OpenOf(j: Job): multiset<()> {
    if j.done then multiset{} else multiset{()}
  }

  ghost predicate Inv(s: State) {
    && |s.jobs| <= |s.blocks|
    && (s.counted ==> |s.jobs| < |s.blocks|)
    && s.blocksRunning == |Gather(s.jobs, OpenOf)| + (if s.counted then 1 else 0)
    && multiset(s.calls) == Gather(s.jobs, CalledOf)
    && (forall k :: 0 <= k < |s.jobs| ==>
          && s.jobs[k].block == s.blocks[k]
          && s.jobs[k].block.from <= s.jobs[k].next <= s.jobs[k].block.to + 1
          && (s.jobs[k].done ==> s.jobs[k].next == s.jobs[k].block.to + 1))
    && (forall k :: 0 <= k < |s.blocks| ==> s.blocks[k].from <= s.blocks[k].to)
    && (s.returned ==> |s.jobs| == |s.blocks| && forall k :: 0 <= k < |s.jobs| ==> s.jobs[k].done)
  }

  lemma WorkKeepsCalls(s: State, k: nat)
    requires Inv(s) && Enabled(s, Work(k))
    ensures multiset(Next(s, Work(k)).calls) == Gather(Next(s, Work(k)).jobs, CalledOf)
  {
    hide Gather;
    var t := Next(s, Work(k));
    var rest := GatherUpdate(s.jobs, k, t.jobs[k], CalledOf);
    if s.jobs[k].next <= s.jobs[k].block.to {
      MultisetAppend(s.calls, s.jobs[k].next);
      assert CalledOf(t.jobs[k]) == CalledOf(s.jobs[k]) + multiset{s.jobs[k].next};
    }
  }

  lemma WorkKeepsCount(s: State, k: nat)
    requires Inv(s) && Enabled(s, Work(k))
    ensures var t := Next(s, Work(k));
            t.blocksRunning == |Gather(t.jobs, OpenOf)| + (if t.counted then 1 else 0)
  {
    hide Gather, Range;
    GatherUpdateSize(s.jobs, k, Next(s, Work(k)).jobs[k], OpenOf);
  }

  lemma StepKeepsInv(s: State, step: Step)
    requires Inv(s) && Enabled(s, step)
    ensures Inv(Next(s, step))
  {
    hide Gather, Range;
    match step
    case Count =>
    case Push =>
      var b := s.blocks[|s.jobs|];
      PushNeeds(s, b);
    case Work(k) =>
      WorkKeepsCalls(s, k);
      WorkKeepsCount(s, k);
    case Check =>
      if s.blocksRunning == 0 {
        GatherEmptyMeansNone(s.jobs, OpenOf);
        assert forall k :: 0 <= k < |s.jobs| ==> OpenOf(s.jobs[k]) == multiset{};
      }
  }

  lemma PushNeeds(s: State, b: Block)
    ensures Gather(s.jobs + [Job(b, b.from, false)], CalledOf) == Gather(s.jobs, CalledOf)
    ensures |Gather(s.jobs + [Job(b, b.from, false)], OpenOf)| == |Gather(s.jobs, OpenOf)| + 1
  {
    hide Gather;
    GatherAppend(s.jobs, Job(b, b.from, false), CalledOf);
    GatherAppend(s.jobs, Job(b, b.from, false), OpenOf);
  }

  lemma StepKeepsBlocks(s: State, step: Step)
    requires Enabled(s, step)
    ensures Next(s, step).blocks == s.blocks
  {
  }

  lemma {:induction false} RunKeepsInv(s: State, steps: seq<Step>)
    requires Inv(s) && CanRun(s, steps)
    ensures Inv(Run(s, steps)) && Run(s, steps).blocks == s.blocks
    decreases |steps|
  {
    if steps != [] {
      hide Inv, Next, Enabled;
      StepKeepsInv(s, steps[0]);
      StepKeepsBlocks(s, steps[0]);
      RunKeepsInv(Next(s, steps[0]), steps[1..]);
    }
  }

  /** If every block has been run through, the calls are the indices of the blocks. */
  lemma {:induction false} FinishedJobs(jobs: seq<Job>, blocks: seq<Block>)
    requires |jobs| == |blocks|
    requires forall k :: 0 <= k < |jobs| ==> jobs[k].block == blocks[k] && jobs[k].next == blocks[k].to + 1
    ensures Gather(jobs, CalledOf) == Gather(blocks, IndicesOf)
  {
    if jobs != [] {
      FinishedJobs(jobs[..|jobs| - 1], blocks[..|blocks| - 1]);
    }
  }

  /** Under every scheduling of the tasks, when the caller of parallelize_loop returns the body has been
      called exactly once for each index of the range and for no other, and blocks_running never wrapped. */
  lemma ReturnMeansEveryIndexOnce(blocks: seq<Block>, lo: int, hi: int, steps: seq<Step>, i: int)
    requires Tiles(blocks, lo, hi) && CanRun(Init(blocks), steps)
    requires Run(Init(blocks), steps).returned
    ensures multiset(Run(Init(blocks), steps).calls)[i] == if lo <= i <= hi then 1 else 0
  {
    RunKeepsInv(Init(blocks), steps);
    var s := Run(Init(blocks), steps);
    FinishedJobs(s.jobs, s.blocks);
    TilesCoverOnce(blocks, lo, hi);
  }

  /** The decrement of a finished block never wraps: its own increment came before its push. */
  lemma BlockCountNeverWraps(blocks: seq<Block>, lo: int, hi: int, steps: seq<Step>, k: nat)
    requires Tiles(blocks, lo, hi) && CanRun(Init(blocks), steps) && Enabled(Run(Init(blocks), steps), Work(k))
    ensures Run(Init(blocks), steps).blocksRunning >= 1
  {
    RunKeepsInv(Init(blocks), steps);
    var s := Run(Init(blocks), steps);
    GatherUpdateSize(s.jobs, k, s.jobs[k], OpenOf);
  }

  /** No index is called twice, and none outside the range, at any moment of any run. */
  lemma NeverCalledTwice(blocks: seq<Block>, lo: int, hi: int, steps: seq<Step>, i: int)
    requires Tiles(blocks, lo, hi) && CanRun(Init(blocks), steps)
    ensures multiset(Run(Init(blocks), steps).calls)[i] <= if lo <= i <= hi then 1 else 0
  {
    RunKeepsInv(Init(blocks), steps);
    var s := Run(Init(blocks), steps);
    hide Gather;
    PartOfBlocks(s.jobs, s.blocks);
    TilesCoverOnce(blocks, lo, hi);
  }

  lemma {:induction false} PartOfBlocks(jobs: seq<Job>, blocks: seq<Block>)
    requires |jobs| <= |blocks|
    requires forall k :: 0 <= k < |jobs| ==> jobs[k].block == blocks[k] && jobs[k].next <= blocks[k].to + 1
    ensures Gather(jobs, CalledOf) <= Gather(blocks, IndicesOf)
    decreases |blocks|
  {
    if |jobs| < |blocks| {
      PartOfBlocks(jobs, blocks[..|blocks| - 1]);
    } else if blocks != [] {
      PartOfBlocks(jobs[..|jobs| - 1], blocks[..|blocks| - 1]);
      assert CalledOf(jobs[|jobs| - 1]) <= IndicesOf(blocks[|blocks| - 1]);
    }
  }
}
