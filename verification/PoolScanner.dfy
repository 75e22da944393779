/** The resumable pool scanners for V2 and V3 factories.  A run resumes after the
    block of the last recorded pool and may stop between windows; consecutive
    windows share one block, since a window ends at i + BLOCK_SPAN inclusive and
    the next one starts there. */
module PoolScanner {
  import opened Seqs
  import opened StableSort
  import opened Pools

  const BLOCK_SPAN := 10_000

  function InBlocks(from: int, to: int): Pool -> bool {
    (p: Pool) => from <= p.block <= to
  }

  function WindowEnd(i: int, current: int): int {
    if i + BLOCK_SPAN > current then current else i + BLOCK_SPAN
  }

  /** What at most n windows from block i on append. */
  function Windows(chain: seq<Pool>, i: int, current: int, n: nat): seq<Pool>
    decreases n
  {
    if n == 0 || i > current then []
    else Filter(InBlocks(i, WindowEnd(i, current)), chain) + Windows(chain, i + BLOCK_SPAN, current, n - 1)
  }

  function PreviousBlock(records: seq<Pool>, deployment: int): int {
    if records != [] then records[|records| - 1].block else deployment
  }

  /** The data file after a run that stops after n windows. */
  function AfterRun(saved: seq<Pool>, chain: seq<Pool>, deployment: int, current: int, n: nat): seq<Pool> {
    saved + Windows(chain, PreviousBlock(saved, deployment) + 1, current, n)
  }

  class Scanner {
    /** The contents of the data file. */
    var file: seq<Pool>

    constructor ()
      ensures file == []
    {
      file := [];
    }

    /** One run of `main` for one factory; the stop signal is seen before window
        number stopAfter. */
    method Run(chain: seq<Pool>, deployment: int, current: int, stopAfter: nat)
      modifies this
      ensures file == AfterRun(old(file), chain, deployment, current, stopAfter)
    {
      var lpData := file;
      var previousBlock := if lpData != [] then lpData[|lpData| - 1].block else deployment;
      var i := previousBlock + 1;
      var completed := 0;
      while i < current + 1
        invariant 0 <= completed <= stopAfter
        invariant file == lpData
        invariant lpData + Windows(chain, i, current, stopAfter - completed) ==
                  AfterRun(old(file), chain, deployment, current, stopAfter)
      {
        if completed == stopAfter {
          break;
        }
        var endBlock := if i + BLOCK_SPAN > current then current else i + BLOCK_SPAN;
        var events := Filter(InBlocks(i, endBlock), chain);
        assert lpData + (events + Windows(chain, i + BLOCK_SPAN, current, stopAfter - completed - 1)) ==
               (lpData + events) + Windows(chain, i + BLOCK_SPAN, current, stopAfter - completed - 1);
        lpData := lpData + events;
        file := lpData;
        completed := completed + 1;
        i := i + BLOCK_SPAN;
      }
      file := lpData;
    }
  }

  // ----- what the file holds after any sequence of runs

  /** Pool creations in chain order; a pool is created once. */
  ghost predicate ChainOk(chain: seq<Pool>) {
    Distinct(chain) && Ascending(chain)
  }

  ghost predicate Ascending(s: seq<Pool>) {
    forall i, j :: 0 <= i < j < |s| ==> s[i].block <= s[j].block
  }

  function Times(covered: bool, shared: bool): nat {
    if !covered then 0 else if shared then 2 else 1
  }

  /** The records are exactly the pools created after the deployment block and up to
      reached, in block order, each once, or twice if its block is a shared one. */
  ghost predicate Complete(records: seq<Pool>, chain: seq<Pool>, deployment: int, reached: int, shared: set<int>) {
    && (forall p :: p in records ==> p in chain)
    && Counted(records, chain, deployment, reached, shared)
    && Ascending(records)
    && (forall b :: b in shared ==> b <= reached)
  }

  ghost predicate Counted(records: seq<Pool>, chain: seq<Pool>, deployment: int, reached: int, shared: set<int>) {
    forall p :: p in chain ==> multiset(records)[p] == Times(deployment < p.block <= reached, p.block in shared)
  }

  /** Block i can be the next window's first: of the blocks from i on only i itself
      may already be recorded, and then once, as the end of the previous window. */
  ghost predicate Resumable(records: seq<Pool>, chain: seq<Pool>, deployment: int, reached: int, shared: set<int>,
                            i: int, first: bool) {
    && (!first ==> i <= reached)
    && deployment < i
    && (forall p :: p in chain && i <= p.block <= reached ==> !first && p.block == i && i !in shared)
    && (forall p :: p in chain && deployment < p.block < i ==> p.block <= reached)
    && (forall p :: p in records ==> p.block <= i)
  }

  function Further(reached: int, end: int): int {
    if reached < end then end else reached
  }

  /** The first block of a window is shared unless the window is the run's first. */
  function Marked(shared: set<int>, i: int, first: bool): set<int> {
    if first then shared else shared + {i}
  }

  lemma OneWindow(records: seq<Pool>, chain: seq<Pool>, deployment: int, reached: int, shared: set<int>, i: int,
                  end: int, first: bool)
    requires ChainOk(chain) && Complete(records, chain, deployment, reached, shared)
    requires Resumable(records, chain, deployment, reached, shared, i, first) && i <= end
    ensures Complete(records + Filter(InBlocks(i, end), chain), chain, deployment,
                     Further(reached, end), Marked(shared, i, first))
  {
    FoundAscend(chain, i, end);
    AscendingJoin(records, Filter(InBlocks(i, end), chain), i);
    OneWindowCounts(records, chain, deployment, reached, shared, i, end, first);
  }

  lemma OneWindowCounts(records: seq<Pool>, chain: seq<Pool>, deployment: int, reached: int, shared: set<int>, i: int,
                        end: int, first: bool)
    requires Distinct(chain) && Counted(records, chain, deployment, reached, shared)
    requires forall b :: b in shared ==> b <= reached
    requires Resumable(records, chain, deployment, reached, shared, i, first) && i <= end
    ensures Counted(records + Filter(InBlocks(i, end), chain), chain, deployment,
                    Further(reached, end), Marked(shared, i, first))
  {
    forall p | p in chain
      ensures multiset(records + Filter(InBlocks(i, end), chain))[p] ==
              Times(deployment < p.block <= Further(reached, end), p.block in Marked(shared, i, first))
    {
      CountInWindow(records, chain, i, end, p);
      CountStep(records, chain, deployment, reached, shared, i, end, first, p);
    }
  }

  lemma CountStep(records: seq<Pool>, chain: seq<Pool>, deployment: int, reached: int, shared: set<int>, i: int,
                  end: int, first: bool, p: Pool)
    requires p in chain && i <= end && Resumable(records, chain, deployment, reached, shared, i, first)
    requires forall b :: b in shared ==> b <= reached
    ensures Times(deployment < p.block <= reached, p.block in shared) + (if i <= p.block <= end then 1 else 0) ==
            Times(deployment < p.block <= Further(reached, end), p.block in Marked(shared, i, first))
  {
  }

  lemma CountInWindow(records: seq<Pool>, chain: seq<Pool>, i: int, end: int, p: Pool)
    requires Distinct(chain) && p in chain
    ensures multiset(records + Filter(InBlocks(i, end), chain))[p] ==
            multiset(records)[p] + if i <= p.block <= end then 1 else 0
  {
    FilterCount(InBlocks(i, end), chain, p);
    DistinctOnce(chain, p);
  }

  lemma AscendingJoin(a: seq<Pool>, b: seq<Pool>, cut: int)
    requires Ascending(a) && Ascending(b)
    requires (forall p :: p in a ==> p.block <= cut) && (forall p :: p in b ==> cut <= p.block)
    ensures Ascending(a + b)
  {
    var all := a + b;
    forall k, l | 0 <= k < l < |all| ensures all[k].block <= all[l].block {
      if k < |a| <= l {
        assert all[k] in a && all[l] in b;
      }
    }
  }

  lemma {:induction false} FoundAscend(chain: seq<Pool>, from: int, to: int)
    requires Ascending(chain)
    ensures Ascending(Filter(InBlocks(from, to), chain))
  {
    if chain == [] {
    } else {
      FoundAscend(chain[1..], from, to);
      var f := Filter(InBlocks(from, to), chain[1..]);
      forall j | 0 <= j < |f| ensures chain[0].block <= f[j].block {
        assert f[j] in f;
        var k :| 0 < k < |chain| && chain[k] == f[j];
      }
    }
  }

  lemma NextResumable(records: seq<Pool>, chain: seq<Pool>, deployment: int, reached: int, shared: set<int>, i: int,
                      end: int, first: bool)
    requires Complete(records, chain, deployment, reached, shared)
    requires Resumable(records, chain, deployment, reached, shared, i, first) && end == i + BLOCK_SPAN
    ensures Resumable(records + Filter(InBlocks(i, end), chain), chain, deployment,
                      Further(reached, end), Marked(shared, i, first), end, false)
  {
  }

  lemma FirstWindow(records: seq<Pool>, chain: seq<Pool>, i: int, current: int, n: nat, end: int)
    requires n > 0 && i <= current && end == WindowEnd(i, current)
    ensures var after := records + Filter(InBlocks(i, end), chain);
            && (end == i + BLOCK_SPAN ==>
                  records + Windows(chain, i, current, n) == after + Windows(chain, end, current, n - 1))
            && (end != i + BLOCK_SPAN ==> records + Windows(chain, i, current, n) == after)
  {
    var found := Filter(InBlocks(i, end), chain);
    var rest := Windows(chain, i + BLOCK_SPAN, current, n - 1);
    assert Windows(chain, i, current, n) == found + rest;
    assert records + (found + rest) == (records + found) + rest;
    if end != i + BLOCK_SPAN {
      assert rest == [];
      assert (records + found) + [] == records + found;
    }
  }

  lemma NoWindow(records: seq<Pool>, chain: seq<Pool>, deployment: int, reached: int, shared: set<int>, i: int,
                 current: int, n: nat)
    requires Complete(records, chain, deployment, reached, shared) && (n == 0 || i > current)
    ensures Complete(records + Windows(chain, i, current, n), chain, deployment, reached, shared)
  {
    assert records + [] == records;
  }

  lemma LaterWindows(records: seq<Pool>, chain: seq<Pool>, deployment: int, reached: int, shared: set<int>, i: int,
                     current: int, n: nat, end: int)
    requires n > 0 && i <= current && end == WindowEnd(i, current) == i + BLOCK_SPAN
    requires Complete((records + Filter(InBlocks(i, end), chain)) + Windows(chain, end, current, n - 1),
                      chain, deployment,
                      reached, shared)
    ensures Complete(records + Windows(chain, i, current, n), chain, deployment, reached, shared)
  {
    FirstWindow(records, chain, i, current, n, end);
  }

  lemma LastWindow(records: seq<Pool>, chain: seq<Pool>, deployment: int, reached: int, shared: set<int>, i: int,
                   current: int, n: nat, end: int)
    requires n > 0 && i <= current && end == WindowEnd(i, current) != i + BLOCK_SPAN
    requires Complete(records + Filter(InBlocks(i, end), chain), chain, deployment, reached, shared)
    ensures Complete(records + Windows(chain, i, current, n), chain, deployment, reached, shared)
  {
    FirstWindow(records, chain, i, current, n, end);
  }

  /** The block reached after at most n windows from block i on. */
  function ReachedAfter(reached: int, i: int, current: int, n: nat): int
    decreases n
  {
    if n == 0 || i > current then reached
    else ReachedAfter(Further(reached, WindowEnd(i, current)), i + BLOCK_SPAN, current, n - 1)
  }

  /** The blocks that two windows have in common after them. */
  function SharedAfter(shared: set<int>, i: int, current: int, n: nat, first: bool): set<int>
    decreases n
  {
    if n == 0 || i > current then shared
    else SharedAfter(Marked(shared, i, first), i + BLOCK_SPAN, current, n - 1, false)
  }

  /** The last completed window decides: it ends n windows on, or at the current block. */
  lemma {:induction false} ReachedIs(reached: int, i: int, current: int, n: nat)
    ensures ReachedAfter(reached, i, current, n) ==
            if n == 0 || i > current then reached
            else if i + n * BLOCK_SPAN > current then Further(reached, current)
            else Further(reached, i + n * BLOCK_SPAN)
    decreases n
  {
    if n == 0 || i > current {
    } else {
      ReachedIs(Further(reached, WindowEnd(i, current)), i + BLOCK_SPAN, current, n - 1);
    }
  }

  /** b is the first block of window number k of n, counted from 0 and not beyond the
      current block. */
  predicate StartsWindow(b: int, i: int, current: int, n: nat, k: nat) {
    k < n && b == i + k * BLOCK_SPAN <= current
  }

  /** b starts a window other than the run's first, so the window before ends with it. */
  ghost predicate Interior(b: int, i: int, current: int, n: nat) {
    exists k :: 0 < k && StartsWindow(b, i, current, n, k)
  }

  lemma {:induction false} SharedIs(shared: set<int>, i: int, current: int, n: nat, first: bool, b: int)
    ensures b in SharedAfter(shared, i, current, n, first) <==>
            b in shared || (!first && n > 0 && b == i <= current) || Interior(b, i, current, n)
    decreases n
  {
    if n == 0 || i > current {
    } else {
      SharedIs(Marked(shared, i, first), i + BLOCK_SPAN, current, n - 1, false, b);
      InteriorStep(b, i, i + BLOCK_SPAN, current, n, n - 1);
    }
  }

  lemma InteriorStep(b: int, i: int, next: int, current: int, n: nat, m: nat)
    requires n == m + 1 && next == i + BLOCK_SPAN
    ensures Interior(b, i, current, n) <==> (m > 0 && b == next <= current) || Interior(b, next, current, m)
  {
    if k :| 0 < k && StartsWindow(b, i, current, n, k) {
      if k > 1 {
        assert StartsWindow(b, next, current, m, k - 1);
      }
    }
    if k :| 0 < k && StartsWindow(b, next, current, m, k) {
      assert StartsWindow(b, i, current, n, k + 1);
    }
    if m > 0 && b == next <= current {
      assert StartsWindow(b, i, current, n, 1);
    }
  }

  lemma UnfoldAfter(reached: int, shared: set<int>, i: int, current: int, n: nat, first: bool, end: int)
    requires n > 0 && i <= current && end == WindowEnd(i, current)
    ensures ReachedAfter(reached, i, current, n) ==
            if end == i + BLOCK_SPAN then ReachedAfter(Further(reached, end), end, current, n - 1)
            else Further(reached, end)
    ensures SharedAfter(shared, i, current, n, first) ==
            if end == i + BLOCK_SPAN then SharedAfter(Marked(shared, i, first), end, current, n - 1, false)
            else Marked(shared, i, first)
  {
  }

  lemma FullWindow(records: seq<Pool>, chain: seq<Pool>, deployment: int, reached: int, shared: set<int>, i: int,
                   end: int, first: bool)
    requires ChainOk(chain) && Complete(records, chain, deployment, reached, shared)
    requires Resumable(records, chain, deployment, reached, shared, i, first) && end == i + BLOCK_SPAN
    ensures var after := records + Filter(InBlocks(i, end), chain);
            && Complete(after, chain, deployment, Further(reached, end), Marked(shared, i, first))
            && Resumable(after, chain, deployment, Further(reached, end), Marked(shared, i, first), end, false)
  {
    OneWindow(records, chain, deployment, reached, shared, i, end, first);
    NextResumable(records, chain, deployment, reached, shared, i, end, first);
  }

  lemma WindowAndRest(records: seq<Pool>, chain: seq<Pool>, deployment: int, reached: int, shared: set<int>,
                      i: int, first: bool, current: int, n: nat, end: int)
    requires n > 0 && i <= current && end == WindowEnd(i, current) == i + BLOCK_SPAN
    requires Complete((records + Filter(InBlocks(i, end), chain)) + Windows(chain, end, current, n - 1),
                      chain, deployment,
                      ReachedAfter(Further(reached, end), end, current, n - 1),
                      SharedAfter(Marked(shared, i, first), end, current, n - 1, false))
    ensures Complete(records + Windows(chain, i, current, n), chain, deployment,
                     ReachedAfter(reached, i, current, n), SharedAfter(shared, i, current, n, first))
  {
    UnfoldAfter(reached, shared, i, current, n, first, end);
    LaterWindows(records, chain, deployment, ReachedAfter(reached, i, current, n),
                 SharedAfter(shared, i, current, n, first),
                 i, current, n, end);
  }

  lemma OnlyWindow(records: seq<Pool>, chain: seq<Pool>, deployment: int, reached: int, shared: set<int>,
                   i: int, first: bool, current: int, n: nat, end: int)
    requires ChainOk(chain) && Complete(records, chain, deployment, reached, shared)
    requires Resumable(records, chain, deployment, reached, shared, i, first)
    requires n > 0 && i <= current && end == WindowEnd(i, current) != i + BLOCK_SPAN
    ensures Complete(records + Windows(chain, i, current, n), chain, deployment,
                     ReachedAfter(reached, i, current, n), SharedAfter(shared, i, current, n, first))
  {
    UnfoldAfter(reached, shared, i, current, n, first, end);
    OneWindow(records, chain, deployment, reached, shared, i, end, first);
    LastWindow(records, chain, deployment, Further(reached, end), Marked(shared, i, first), i, current, n, end);
  }

  /** Windows from i on, up to the stop or the current block: the records stay exact,
      for the block reached and the blocks shared. */
  lemma {:induction false} WindowsComplete(records: seq<Pool>, chain: seq<Pool>, deployment: int, reached: int,
                                           shared: set<int>,
                                           i: int, first: bool, current: int, n: nat)
    requires ChainOk(chain) && Complete(records, chain, deployment, reached, shared)
    requires Resumable(records, chain, deployment, reached, shared, i, first)
    ensures Complete(records + Windows(chain, i, current, n), chain, deployment,
                     ReachedAfter(reached, i, current, n), SharedAfter(shared, i, current, n, first))
    decreases n
  {
    if n == 0 || i > current {
      NoWindow(records, chain, deployment, reached, shared, i, current, n);
    } else {
      var end := WindowEnd(i, current);
      if end == i + BLOCK_SPAN {
        FullWindow(records, chain, deployment, reached, shared, i, end, first);
        WindowsComplete(records + Filter(InBlocks(i, end), chain), chain, deployment,
                        Further(reached, end), Marked(shared, i, first), end, false, current, n - 1);
        WindowAndRest(records, chain, deployment, reached, shared, i, first, current, n, end);
      } else {
        OnlyWindow(records, chain, deployment, reached, shared, i, first, current, n, end);
      }
    }
  }

  /** The first block of a run's first window. */
  function StartOf(records: seq<Pool>, deployment: int): int {
    PreviousBlock(records, deployment) + 1
  }

  /** One run keeps the file exact. */
  lemma RunKeepsComplete(records: seq<Pool>, chain: seq<Pool>, deployment: int, reached: int, shared: set<int>,
                         current: int, n: nat)
    requires ChainOk(chain) && Complete(records, chain, deployment, reached, shared) && deployment <= reached
    ensures var start := StartOf(records, deployment);
            Complete(AfterRun(records, chain, deployment, current, n), chain, deployment,
                     ReachedAfter(reached, start, current, n), SharedAfter(shared, start, current, n, true))
  {
    StartResumable(records, chain, deployment, reached, shared);
    WindowsComplete(records, chain, deployment, reached, shared, StartOf(records, deployment), true, current, n);
  }

  lemma StartResumable(records: seq<Pool>, chain: seq<Pool>, deployment: int, reached: int, shared: set<int>)
    requires Complete(records, chain, deployment, reached, shared) && deployment <= reached
    ensures Resumable(records, chain, deployment, reached, shared, PreviousBlock(records, deployment) + 1, true)
  {
    var start := PreviousBlock(records, deployment) + 1;
    var n := |records| - 1;
    if records != [] {
      assert records[n] in records;
      assert multiset(records)[records[n]] > 0;
    }
    forall p | p in records ensures p.block < start {
      var k :| 0 <= k < |records| && records[k] == p;
      if k < n { assert records[k].block <= records[n].block; }
    }
    forall p | p in chain && deployment < p.block <= reached ensures p.block < start {
      Recorded(records, chain, deployment, reached, shared, p);
    }
  }

  lemma Recorded(records: seq<Pool>, chain: seq<Pool>, deployment: int, reached: int, shared: set<int>, p: Pool)
    requires Complete(records, chain, deployment, reached, shared) && p in chain && deployment < p.block <= reached
    ensures p in records
  {
    assert multiset(records)[p] > 0;
  }

  /** A run as the chain's height at its start and the window count after which it
      stops. */
  datatype RunPlan = RunPlan(current: int, stopAfter: nat)

  function AfterRuns(file: seq<Pool>, chain: seq<Pool>, deployment: int, runs: seq<RunPlan>): seq<Pool>
    decreases |runs|
  {
    if runs == [] then file
    else
      var n := |runs| - 1;
      AfterRun(AfterRuns(file, chain, deployment, runs[..n]), chain, deployment, runs[n].current, runs[n].stopAfter)
  }

  /** The end of the last window that the run completes, or reached if that is later. */
  function RunReach(reached: int, start: int, run: RunPlan): int {
    if run.stopAfter == 0 || start > run.current then reached
    else if start + run.stopAfter * BLOCK_SPAN > run.current then Further(reached, run.current)
    else Further(reached, start + run.stopAfter * BLOCK_SPAN)
  }

  /** The furthest end of a completed window of any of the runs. */
  function RunsReach(chain: seq<Pool>, deployment: int, runs: seq<RunPlan>): int
    decreases |runs|
  {
    if runs == [] then deployment
    else
      var n := |runs| - 1;
      RunReach(RunsReach(chain, deployment, runs[..n]),
               StartOf(AfterRuns([], chain, deployment, runs[..n]), deployment), runs[n])
  }

  /** Block b is an interior window boundary of run number r. */
  ghost predicate InteriorOf(chain: seq<Pool>, deployment: int, runs: seq<RunPlan>, r: nat, b: int)
    requires r < |runs|
  {
    Interior(b, StartOf(AfterRuns([], chain, deployment, runs[..r]), deployment), runs[r].current, runs[r].stopAfter)
  }

  ghost predicate InteriorOfSome(chain: seq<Pool>, deployment: int, runs: seq<RunPlan>, b: int) {
    exists r: nat :: r < |runs| && InteriorOf(chain, deployment, runs, r, b)
  }

  lemma InteriorOfMore(chain: seq<Pool>, deployment: int, runs: seq<RunPlan>, b: int)
    requires runs != []
    ensures var n := |runs| - 1;
            InteriorOfSome(chain, deployment, runs, b) <==>
            InteriorOfSome(chain, deployment, runs[..n], b) || InteriorOf(chain, deployment, runs, n, b)
  {
    var n := |runs| - 1;
    forall r: nat | r < n
      ensures InteriorOf(chain, deployment, runs[..n], r, b) == InteriorOf(chain, deployment, runs, r, b) {
      assert runs[..n][..r] == runs[..r];
    }
  }

  /** The state that the runs leave: the file, how far it is exact, and the blocks whose
      pools it holds twice. */
  lemma {:induction false} RunsComplete(chain: seq<Pool>, deployment: int, runs: seq<RunPlan>)
    returns (shared: set<int>)
    requires ChainOk(chain)
    ensures Complete(AfterRuns([], chain, deployment, runs), chain, deployment,
                     RunsReach(chain, deployment, runs), shared)
    ensures deployment <= RunsReach(chain, deployment, runs)
    ensures forall b :: b in shared <==> InteriorOfSome(chain, deployment, runs, b)
    decreases |runs|
  {
    if runs == [] {
      shared := {};
    } else {
      var n := |runs| - 1;
      var before := RunsComplete(chain, deployment, runs[..n]);
      var file, reached := AfterRuns([], chain, deployment, runs[..n]), RunsReach(chain, deployment, runs[..n]);
      var start := StartOf(file, deployment);
      RunKeepsComplete(file, chain, deployment, reached, before, runs[n].current, runs[n].stopAfter);
      ReachedIs(reached, start, runs[n].current, runs[n].stopAfter);
      shared := SharedAfter(before, start, runs[n].current, runs[n].stopAfter, true);
      forall b ensures b in shared <==> InteriorOfSome(chain, deployment, runs, b) {
        SharedIs(before, start, runs[n].current, runs[n].stopAfter, true, b);
        InteriorOfMore(chain, deployment, runs, b);
      }
    }
  }

  /** Resume completeness: whatever the runs and wherever they stop, the file holds
      exactly the pools created after deployment and up to the end of the furthest
      completed window, in block order; a pool is recorded twice iff its block is an
      interior window boundary of some run, and once otherwise. */
  lemma ResumeCompleteness(chain: seq<Pool>, deployment: int, runs: seq<RunPlan>, p: Pool)
    requires ChainOk(chain)
    ensures var file := AfterRuns([], chain, deployment, runs);
            && Ascending(file)
            && (p in file <==> p in chain && deployment < p.block <= RunsReach(chain, deployment, runs))
            && (p in file ==> multiset(file)[p] == if InteriorOfSome(chain, deployment, runs, p.block) then 2 else 1)
  {
    var shared := RunsComplete(chain, deployment, runs);
    var file := AfterRuns([], chain, deployment, runs);
    assert p in file <==> multiset(file)[p] > 0;
  }

  /** If the last run is not stopped, everything up to its current block is recorded. */
  lemma ScanFromScratch(chain: seq<Pool>, deployment: int, runs: seq<RunPlan>, last: RunPlan, p: Pool)
    requires ChainOk(chain) && last.stopAfter * BLOCK_SPAN > last.current - deployment >= 0
    requires p in chain && deployment < p.block <= last.current
    ensures p in AfterRuns([], chain, deployment, runs + [last])
  {
    var all := runs + [last];
    assert all[..|runs|] == runs;
    var shared := RunsComplete(chain, deployment, runs);
    PreviousAfterDeployment(AfterRuns([], chain, deployment, runs), chain, deployment,
                            RunsReach(chain, deployment, runs), shared);
    ResumeCompleteness(chain, deployment, all, p);
  }

  lemma PreviousAfterDeployment(records: seq<Pool>, chain: seq<Pool>, deployment: int, reached: int, shared: set<int>)
    requires Complete(records, chain, deployment, reached, shared) && deployment <= reached
    ensures deployment <= PreviousBlock(records, deployment) <= reached
  {
    if records != [] {
      var last := records[|records| - 1];
      assert last in records;
      assert multiset(records)[last] > 0;
    }
  }

  /** A pool at the boundary of a run's first two windows is recorded twice. */
  lemma BoundaryPoolTwice(p: Pool, deployment: int)
    requires p.block == deployment + 1 + BLOCK_SPAN
    ensures AfterRun([], [p], deployment, p.block, 2) == [p, p]
  {
    var i := deployment + 1;
    FilterAll(InBlocks(i, p.block), [p]);
    FilterAll(InBlocks(p.block, p.block), [p]);
    assert Windows([p], p.block + BLOCK_SPAN, p.block, 0) == [];
    assert Windows([p], p.block, p.block, 1) == [p] + [];
    assert Windows([p], i, p.block, 2) == [p] + Windows([p], p.block, p.block, 1);
  }
}
