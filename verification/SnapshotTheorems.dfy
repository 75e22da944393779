/** What the saved snapshot means, over any sequence of runs. */
module SnapshotTheorems {
  import opened StableSort
  import opened TickLedger
  import opened Reordering
  import opened WindowScan
  import opened SnapshotFiles
  import opened LiquiditySnapshot
  import opened LiquidityRuns

  /** Equal reading means equal saving. */
  lemma SameLedgerSameRecord(a: Ledger, b: Ledger)
    requires SameLedger(a, b)
    ensures SavePool(a) == SavePool(b)
  {
    SameWords(a.words, b.words);
  }

  lemma SameWords(a: map<int, set<int>>, b: map<int, set<int>>)
    requires forall w :: WordAt(a, w) == WordAt(b, w)
    ensures DropZeroWords(a) == DropZeroWords(b)
  {
    var x, y := DropZeroWords(a), DropZeroWords(b);
    forall w ensures w in x <==> w in y {
      assert WordAt(a, w) == WordAt(b, w);
    }
    forall w | w in x ensures x[w] == y[w] {
      assert WordAt(a, w) == WordAt(b, w);
    }
  }

  /** A run is deterministic: its file depends on no failure pattern. */
  lemma SavedRunUnique(f: SnapshotFile, g: SnapshotFile, prior: Snapshot, chain: seq<Log>, lo: int, hi: int,
                       fees: map<string, int>)
    requires SavedRun(f, prior, chain, lo, hi, fees) && SavedRun(g, prior, chain, lo, hi, fees)
    ensures f == g
  {
    var a :| f == Save(a, hi) && Fetched(prior, a, chain, lo, hi, fees);
    var b :| g == Save(b, hi) && Fetched(prior, b, chain, lo, hi, fees);
    FetchedUnique(a, b, prior, chain, lo, hi, fees);
  }

  lemma FetchedUnique(a: Snapshot, b: Snapshot, prior: Snapshot, chain: seq<Log>, lo: int, hi: int,
                      fees: map<string, int>)
    requires Fetched(prior, a, chain, lo, hi, fees) && Fetched(prior, b, chain, lo, hi, fees)
    ensures a == b
  {
    forall p ensures (p in a <==> p in b) && LedgerOf(a, p) == LedgerOf(b, p) {
      FetchedPoolUnique(a, b, prior, chain, lo, hi, fees, p);
    }
    SameSnapshot(a, b);
  }

  lemma FetchedPoolUnique(a: Snapshot, b: Snapshot, prior: Snapshot, chain: seq<Log>, lo: int, hi: int,
                          fees: map<string, int>, p: string)
    requires FetchedPool(prior, a, chain, lo, hi, fees, p) && FetchedPool(prior, b, chain, lo, hi, fees, p)
    ensures (p in a <==> p in b) && LedgerOf(a, p) == LedgerOf(b, p)
  {
  }

  lemma SameSnapshot(a: Snapshot, b: Snapshot)
    requires forall p :: (p in a <==> p in b) && LedgerOf(a, p) == LedgerOf(b, p)
    ensures a == b
  {
    forall p | p in a ensures a[p] == b[p] {
      assert LedgerOf(a, p) == LedgerOf(b, p);
    }
  }

  /** Two consecutive runs, seen from one pool that is known to both with the same fee
      (or unknown to both): replaying in two stretches, the second from a snapshot
      that reads like the first one's result, reads like replaying at once. */
  lemma IncrementalPool(prior: Snapshot, s1: Snapshot, reloaded: Snapshot, s2: Snapshot, chain: seq<Log>,
                        lo: int, b1: int, b2: int, fees1: map<string, int>, fees2: map<string, int>, p: string)
    requires ChainOk(chain) && b1 <= b2
    requires FetchedPool(prior, s1, chain, lo, b1, fees1, p)
    requires ReadsLike(reloaded, s1, p)
    requires FetchedPool(reloaded, s2, chain, NextBlock(lo, b1), b2, fees2, p)
    requires p in fees1 <==> p in fees2
    requires p in fees1 ==> fees1[p] == fees2[p]
    ensures ReadsFetched(prior, s2, chain, lo, b2, fees2, p)
  {
    if p in fees1 {
      var x, y := ReplayOrder(PoolHistory(chain, p, lo, b1)), ReplayOrder(PoolHistory(chain, p, NextBlock(lo, b1), b2));
      WholeOrder(chain, p, lo, b1, b2);
      TwoStretches(LedgerOf(prior, p), LedgerOf(s1, p), LedgerOf(reloaded, p), SpacingOf(fees1[p]), x, y);
    }
  }

  ghost predicate ReadsLike(a: Snapshot, b: Snapshot, p: string) {
    (p in a <==> p in b) && SameLedger(LedgerOf(a, p), LedgerOf(b, p))
  }

  /** What FetchedPool says, up to stored zero words. */
  ghost predicate ReadsFetched(prior: Snapshot, result: Snapshot, chain: seq<Log>, lo: int, hi: int,
                               fees: map<string, int>, p: string) {
    var replayed := ReplayOrder(PoolHistory(chain, p, lo, hi));
    && (p in result <==> p in prior || (p in fees && replayed != []))
    && SameLedger(LedgerOf(result, p),
         if p in fees then Replay(LedgerOf(prior, p), SpacingOf(fees[p]), replayed) else LedgerOf(prior, p))
  }

  lemma WholeOrder(chain: seq<Log>, p: string, lo: int, b1: int, b2: int)
    requires ChainOk(chain) && b1 <= b2
    ensures ReplayOrder(PoolHistory(chain, p, lo, b2)) ==
            ReplayOrder(PoolHistory(chain, p, lo, b1)) + ReplayOrder(PoolHistory(chain, p, NextBlock(lo, b1), b2))
  {
    HistoryResumes(chain, p, lo, b1, b2);
    ReplayOrderSplits(PoolHistory(chain, p, lo, b1), PoolHistory(chain, p, NextBlock(lo, b1), b2));
  }

  lemma TwoStretches(l: Ledger, middle: Ledger, reloaded: Ledger, spacing: int, x: seq<Change>, y: seq<Change>)
    requires spacing > 0 && middle == Replay(l, spacing, x) && SameLedger(reloaded, middle)
    ensures SameLedger(Replay(reloaded, spacing, y), Replay(l, spacing, x + y))
  {
    ReplayAppend(l, spacing, x, y);
    ReplayCong(reloaded, middle, spacing, y);
  }

  lemma Reloaded(s: Snapshot, block: int, p: string)
    ensures ReadsLike(Load(Save(s, block)), s, p)
  {
    SaveLoad(s, block);
    if p in s {
      ReloadedReadsTheSame(s, block, p, 1);
    }
  }

  /** The files of a two-step history and of one long run agree on every pool that
      `lp_data` treats alike in both steps. */
  lemma IncrementalEqualsFull(f1: SnapshotFile, f2: SnapshotFile, full: SnapshotFile, prior: Snapshot, chain: seq<Log>,
                              lo: int, b1: int, b2: int, fees1: map<string, int>, fees2: map<string, int>, p: string)
    requires ChainOk(chain) && b1 <= b2
    requires SavedRun(f1, prior, chain, lo, b1, fees1)
    requires SavedRun(f2, Load(f1), chain, NextBlock(lo, b1), b2, fees2)
    requires SavedRun(full, prior, chain, lo, b2, fees2)
    requires p in fees1 <==> p in fees2
    requires p in fees1 ==> fees1[p] == fees2[p]
    ensures f2.block == full.block && (p in f2.pools <==> p in full.pools)
    ensures p in f2.pools ==> f2.pools[p] == full.pools[p]
  {
    var s1 :| f1 == Save(s1, b1) && Fetched(prior, s1, chain, lo, b1, fees1);
    var s2 :| f2 == Save(s2, b2) && Fetched(Load(f1), s2, chain, NextBlock(lo, b1), b2, fees2);
    var s :| full == Save(s, b2) && Fetched(prior, s, chain, lo, b2, fees2);
    assert FetchedPool(prior, s1, chain, lo, b1, fees1, p) &&
           FetchedPool(Load(f1), s2, chain, NextBlock(lo, b1), b2, fees2, p);
    Reloaded(s1, b1, p);
    IncrementalPool(prior, s1, Load(f1), s2, chain, lo, b1, b2, fees1, fees2, p);
    assert FetchedPool(prior, s, chain, lo, b2, fees2, p);
    ReadsFetchedSame(prior, s2, s, chain, lo, b2, fees2, p);
    SavedRecord(s2, b2, p);
    SavedRecord(s, b2, p);
  }

  lemma ReadsFetchedSame(prior: Snapshot, a: Snapshot, b: Snapshot, chain: seq<Log>, lo: int, hi: int,
                         fees: map<string, int>, p: string)
    requires ReadsFetched(prior, a, chain, lo, hi, fees, p) && FetchedPool(prior, b, chain, lo, hi, fees, p)
    ensures p in a <==> p in b
    ensures SavePool(LedgerOf(a, p)) == SavePool(LedgerOf(b, p))
  {
    SameLedgerSameRecord(LedgerOf(a, p), LedgerOf(b, p));
  }

  lemma SavedRecord(s: Snapshot, block: int, p: string)
    ensures p in Save(s, block).pools <==> p in s
    ensures p in s ==> Save(s, block).pools[p] == SavePool(LedgerOf(s, p))
  {
  }

  /** With the same `lp_data` throughout, a run that continues from a run's file is a
      run from the start. */
  lemma RunsCompose(f1: SnapshotFile, f2: SnapshotFile, prior: Snapshot, chain: seq<Log>, lo: int, b1: int, b2: int,
                    fees: map<string, int>)
    requires ChainOk(chain) && b1 <= b2
    requires SavedRun(f1, prior, chain, lo, b1, fees)
    requires SavedRun(f2, Load(f1), chain, NextBlock(lo, b1), b2, fees)
    ensures SavedRun(f2, prior, chain, lo, b2, fees)
  {
    var s1 :| f1 == Save(s1, b1) && Fetched(prior, s1, chain, lo, b1, fees);
    var s2 :| f2 == Save(s2, b2) && Fetched(Load(f1), s2, chain, NextBlock(lo, b1), b2, fees);
    forall p ensures ReadsFetched(prior, s2, chain, lo, b2, fees, p) {
      assert FetchedPool(prior, s1, chain, lo, b1, fees, p) &&
             FetchedPool(Load(f1), s2, chain, NextBlock(lo, b1), b2, fees, p);
      Reloaded(s1, b1, p);
      IncrementalPool(prior, s1, Load(f1), s2, chain, lo, b1, b2, fees, fees, p);
    }
    ReadsAsRun(prior, s2, chain, lo, b2, fees);
  }

  /** A snapshot that reads as fetched saves as a fetched one does. */
  lemma ReadsAsRun(prior: Snapshot, s2: Snapshot, chain: seq<Log>, lo: int, hi: int, fees: map<string, int>)
    requires forall p :: ReadsFetched(prior, s2, chain, lo, hi, fees, p)
    ensures SavedRun(Save(s2, hi), prior, chain, lo, hi, fees)
  {
    var s := OneRun(prior, s2.Keys, chain, lo, hi, fees);
    forall p ensures FetchedPool(prior, s, chain, lo, hi, fees, p) {
      ReadsAsRunAt(prior, s2, chain, lo, hi, fees, p);
    }
    SavedWitness(s, prior, chain, lo, hi, fees);
    OneRunSaves(prior, s2, chain, lo, hi, fees);
  }

  lemma OneRunSaves(prior: Snapshot, s2: Snapshot, chain: seq<Log>, lo: int, hi: int, fees: map<string, int>)
    requires forall p :: ReadsFetched(prior, s2, chain, lo, hi, fees, p)
    ensures Save(OneRun(prior, s2.Keys, chain, lo, hi, fees), hi) == Save(s2, hi)
  {
    var s := OneRun(prior, s2.Keys, chain, lo, hi, fees);
    forall p | p in s ensures SavePool(s[p]) == SavePool(s2[p]) {
      ReadsAsRunAt(prior, s2, chain, lo, hi, fees, p);
    }
    SaveCong(s, s2, hi);
  }

  lemma ReadsAsRunAt(prior: Snapshot, s2: Snapshot, chain: seq<Log>, lo: int, hi: int, fees: map<string, int>,
                     p: string)
    requires ReadsFetched(prior, s2, chain, lo, hi, fees, p)
    ensures FetchedPool(prior, OneRun(prior, s2.Keys, chain, lo, hi, fees), chain, lo, hi, fees, p)
    ensures p in s2 ==> SavePool(s2[p]) == SavePool(OneRun(prior, s2.Keys, chain, lo, hi, fees)[p])
  {
    OneRunAt(prior, s2.Keys, chain, lo, hi, fees, p);
    ReadsFetchedSame(prior, s2, OneRun(prior, s2.Keys, chain, lo, hi, fees), chain, lo, hi, fees, p);
  }

  lemma SaveCong(a: Snapshot, b: Snapshot, block: int)
    requires a.Keys == b.Keys && forall p :: p in a ==> SavePool(a[p]) == SavePool(b[p])
    ensures Save(a, block) == Save(b, block)
  {
  }

  ghost function OneRun(prior: Snapshot, keys: set<string>, chain: seq<Log>, lo: int, hi: int,
                        fees: map<string, int>): Snapshot {
    map p | p in keys ::
      if p in fees then Replay(LedgerOf(prior, p), SpacingOf(fees[p]), ReplayOrder(PoolHistory(chain, p, lo, hi)))
      else LedgerOf(prior, p)
  }

  lemma OneRunAt(prior: Snapshot, keys: set<string>, chain: seq<Log>, lo: int, hi: int, fees: map<string, int>,
                 p: string)
    requires p in keys <==> p in prior || (p in fees && ReplayOrder(PoolHistory(chain, p, lo, hi)) != [])
    ensures FetchedPool(prior, OneRun(prior, keys, chain, lo, hi, fees), chain, lo, hi, fees, p)
  {
  }

  /** The files of a series of runs, from no file on. */
  ghost predicate Series(files: seq<SnapshotFile>, chain: seq<Log>, fees: map<string, int>)
    decreases |files|
  {
    files != [] ==>
      var n := |files| - 1;
      && Series(files[..n], chain, fees)
      && NextRun(if n == 0 then None else Some(files[n - 1]), files[n], chain, fees)
  }

  /** So the files that successive successful runs write are a series. */
  lemma SeriesExtends(files: seq<SnapshotFile>, f: SnapshotFile, chain: seq<Log>, fees: map<string, int>)
    requires Series(files, chain, fees)
    requires NextRun(if files == [] then None else Some(files[|files| - 1]), f, chain, fees)
    ensures Series(files + [f], chain, fees)
  {
    var all, n := files + [f], |files|;
    assert all[..n] == files && all[n] == f;
    if n > 0 {
      assert all[n - 1] == files[n - 1];
    }
  }

  /** After any number of runs the file is that of one run over the whole range. */
  lemma {:induction false} AnySeriesIsOneRun(files: seq<SnapshotFile>, chain: seq<Log>, fees: map<string, int>)
    requires ChainOk(chain) && files != [] && Series(files, chain, fees)
    ensures SavedRun(files[|files| - 1], map[], chain, UNISWAPV3_START_BLOCK, files[|files| - 1].block, fees)
    decreases |files|
  {
    var n := |files| - 1;
    if n > 0 {
      AnySeriesIsOneRun(files[..n], chain, fees);
      NextRunExtends(files[..n][n - 1], files[n], chain, fees);
    }
  }

  lemma NextRunExtends(f1: SnapshotFile, f2: SnapshotFile, chain: seq<Log>, fees: map<string, int>)
    requires ChainOk(chain) && NextRun(Some(f1), f2, chain, fees)
    requires SavedRun(f1, map[], chain, UNISWAPV3_START_BLOCK, f1.block, fees)
    ensures SavedRun(f2, map[], chain, UNISWAPV3_START_BLOCK, f2.block, fees)
  {
    RunsCompose(f1, f2, map[], chain, UNISWAPV3_START_BLOCK, f1.block, f2.block, fees);
  }

  // ----- against the chain itself

  /** A pool whose history is one the protocol can produce, at the pool's tick spacing. */
  ghost predicate ProtocolHistory(h: seq<Change>, spacing: int)
    requires spacing > 0
  {
    PositionsOk(h) && Aligned(h, spacing)
  }

  /** The loaded ledger of a known pool, after any series of runs, is the one that
      applying its logs in on-chain order gives, and it satisfies the ledger
      invariants. */
  lemma SnapshotMatchesChain(files: seq<SnapshotFile>, chain: seq<Log>, fees: map<string, int>, p: string)
    requires ChainOk(chain) && files != [] && Series(files, chain, fees) && p in fees
    requires var block := files[|files| - 1].block;
             ProtocolHistory(PoolHistory(chain, p, UNISWAPV3_START_BLOCK, block), SpacingOf(fees[p]))
    ensures var last := files[|files| - 1];
            var l := LedgerOf(Load(last), p);
            && SameLedger(l,
                          Replay(EMPTY, SpacingOf(fees[p]), PoolHistory(chain, p, UNISWAPV3_START_BLOCK, last.block)))
            && SoundLedger(l, SpacingOf(fees[p]))
  {
    var last := files[|files| - 1];
    var spacing := SpacingOf(fees[p]);
    var h := PoolHistory(chain, p, UNISWAPV3_START_BLOCK, last.block);
    AnySeriesIsOneRun(files, chain, fees);
    var s :| last == Save(s, last.block) && Fetched(map[], s, chain, UNISWAPV3_START_BLOCK, last.block, fees);
    assert FetchedPool(map[], s, chain, UNISWAPV3_START_BLOCK, last.block, fees, p);
    HistoryReplays(chain, p, last.block, spacing);
    LedgerInvariants(spacing, h);
    Reloaded(s, last.block, p);
    var l := LedgerOf(Load(last), p);
    SameLedgerTrans(l, LedgerOf(s, p), Replay(EMPTY, spacing, h));
    SoundLedgerCong(l, Replay(EMPTY, spacing, h), spacing);
  }

  lemma HistoryReplays(chain: seq<Log>, p: string, block: int, spacing: int)
    requires ChainOk(chain) && spacing > 0
    requires ProtocolHistory(PoolHistory(chain, p, UNISWAPV3_START_BLOCK, block), spacing)
    ensures var h := PoolHistory(chain, p, UNISWAPV3_START_BLOCK, block);
            SameLedger(Replay(EMPTY, spacing, ReplayOrder(h)), Replay(EMPTY, spacing, h))
  {
    var h := PoolHistory(chain, p, UNISWAPV3_START_BLOCK, block);
    HistorySorted(chain, p, UNISWAPV3_START_BLOCK, block);
    forall t ensures Clean(true, At(EMPTY.ticks, t), h, t) {
      PositionsOkIsClean(h, t);
    }
    SoundReordering(EMPTY, spacing, h);
  }

  lemma SameLedgerTrans(a: Ledger, b: Ledger, c: Ledger)
    requires SameLedger(a, b) && SameLedger(b, c)
    ensures SameLedger(a, c)
  {
    forall w ensures WordAt(a.words, w) == WordAt(c.words, w) {
      assert WordAt(a.words, w) == WordAt(b.words, w);
    }
  }

  lemma SoundLedgerCong(a: Ledger, b: Ledger, spacing: int)
    requires spacing > 0 && SameLedger(a, b) && SoundLedger(b, spacing)
    ensures SoundLedger(a, spacing)
  {
    forall w ensures WordAt(a.words, w) == WordAt(b.words, w) {}
  }

  // ----- a pool that lp_data learns about late

  /** A pool unknown to the first run loses that run's events for good.  Its entries
      still end like those of one full run iff the lost events leave no trace. */
  lemma LatePool(f1: SnapshotFile, f2: SnapshotFile, full: SnapshotFile, prior: Snapshot, chain: seq<Log>,
                 lo: int, b1: int, b2: int, fees1: map<string, int>, fees2: map<string, int>, p: string)
    requires ChainOk(chain) && b1 <= b2 && p !in fees1 && p in fees2
    requires SavedRun(f1, prior, chain, lo, b1, fees1)
    requires SavedRun(f2, Load(f1), chain, NextBlock(lo, b1), b2, fees2)
    requires SavedRun(full, prior, chain, lo, b2, fees2)
    requires Normalized(LedgerOf(prior, p).ticks) && WellFormed(PoolHistory(chain, p, lo, b2))
    ensures LedgerOf(Load(f2), p).ticks == LedgerOf(Load(full), p).ticks <==>
            LeaveNoTrace(LedgerOf(prior, p), PoolHistory(chain, p, lo, b1),
                         ReplayOrder(PoolHistory(chain, p, NextBlock(lo, b1), b2)))
  {
    var s1 :| f1 == Save(s1, b1) && Fetched(prior, s1, chain, lo, b1, fees1);
    var s2 :| f2 == Save(s2, b2) && Fetched(Load(f1), s2, chain, NextBlock(lo, b1), b2, fees2);
    var s :| full == Save(s, b2) && Fetched(prior, s, chain, lo, b2, fees2);
    assert FetchedPool(prior, s1, chain, lo, b1, fees1, p);
    assert FetchedPool(Load(f1), s2, chain, NextBlock(lo, b1), b2, fees2, p);
    assert FetchedPool(prior, s, chain, lo, b2, fees2, p);
    Reloaded(s1, b1, p);
    Reloaded(s2, b2, p);
    Reloaded(s, b2, p);
    LateSnapshot(prior, s1, Load(f1), s2, s, chain, lo, b1, b2, fees1, fees2, p);
  }

  lemma LateSnapshot(prior: Snapshot, s1: Snapshot, reloaded: Snapshot, s2: Snapshot, full: Snapshot, chain: seq<Log>,
                     lo: int, b1: int, b2: int, fees1: map<string, int>, fees2: map<string, int>, p: string)
    requires ChainOk(chain) && b1 <= b2 && p !in fees1 && p in fees2
    requires FetchedPool(prior, s1, chain, lo, b1, fees1, p) && ReadsLike(reloaded, s1, p)
    requires FetchedPool(reloaded, s2, chain, NextBlock(lo, b1), b2, fees2, p)
    requires FetchedPool(prior, full, chain, lo, b2, fees2, p)
    requires Normalized(LedgerOf(prior, p).ticks) && WellFormed(PoolHistory(chain, p, lo, b2))
    ensures LedgerOf(s2, p).ticks == LedgerOf(full, p).ticks <==>
            LeaveNoTrace(LedgerOf(prior, p), PoolHistory(chain, p, lo, b1),
                         ReplayOrder(PoolHistory(chain, p, NextBlock(lo, b1), b2)))
  {
    LateLedger(LedgerOf(prior, p), LedgerOf(reloaded, p), SpacingOf(fees2[p]), chain, p, lo, b1, b2);
  }

  lemma LateLedger(l: Ledger, reloaded: Ledger, spacing: int, chain: seq<Log>, p: string, lo: int, b1: int, b2: int)
    requires ChainOk(chain) && b1 <= b2 && spacing > 0 && SameLedger(reloaded, l)
    requires Normalized(l.ticks) && WellFormed(PoolHistory(chain, p, lo, b2))
    ensures var late := ReplayOrder(PoolHistory(chain, p, NextBlock(lo, b1), b2));
            Replay(reloaded, spacing, late).ticks ==
              Replay(l, spacing, ReplayOrder(PoolHistory(chain, p, lo, b2))).ticks <==>
            LeaveNoTrace(l, PoolHistory(chain, p, lo, b1), late)
  {
    var early, later := PoolHistory(chain, p, lo, b1), PoolHistory(chain, p, NextBlock(lo, b1), b2);
    HistoryResumes(chain, p, lo, b1, b2);
    assert forall e :: e in early || e in later ==> e in early + later;
    HistorySorted(chain, p, lo, b1);
    WholeOrder(chain, p, lo, b1, b2);
    ReplayCong(reloaded, l, spacing, ReplayOrder(later));
    ReplayOrderMembers(later);
    LostEvents(l, spacing, early, ReplayOrder(later));
  }

  /** At every tick the lost events add up to no gross liquidity, and leave no net
      liquidity beyond what their replay would forget, unless the later events empty
      the tick, which forgets it all. */
  ghost predicate LeaveNoTrace(l: Ledger, lost: seq<Change>, later: seq<Change>) {
    forall t :: NoTraceAt(At(l.ticks, t), lost, later, t)
  }

  ghost predicate NoTraceAt(a: Tick, lost: seq<Change>, later: seq<Change>, t: int) {
    && GrossOver(lost, t) == 0
    && (NetOver(lost, t) == Dropped(0, a, ReplayOrder(lost), t) || Emptied(a.gross, later, t))
  }

  lemma LostEvents(l: Ledger, spacing: int, lost: seq<Change>, later: seq<Change>)
    requires spacing > 0 && Normalized(l.ticks)
    requires WellFormed(lost) && WellFormed(later) && Sorted(ChangeKey(), lost)
    ensures Replay(l, spacing, later).ticks == Replay(l, spacing, ReplayOrder(lost) + later).ticks <==>
            LeaveNoTrace(l, lost, later)
  {
    var a, b := Replay(l, spacing, later).ticks, Replay(l, spacing, ReplayOrder(lost) + later).ticks;
    forall t
      ensures Normalized(a) && Normalized(b)
      ensures At(a, t) == At(b, t) <==> NoTraceAt(At(l.ticks, t), lost, later, t)
    {
      LostAt(l, spacing, lost, later, t);
    }
    if LeaveNoTrace(l, lost, later) {
      SameEntries(a, b);
    }
  }

  lemma LostAt(l: Ledger, spacing: int, lost: seq<Change>, later: seq<Change>, t: int)
    requires spacing > 0 && Normalized(l.ticks)
    requires WellFormed(lost) && WellFormed(later) && Sorted(ChangeKey(), lost)
    ensures var a, b := Replay(l, spacing, later).ticks, Replay(l, spacing, ReplayOrder(lost) + later).ticks;
            && Normalized(a) && Normalized(b)
            && (At(a, t) == At(b, t) <==> NoTraceAt(At(l.ticks, t), lost, later, t))
  {
    var first, a := Replay(l, spacing, ReplayOrder(lost)), At(l.ticks, t);
    ReplayOrderMembers(lost);
    ReplayEntry(l, spacing, ReplayOrder(lost), t);
    FoldedDropped(0, a, ReplayOrder(lost), t);
    ReplayOrderSum(a, lost, t);
    ReplayAppend(l, spacing, ReplayOrder(lost), later);
    ReplayEntry(l, spacing, later, t);
    ReplayEntry(first, spacing, later, t);
    EntriesDiffer(a, At(first.ticks, t), later, t);
  }

  lemma EntriesDiffer(a: Tick, b: Tick, s: seq<Change>, t: int)
    ensures Folded(a, s, t) == Folded(b, s, t) <==> a.gross == b.gross && (a.net == b.net || Emptied(a.gross, s, t))
  {
    FoldedGross(a, s, t);
    FoldedGross(b, s, t);
    if a.gross == b.gross {
      FoldedCompare(a, b, s, t);
    }
  }

  /** Lost events that continue the earlier ledger in order would forget nothing. */
  lemma InOrderForgetsNothing(a: Tick, lost: seq<Change>, t: int)
    requires Sorted(ChangeKey(), lost) && Clean(true, a, lost, t)
    ensures Dropped(0, a, ReplayOrder(lost), t) == 0
  {
    ReplayOrderClean(true, a, lost, t);
    CleanDropsNothing(a, ReplayOrder(lost), t);
  }

  /** The events add nothing, gross or net, to any tick. */
  ghost predicate CancelsOut(s: seq<Change>) {
    forall t :: GrossOver(s, t) == 0 && NetOver(s, t) == 0
  }

  lemma NoTraceOnNothing(lost: seq<Change>, later: seq<Change>)
    requires Sorted(ChangeKey(), lost) && forall t :: Clean(true, Tick(0, 0), lost, t)
    ensures LeaveNoTrace(EMPTY, lost, later) <==> CancelsOut(lost)
  {
    forall t
      ensures GrossOver(lost, t) == 0 ==> NetOver(lost, t) == 0
      ensures NoTraceAt(At(EMPTY.ticks, t), lost, later, t) <==> GrossOver(lost, t) == 0
    {
      InOrderForgetsNothing(Tick(0, 0), lost, t);
      assert Clean(true, Tick(0, 0), lost, t);
      assert lost[..|lost|] == lost;
      assert Ok(true, After(Tick(0, 0), lost[..|lost|], t));
    }
  }

  /** For a pool that no earlier run knew either, the entries end like those of one full
      run iff the lost events cancel out. */
  lemma LateNewPool(f1: SnapshotFile, f2: SnapshotFile, full: SnapshotFile, prior: Snapshot, chain: seq<Log>,
                    lo: int, b1: int, b2: int, fees1: map<string, int>, fees2: map<string, int>, p: string)
    requires ChainOk(chain) && b1 <= b2 && p !in fees1 && p in fees2 && p !in prior
    requires SavedRun(f1, prior, chain, lo, b1, fees1)
    requires SavedRun(f2, Load(f1), chain, NextBlock(lo, b1), b2, fees2)
    requires SavedRun(full, prior, chain, lo, b2, fees2)
    requires PositionsOk(PoolHistory(chain, p, lo, b2))
    ensures LedgerOf(Load(f2), p).ticks == LedgerOf(Load(full), p).ticks <==> CancelsOut(PoolHistory(chain, p, lo, b1))
  {
    var lost, later := PoolHistory(chain, p, lo, b1), PoolHistory(chain, p, NextBlock(lo, b1), b2);
    HistoryResumes(chain, p, lo, b1, b2);
    forall t ensures Clean(true, Tick(0, 0), lost, t) {
      PositionsOkIsClean(lost + later, t);
      CleanAppend(true, Tick(0, 0), lost, later, t);
    }
    LatePool(f1, f2, full, prior, chain, lo, b1, b2, fees1, fees2, p);
    HistorySorted(chain, p, lo, b1);
    NoTraceOnNothing(lost, ReplayOrder(later));
  }

  // ----- lost events that do not cancel out and still leave no trace

  /** Event e moves the sums of tick t from a to b. */
  ghost predicate Gains(e: Change, t: int, a: Tick, b: Tick) {
    b == Gain(a, e, t)
  }

  lemma LowerGain(e: Change, t: int, a: Tick)
    requires e.lower == t < e.upper
    ensures Gains(e, t, a, Tick(a.gross + e.delta, a.net + e.delta))
  {
  }

  lemma UpperGain(e: Change, t: int, a: Tick)
    requires e.lower < t == e.upper
    ensures Gains(e, t, a, Tick(a.gross + e.delta, a.net - e.delta))
  {
  }

  lemma NoGain(e: Change, t: int, a: Tick)
    requires e.lower != t && e.upper != t
    ensures Gains(e, t, a, a)
  {
  }

  lemma AfterNext(a: Tick, s: seq<Change>, n: nat, t: int)
    requires n < |s|
    ensures Gains(s[n], t, After(a, s[..n], t), After(a, s[..n + 1], t))
  {
    assert s[..n + 1] == s[..n] + [s[n]];
    assert [s[n]][1..] == [];
    OverAppend(s[..n], [s[n]], t);
  }

  lemma FourClean(s: seq<Change>, t: int, a: Tick, b: Tick, c: Tick, d: Tick, e: Tick)
    requires |s| == 4 && Gains(s[0], t, a, b) && Gains(s[1], t, b, c) && Gains(s[2], t, c, d) && Gains(s[3], t, d, e)
    requires Ok(true, a) && Ok(true, b) && Ok(true, c) && Ok(true, d) && Ok(true, e)
    ensures Clean(true, a, s, t) && After(a, s, t) == e
  {
    assert s[..0] == [] && s[..4] == s;
    AfterNext(a, s, 0, t);
    AfterNext(a, s, 1, t);
    AfterNext(a, s, 2, t);
    AfterNext(a, s, 3, t);
    forall n | 0 <= n <= 4 ensures Ok(true, After(a, s[..n], t)) {
      assert n == 0 || n == 1 || n == 2 || n == 3 || n == 4;
    }
  }

  ghost predicate Moves(e: Change, delta: int, lower: int, upper: int) {
    e.delta == delta && e.lower == lower && e.upper == upper
  }

  /** Mint p-q, burn q-r, mint r-u, burn p-u. */
  ghost predicate Lost(s: seq<Change>, d: int, p: int, q: int, r: int, u: int) {
    |s| == 4 && Moves(s[0], d, p, q) && Moves(s[1], -d, q, r) && Moves(s[2], d, r, u) && Moves(s[3], -d, p, u)
  }

  lemma LostAtFirst(s: seq<Change>, d: int, p: int, q: int, r: int, u: int)
    requires d > 0 && p < q < r < u && Lost(s, d, p, q, r, u)
    ensures Clean(true, Tick(d, d), s, p) && After(Tick(d, d), s, p) == Tick(d, d)
  {
    LowerGain(s[0], p, Tick(d, d));
    NoGain(s[1], p, Tick(d + d, d + d));
    NoGain(s[2], p, Tick(d + d, d + d));
    LowerGain(s[3], p, Tick(d + d, d + d));
    FourClean(s, p, Tick(d, d), Tick(d + d, d + d), Tick(d + d, d + d), Tick(d + d, d + d), Tick(d, d));
  }

  lemma LostAtSecond(s: seq<Change>, d: int, p: int, q: int, r: int, u: int)
    requires d > 0 && p < q < r < u && Lost(s, d, p, q, r, u)
    ensures Clean(true, Tick(d, d), s, q) && After(Tick(d, d), s, q) == Tick(d, -d)
  {
    UpperGain(s[0], q, Tick(d, d));
    LowerGain(s[1], q, Tick(d + d, 0));
    NoGain(s[2], q, Tick(d, -d));
    NoGain(s[3], q, Tick(d, -d));
    FourClean(s, q, Tick(d, d), Tick(d + d, 0), Tick(d, -d), Tick(d, -d), Tick(d, -d));
  }

  lemma LostAtThird(s: seq<Change>, d: int, p: int, q: int, r: int, u: int)
    requires d > 0 && p < q < r < u && Lost(s, d, p, q, r, u)
    ensures Clean(true, Tick(d, -d), s, r) && After(Tick(d, -d), s, r) == Tick(d, d)
  {
    NoGain(s[0], r, Tick(d, -d));
    UpperGain(s[1], r, Tick(d, -d));
    LowerGain(s[2], r, Tick(0, 0));
    NoGain(s[3], r, Tick(d, d));
    FourClean(s, r, Tick(d, -d), Tick(d, -d), Tick(0, 0), Tick(d, d), Tick(d, d));
  }

  lemma LostAtLast(s: seq<Change>, d: int, p: int, q: int, r: int, u: int)
    requires d > 0 && p < q < r < u && Lost(s, d, p, q, r, u)
    ensures Clean(true, Tick(d, -d), s, u) && After(Tick(d, -d), s, u) == Tick(d, -d)
  {
    NoGain(s[0], u, Tick(d, -d));
    NoGain(s[1], u, Tick(d, -d));
    UpperGain(s[2], u, Tick(d, -d));
    UpperGain(s[3], u, Tick(d + d, -d - d));
    FourClean(s, u, Tick(d, -d), Tick(d, -d), Tick(d, -d), Tick(d + d, -d - d), Tick(d, -d));
  }

  lemma LostElsewhere(s: seq<Change>, d: int, p: int, q: int, r: int, u: int, t: int)
    requires Lost(s, d, p, q, r, u) && t != p && t != q && t != r && t != u
    ensures Clean(true, Tick(0, 0), s, t) && After(Tick(0, 0), s, t) == Tick(0, 0)
  {
    NoGain(s[0], t, Tick(0, 0));
    NoGain(s[1], t, Tick(0, 0));
    NoGain(s[2], t, Tick(0, 0));
    NoGain(s[3], t, Tick(0, 0));
    FourClean(s, t, Tick(0, 0), Tick(0, 0), Tick(0, 0), Tick(0, 0), Tick(0, 0));
  }

  lemma LaterEmpties(later: seq<Change>, d: int, p: int, q: int, r: int, u: int)
    requires p < q < r < u && |later| == 2 && Moves(later[0], -d, p, q) && Moves(later[1], -d, r, u)
    ensures Emptied(d, later, q) && Emptied(d, later, r)
  {
    assert later[..0] == [];
    AfterNext(Tick(d, 0), later, 0, q);
    UpperGain(later[0], q, Tick(d, 0));
    AfterNext(Tick(d, 0), later, 0, r);
    NoGain(later[0], r, Tick(d, 0));
    AfterNext(Tick(d, 0), later, 1, r);
    LowerGain(later[1], r, Tick(d, 0));
    assert d + GrossOver(later[..1], q) == 0 && d + GrossOver(later[..2], r) == 0;
  }

  /** On the ledger of positions q-r and p-u, the lost events leave net liquidity of
      minus two d at q behind, and yet no trace: later events empty q and r. */
  lemma LostWithoutTrace(l: Ledger, lost: seq<Change>, later: seq<Change>, d: int, p: int, q: int, r: int, u: int)
    requires d > 0 && p < q < r < u && Lost(lost, d, p, q, r, u) && Sorted(ChangeKey(), lost)
    requires l.ticks == map[p := Tick(d, d), q := Tick(d, d), r := Tick(d, -d), u := Tick(d, -d)]
    requires |later| == 2 && Moves(later[0], -d, p, q) && Moves(later[1], -d, r, u)
    ensures forall t :: Clean(true, At(l.ticks, t), lost, t)
    ensures !CancelsOut(lost) && LeaveNoTrace(l, lost, later)
  {
    LaterEmpties(later, d, p, q, r, u);
    LostAtSecond(lost, d, p, q, r, u);
    forall t
      ensures Clean(true, At(l.ticks, t), lost, t)
      ensures GrossOver(lost, t) == 0 && (NetOver(lost, t) == 0 || t == q || t == r)
    {
      LostAtFirst(lost, d, p, q, r, u);
      LostAtThird(lost, d, p, q, r, u);
      LostAtLast(lost, d, p, q, r, u);
      if t != p && t != q && t != r && t != u {
        LostElsewhere(lost, d, p, q, r, u, t);
      }
    }
    forall t ensures NoTraceAt(At(l.ticks, t), lost, later, t) {
      assert Clean(true, At(l.ticks, t), lost, t);
      InOrderForgetsNothing(At(l.ticks, t), lost, t);
    }
    assert NetOver(lost, q) == -d - d;
  }

  // ----- what the aliasing is for

  /** If the helper replayed into copies, the closing `dict.update` would bring back
      exactly the ticks that the replay removes, with their bitmap bits cleared; it
      would be right, and leave a bitmap that matches, only if there are none. */
  lemma CopiedUpdate(prior: Ledger, spacing: int, s: seq<Change>)
    requires spacing > 0 && Aligned(s, spacing) && Normalized(prior.ticks) && BitmapMatches(prior, spacing)
    ensures var replayed := Replay(prior, spacing, s);
            var merged := Ledger(prior.ticks + replayed.ticks, prior.words + replayed.words);
            && (forall t :: t in merged.ticks && t !in replayed.ticks <==> Revived(prior, s, t))
            && (merged == replayed <==> forall t :: !Revived(prior, s, t))
            && (BitmapMatches(merged, spacing) <==> forall t :: !Revived(prior, s, t))
  {
    var replayed := Replay(prior, spacing, s);
    var merged := Ledger(prior.ticks + replayed.ticks, prior.words + replayed.words);
    ReplayKeepsInvariants(prior, spacing, s);
    WordsStay(prior, spacing, s);
    assert merged.words == replayed.words;
    forall t ensures t in merged.ticks && t !in replayed.ticks <==> Revived(prior, s, t) {
      ReplayGross(prior, spacing, s, t);
      assert t in replayed.ticks <==> At(replayed.ticks, t).gross != 0;
    }
    if t :| Revived(prior, s, t) {
      assert t % spacing == 0 && t in merged.ticks && t !in replayed.ticks;
      assert BitOf(t, spacing) !in WordAt(merged.words, WordOf(t, spacing));
    } else {
      assert forall t :: t in merged.ticks ==> t in replayed.ticks;
      assert merged.ticks == replayed.ticks;
    }
  }

  /** A tick whose gross liquidity the replay takes to zero. */
  ghost predicate Revived(prior: Ledger, s: seq<Change>, t: int) {
    t in prior.ticks && prior.ticks[t].gross + GrossOver(s, t) == 0
  }

  lemma {:induction false} WordsStay(l: Ledger, spacing: int, s: seq<Change>)
    requires spacing > 0
    ensures l.words.Keys <= Replay(l, spacing, s).words.Keys
    decreases |s|
  {
    if s == [] {
    } else {
      WordsStay(Apply(l, spacing, s[0]), spacing, s[1..]);
    }
  }
}
