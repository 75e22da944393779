/** What the saved snapshot says in terms of the Mint and Burn logs themselves. */
module SnapshotFromLogs {
  import opened StableSort
  import opened TickLedger
  import opened Reordering
  import opened WindowScan
  import opened SnapshotFiles
  import opened LiquiditySnapshot
  import opened LiquidityRuns
  import opened SnapshotTheorems

  function Signed(e: Log): int {
    match e.kind
    case Mint => e.amount
    case Burn => 0 - e.amount
  }

  predicate InScan(e: Log, pool: string, lo: int, hi: int) {
    e.pool == pool && lo <= e.block <= hi
  }

  /** The liquidity that the pool's logs of blocks lo..hi give tick t, as either end. */
  function LogGross(chain: seq<Log>, pool: string, lo: int, hi: int, t: int): int {
    if chain == [] then 0
    else
      var e := chain[0];
      LogGross(chain[1..], pool, lo, hi, t) +
      if !InScan(e, pool, lo, hi) then 0
      else (if e.lower == t then Signed(e) else 0) + (if e.upper == t then Signed(e) else 0)
  }

  /** The same with the upper ends counted negatively. */
  function LogNet(chain: seq<Log>, pool: string, lo: int, hi: int, t: int): int {
    if chain == [] then 0
    else
      var e := chain[0];
      LogNet(chain[1..], pool, lo, hi, t) +
      if !InScan(e, pool, lo, hi) then 0
      else (if e.lower == t then Signed(e) else 0) - (if e.upper == t then Signed(e) else 0)
  }

  /** The liquidity that they give the range lower..upper. */
  function LogRange(chain: seq<Log>, pool: string, lo: int, hi: int, lower: int, upper: int): int {
    if chain == [] then 0
    else
      var e := chain[0];
      LogRange(chain[1..], pool, lo, hi, lower, upper) +
      if InScan(e, pool, lo, hi) && e.lower == lower && e.upper == upper then Signed(e) else 0
  }

  /** Logs that the protocol can emit: ranges are nonempty and aligned, and no range
      ever has negative liquidity. */
  ghost predicate ProtocolLogs(chain: seq<Log>, pool: string, lo: int, hi: int, spacing: int)
    requires spacing > 0
  {
    && (forall e :: e in chain && InScan(e, pool, lo, hi) ==>
          e.lower < e.upper && e.lower % spacing == 0 && e.upper % spacing == 0)
    && (forall n, lower, upper :: 0 <= n <= |chain| ==> LogRange(chain[..n], pool, lo, hi, lower, upper) >= 0)
  }

  lemma {:induction false} HistorySums(chain: seq<Log>, pool: string, lo: int, hi: int, t: int)
    ensures GrossOver(PoolHistory(chain, pool, lo, hi), t) == LogGross(chain, pool, lo, hi, t)
    ensures NetOver(PoolHistory(chain, pool, lo, hi), t) == LogNet(chain, pool, lo, hi, t)
  {
    if chain == [] {
    } else {
      HistorySums(chain[1..], pool, lo, hi, t);
      var rest := PoolHistory(chain[1..], pool, lo, hi);
      assert ([ChangeOf(chain[0])] + rest)[1..] == rest;
    }
  }

  lemma {:induction false} HistoryRange(chain: seq<Log>, pool: string, lo: int, hi: int, lower: int, upper: int)
    ensures RangeSum(PoolHistory(chain, pool, lo, hi), lower, upper) == LogRange(chain, pool, lo, hi, lower, upper)
  {
    if chain == [] {
    } else {
      HistoryRange(chain[1..], pool, lo, hi, lower, upper);
      var rest := PoolHistory(chain[1..], pool, lo, hi);
      assert ([ChangeOf(chain[0])] + rest)[1..] == rest;
    }
  }

  /** Every prefix of a pool's history is the history of a prefix of the chain. */
  lemma {:induction false} HistoryPrefix(chain: seq<Log>, pool: string, lo: int, hi: int, m: nat) returns (n: nat)
    requires m <= |PoolHistory(chain, pool, lo, hi)|
    ensures n <= |chain| && PoolHistory(chain[..n], pool, lo, hi) == PoolHistory(chain, pool, lo, hi)[..m]
  {
    if m == 0 {
      n := 0;
    } else {
      var rest := PoolHistory(chain[1..], pool, lo, hi);
      var here := InScan(chain[0], pool, lo, hi);
      n := HistoryPrefix(chain[1..], pool, lo, hi, if here then m - 1 else m);
      n := n + 1;
      assert chain[..n][1..] == chain[1..][..n - 1];
    }
  }

  lemma ProtocolLogsHistory(chain: seq<Log>, pool: string, lo: int, hi: int, spacing: int)
    requires spacing > 0 && ProtocolLogs(chain, pool, lo, hi, spacing)
    ensures ProtocolHistory(PoolHistory(chain, pool, lo, hi), spacing)
  {
    var h := PoolHistory(chain, pool, lo, hi);
    InScanHistory(chain, pool, lo, hi);
    forall m | 0 <= m <= |h| ensures RangesOk(h[..m]) {
      var n := HistoryPrefix(chain, pool, lo, hi, m);
      forall lower, upper ensures RangeSum(h[..m], lower, upper) >= 0 {
        HistoryRange(chain[..n], pool, lo, hi, lower, upper);
      }
    }
  }

  /** The events of a history have the ticks of a log in range. */
  lemma {:induction false} InScanHistory(chain: seq<Log>, pool: string, lo: int, hi: int)
    ensures forall c :: c in PoolHistory(chain, pool, lo, hi) ==>
              exists e :: e in chain && InScan(e, pool, lo, hi) && c.lower == e.lower && c.upper == e.upper
  {
    if chain == [] {
    } else {
      InScanHistory(chain[1..], pool, lo, hi);
      assert chain[0] in chain && forall e :: e in chain[1..] ==> e in chain;
    }
  }

  lemma FileLedger(files: seq<SnapshotFile>, chain: seq<Log>, fees: map<string, int>, p: string)
    requires ChainOk(chain) && files != [] && Series(files, chain, fees) && p in fees
    ensures var last := files[|files| - 1];
            var h := PoolHistory(chain, p, UNISWAPV3_START_BLOCK, last.block);
            && SameLedger(LedgerOf(Load(last), p), Replay(EMPTY, SpacingOf(fees[p]), ReplayOrder(h)))
            && (p in Load(last) <==> ReplayOrder(h) != [])
  {
    var last := files[|files| - 1];
    AnySeriesIsOneRun(files, chain, fees);
    var s :| last == Save(s, last.block) && Fetched(map[], s, chain, UNISWAPV3_START_BLOCK, last.block, fees);
    assert FetchedPool(map[], s, chain, UNISWAPV3_START_BLOCK, last.block, fees, p);
    Reloaded(s, last.block, p);
  }

  /** After any series of runs the loaded gross liquidity of every tick of a known pool
      is the sum over its logs. */
  lemma FileGross(files: seq<SnapshotFile>, chain: seq<Log>, fees: map<string, int>, p: string, t: int)
    requires ChainOk(chain) && files != [] && Series(files, chain, fees) && p in fees
    ensures var last := files[|files| - 1];
            At(LedgerOf(Load(last), p).ticks, t).gross == LogGross(chain, p, UNISWAPV3_START_BLOCK, last.block, t)
  {
    var last := files[|files| - 1];
    var h := PoolHistory(chain, p, UNISWAPV3_START_BLOCK, last.block);
    FileLedger(files, chain, fees, p);
    HistorySorted(chain, p, UNISWAPV3_START_BLOCK, last.block);
    ReplayGross(EMPTY, SpacingOf(fees[p]), ReplayOrder(h), t);
    ReplayOrderSum(Tick(0, 0), h, t);
    HistorySums(chain, p, UNISWAPV3_START_BLOCK, last.block, t);
  }

  /** And for logs that the protocol can emit so is the net liquidity. */
  lemma FileEntries(files: seq<SnapshotFile>, chain: seq<Log>, fees: map<string, int>, p: string, t: int)
    requires ChainOk(chain) && files != [] && Series(files, chain, fees) && p in fees
    requires ProtocolLogs(chain, p, UNISWAPV3_START_BLOCK, files[|files| - 1].block, SpacingOf(fees[p]))
    ensures var last := files[|files| - 1];
            At(LedgerOf(Load(last), p).ticks, t) ==
            Tick(LogGross(chain, p, UNISWAPV3_START_BLOCK, last.block, t),
                 LogNet(chain, p, UNISWAPV3_START_BLOCK, last.block, t))
  {
    var last := files[|files| - 1];
    var h := PoolHistory(chain, p, UNISWAPV3_START_BLOCK, last.block);
    ProtocolLogsHistory(chain, p, UNISWAPV3_START_BLOCK, last.block, SpacingOf(fees[p]));
    SnapshotMatchesChain(files, chain, fees, p);
    PositionsOkIsClean(h, t);
    ReplayIsSum(EMPTY, SpacingOf(fees[p]), h, t);
    HistorySums(chain, p, UNISWAPV3_START_BLOCK, last.block, t);
  }

  /** The pools of the file: the known ones with a log of nonzero amount. */
  lemma FilePools(files: seq<SnapshotFile>, chain: seq<Log>, fees: map<string, int>, p: string)
    requires ChainOk(chain) && files != [] && Series(files, chain, fees)
    ensures var last := files[|files| - 1];
            p in Load(last) <==>
            p in fees && exists e :: e in chain && InScan(e, p, UNISWAPV3_START_BLOCK, last.block) && e.amount != 0
  {
    var last := files[|files| - 1];
    var h := PoolHistory(chain, p, UNISWAPV3_START_BLOCK, last.block);
    if p in fees {
      FileLedger(files, chain, fees, p);
      ReplayOrderMembers(h);
      NonZeroHistory(chain, p, UNISWAPV3_START_BLOCK, last.block);
      assert ReplayOrder(h) != [] ==> ReplayOrder(h)[0] in ReplayOrder(h);
    } else {
      AnySeriesIsOneRun(files, chain, fees);
      var s :| last == Save(s, last.block) && Fetched(map[], s, chain, UNISWAPV3_START_BLOCK, last.block, fees);
      assert FetchedPool(map[], s, chain, UNISWAPV3_START_BLOCK, last.block, fees, p);
      Reloaded(s, last.block, p);
    }
  }

  lemma {:induction false} NonZeroHistory(chain: seq<Log>, pool: string, lo: int, hi: int)
    ensures (exists c :: c in PoolHistory(chain, pool, lo, hi) && c.delta != 0) <==>
            (exists e :: e in chain && InScan(e, pool, lo, hi) && e.amount != 0)
  {
    if chain == [] {
    } else {
      NonZeroHistory(chain[1..], pool, lo, hi);
      assert chain == [chain[0]] + chain[1..];
      var rest := PoolHistory(chain[1..], pool, lo, hi);
      if InScan(chain[0], pool, lo, hi) {
        assert PoolHistory(chain, pool, lo, hi) == [ChangeOf(chain[0])] + rest;
      } else {
        assert PoolHistory(chain, pool, lo, hi) == rest;
      }
    }
  }
}
