/** Whole runs of the liquidity fetcher, and runs that continue from a saved file. */
module LiquidityRuns {
  import opened Seqs
  import opened StableSort
  import opened TickLedger
  import opened Reordering
  import opened WindowScan
  import opened SnapshotFiles
  import opened LiquiditySnapshot

  /** Logs in chain order; amounts are uint128. */
  ghost predicate ChainOk(chain: seq<Log>) {
    && |chain| < TWO_TO_128
    && (forall e :: e in chain ==> e.amount < TWO_TO_128)
    && (forall i, j :: 0 <= i < j < |chain| ==> Le((chain[i].block, chain[i].tx), (chain[j].block, chain[j].tx)))
  }

  /** One pool's events of blocks lo..hi in on-chain log order, zero amounts included. */
  function PoolHistory(chain: seq<Log>, pool: string, lo: int, hi: int): seq<Change> {
    if chain == [] then []
    else if chain[0].pool == pool && lo <= chain[0].block <= hi
    then [ChangeOf(chain[0])] + PoolHistory(chain[1..], pool, lo, hi)
    else PoolHistory(chain[1..], pool, lo, hi)
  }

  lemma {:induction false} HistoryMembers(chain: seq<Log>, pool: string, lo: int, hi: int)
    ensures forall c :: c in PoolHistory(chain, pool, lo, hi) ==>
              lo <= c.block <= hi && exists e :: e in chain && e.pool == pool && c == ChangeOf(e)
  {
    if chain == [] {
    } else {
      HistoryMembers(chain[1..], pool, lo, hi);
      assert forall e :: e in chain[1..] ==> e in chain;
      assert chain[0] in chain;
    }
  }

  lemma {:induction false} HistorySorted(chain: seq<Log>, pool: string, lo: int, hi: int)
    requires ChainOk(chain)
    ensures Sorted(ChangeKey(), PoolHistory(chain, pool, lo, hi))
  {
    if chain == [] {
    } else {
      HistorySorted(chain[1..], pool, lo, hi);
      HistoryMembers(chain[1..], pool, lo, hi);
      var rest := PoolHistory(chain[1..], pool, lo, hi);
      forall j | 0 <= j < |rest| ensures Le(ChangeKey()(ChangeOf(chain[0])), ChangeKey()(rest[j])) {
        assert rest[j] in rest;
        var e :| e in chain[1..] && rest[j] == ChangeOf(e);
        var k :| 0 < k < |chain| && chain[k] == e;
      }
    }
  }

  /** A pool's history splits at a block boundary, and no key straddles the cut. */
  lemma {:induction false} HistorySplits(chain: seq<Log>, pool: string, lo: int, mid: int, hi: int)
    requires ChainOk(chain) && lo <= mid <= hi + 1
    ensures PoolHistory(chain, pool, lo, hi) ==
            PoolHistory(chain, pool, lo, mid - 1) + PoolHistory(chain, pool, mid, hi)
    ensures Before(PoolHistory(chain, pool, lo, mid - 1), PoolHistory(chain, pool, mid, hi))
  {
    HistoryMembers(chain, pool, lo, mid - 1);
    HistoryMembers(chain, pool, mid, hi);
    if chain == [] {
    } else {
      HistorySplits(chain[1..], pool, lo, mid, hi);
      if chain[0].pool == pool && mid <= chain[0].block {
        forall e | e in chain[1..] ensures e.block > mid - 1 {
          var k :| 0 < k < |chain| && chain[k] == e;
          assert Le((chain[0].block, chain[0].tx), (chain[k].block, chain[k].tx));
        }
        NothingBefore(chain[1..], pool, lo, mid - 1);
      }
    }
  }

  lemma {:induction false} NothingBefore(chain: seq<Log>, pool: string, lo: int, hi: int)
    requires forall e :: e in chain ==> e.block > hi
    ensures PoolHistory(chain, pool, lo, hi) == []
  {
    if chain == [] {
    } else {
      assert chain[0] in chain;
      NothingBefore(chain[1..], pool, lo, hi);
    }
  }

  /** Scanning on from where a scan of lo..b1 ended misses and repeats nothing. */
  lemma HistoryResumes(chain: seq<Log>, pool: string, lo: int, b1: int, b2: int)
    requires ChainOk(chain) && b1 <= b2
    ensures PoolHistory(chain, pool, lo, b2) ==
            PoolHistory(chain, pool, lo, b1) + PoolHistory(chain, pool, NextBlock(lo, b1), b2)
    ensures Before(PoolHistory(chain, pool, lo, b1), PoolHistory(chain, pool, NextBlock(lo, b1), b2))
  {
    if lo <= b1 + 1 {
      HistorySplits(chain, pool, lo, b1 + 1, b2);
    } else {
      EmptyRange(chain, pool, lo, b1);
    }
  }

  lemma {:induction false} EmptyRange(chain: seq<Log>, pool: string, lo: int, hi: int)
    requires lo > hi
    ensures PoolHistory(chain, pool, lo, hi) == []
  {
    if chain == [] {
    } else {
      EmptyRange(chain[1..], pool, lo, hi);
    }
  }

  /** All Mints and then all Burns: the accumulated entries are the two parts of the
      history. */
  lemma {:induction false} EntriesAreParts(chain: seq<Log>, pool: string, lo: int, hi: int)
    ensures Entries(GetLogs(chain, Mint, lo, hi), pool) == Filter(IsMint(), PoolHistory(chain, pool, lo, hi))
    ensures Entries(GetLogs(chain, Burn, lo, hi), pool) == Filter(IsBurn(), PoolHistory(chain, pool, lo, hi))
  {
    if chain == [] {
    } else {
      EntriesAreParts(chain[1..], pool, lo, hi);
      var e := chain[0];
      var m, b := GetLogs(chain[1..], Mint, lo, hi), GetLogs(chain[1..], Burn, lo, hi);
      assert ([e] + m)[1..] == m && ([e] + b)[1..] == b;
      FilterCons(IsMint(), ChangeOf(e), PoolHistory(chain[1..], pool, lo, hi));
      FilterCons(IsBurn(), ChangeOf(e), PoolHistory(chain[1..], pool, lo, hi));
    }
  }

  lemma {:induction false} HistoryLength(chain: seq<Log>, pool: string, lo: int, hi: int)
    ensures |PoolHistory(chain, pool, lo, hi)| <= |chain|
  {
    if chain == [] {
    } else {
      HistoryLength(chain[1..], pool, lo, hi);
    }
  }

  lemma {:induction false} PartsLength(s: seq<Change>)
    ensures |Filter(IsMint(), s)| + |Filter(IsBurn(), s)| <= |s|
  {
    if s == [] {
    } else {
      PartsLength(s[1..]);
    }
  }

  lemma PartsBounded(chain: seq<Log>, pool: string, lo: int, hi: int)
    requires ChainOk(chain)
    ensures var h := PoolHistory(chain, pool, lo, hi); Bounded(Filter(IsMint(), h) + Filter(IsBurn(), h))
  {
    HistoryLength(chain, pool, lo, hi);
    HistoryMembers(chain, pool, lo, hi);
    PartsLength(PoolHistory(chain, pool, lo, hi));
  }

  // ----- what one run does to the snapshot

  /** A known pool has its history of lo..hi replayed in the fetcher's order; another
      is left alone. */
  ghost predicate FetchedPool(prior: Snapshot, result: Snapshot, chain: seq<Log>, lo: int, hi: int,
                              lpFees: map<string, int>, p: string) {
    var replayed := ReplayOrder(PoolHistory(chain, p, lo, hi));
    && (p in result <==> p in prior || (p in lpFees && replayed != []))
    && LedgerOf(result, p) ==
         (if p in lpFees then Replay(LedgerOf(prior, p), SpacingOf(lpFees[p]), replayed) else LedgerOf(prior, p))
  }

  ghost predicate Fetched(prior: Snapshot, result: Snapshot, chain: seq<Log>, lo: int, hi: int,
                          lpFees: map<string, int>) {
    forall p :: FetchedPool(prior, result, chain, lo, hi, lpFees, p)
  }

  /** The first block of a scan that starts at lo, or after block b if that is later. */
  function NextBlock(lo: int, b: int): int {
    if b + 1 > lo then b + 1 else lo
  }

  function FirstBlock(file: Option<SnapshotFile>): int {
    if file.Some? then NextBlock(UNISWAPV3_START_BLOCK, file.value.block) else UNISWAPV3_START_BLOCK
  }

  function Loaded(file: Option<SnapshotFile>): Snapshot
  {
    if file.Some? then Load(file.value) else map[]
  }

  datatype Outcome =
    | SnapshotTooNew          // the assertion on the snapshot block fails
    | Unfinished              // the query budget ran out inside a retry loop
    | NoPoolLoaded            // `lp` is unbound: the pool files list no pool
    | UnknownFee              // KeyError in the tick spacing table; nothing is saved
    | Saved(file: SnapshotFile)

  method LoadFetcher(s: Snapshot) returns (f: Fetcher)
    ensures fresh(f) && fresh(f.helper) && fresh(f.Objects())
    ensures f.Valid() && f.View() == s
  {
    f := new Fetcher();
    var left := s.Keys;
    while left != {}
      invariant left <= s.Keys
      invariant f.Valid() && fresh(f.Objects())
      invariant f.View() == map p | p in s.Keys - left :: s[p]
    {
      var p :| p in left;
      assert p !in f.View();
      f.Add(p, s[p]);
      left := left - {p};
    }
  }

  method SnapshotOf(f: Fetcher) returns (s: Snapshot)
    requires f.Valid()
    ensures s == f.View()
  {
    s := map p | p in f.snapshot :: f.snapshot[p].Value();
  }

  /** The loop over the two event kinds. */
  method ScanKinds(chain: seq<Log>, start: int, newest: int, mints: Provider, burns: Provider, budget: nat)
    returns (done: bool, events: map<string, seq<Change>>, ghost minted: map<string, seq<Change>>)
    requires BlocksAscend(chain)
    ensures done <==> Run(Initial(start), newest, mints, budget).done && Run(Initial(start), newest, burns, budget).done
    ensures done ==> Appended(map[], minted, GetLogs(chain, Mint, start, newest))
    ensures done ==> Appended(minted, events, GetLogs(chain, Burn, start, newest))
  {
    var store := new EventStore();
    var m := store.FetchKind(chain, Mint, start, newest, mints, budget);
    minted := store.liquidityEvents;
    var b := store.FetchKind(chain, Burn, start, newest, burns, budget);
    done, events := m.done && b.done, store.liquidityEvents;
  }

  method Scan(chain: seq<Log>, start: int, newest: int, mints: Provider, burns: Provider, budget: nat)
    returns (done: bool, events: map<string, seq<Change>>)
    requires ChainOk(chain)
    ensures done <==> Run(Initial(start), newest, mints, budget).done && Run(Initial(start), newest, burns, budget).done
    ensures done ==> HoldsParts(events, chain, start, newest)
  {
    BlocksFromKeys(chain);
    ghost var minted;
    done, events, minted := ScanKinds(chain, start, newest, mints, burns, budget);
    if done {
      AccumulatedParts(minted, events, chain, start, newest);
    }
  }

  /** Replay and merge what the scan accumulated. */
  method MergeLoaded(prior: Snapshot, events: map<string, seq<Change>>, lpFees: map<string, int>)
    returns (ok: bool, result: Snapshot)
    requires forall p :: p in events ==> Bounded(events[p])
    ensures ok <==> forall p :: p in events && p in lpFees ==> lpFees[p] in TICKSPACING_BY_FEE
    ensures ok ==> result == Merged(prior, events, lpFees, events.Keys)
  {
    var fetcher := LoadFetcher(prior);
    ok := fetcher.MergeAll(events, lpFees);
    result := SnapshotOf(fetcher);
  }

  /** Every known pool with a replayed event has a fee of the tick spacing table. */
  ghost predicate FeesKnown(chain: seq<Log>, lo: int, hi: int, lpFees: map<string, int>) {
    forall p :: p in lpFees && ReplayOrder(PoolHistory(chain, p, lo, hi)) != [] ==> lpFees[p] in TICKSPACING_BY_FEE
  }

  lemma PoolsWithEvents(events: map<string, seq<Change>>, chain: seq<Log>, lo: int, hi: int, p: string)
    requires HoldsParts(events, chain, lo, hi)
    ensures p in events <==> ReplayOrder(PoolHistory(chain, p, lo, hi)) != []
  {
    var h := PoolHistory(chain, p, lo, hi);
    assert EntriesOf(events, p) == Filter(IsMint(), h) + Filter(IsBurn(), h);
    SortPerm(ChangeKey(), Filter(IsMint(), h) + Filter(IsBurn(), h));
  }

  lemma FeesOfEvents(events: map<string, seq<Change>>, chain: seq<Log>, lo: int, hi: int, lpFees: map<string, int>)
    requires HoldsParts(events, chain, lo, hi)
    ensures FeesKnown(chain, lo, hi, lpFees) <==>
            forall p :: p in events && p in lpFees ==> lpFees[p] in TICKSPACING_BY_FEE
  {
    forall p ensures p in events <==> ReplayOrder(PoolHistory(chain, p, lo, hi)) != [] {
      PoolsWithEvents(events, chain, lo, hi, p);
    }
  }

  lemma MergedSaved(prior: Snapshot, events: map<string, seq<Change>>, chain: seq<Log>, lo: int, hi: int,
                    lpFees: map<string, int>)
    requires HoldsParts(events, chain, lo, hi)
    ensures SavedRun(Save(Merged(prior, events, lpFees, events.Keys), hi), prior, chain, lo, hi, lpFees)
  {
    MergedIsFetched(prior, events, chain, lo, hi, lpFees);
    SavedWitness(Merged(prior, events, lpFees, events.Keys), prior, chain, lo, hi, lpFees);
  }

  lemma SavedWitness(result: Snapshot, prior: Snapshot, chain: seq<Log>, lo: int, hi: int, lpFees: map<string, int>)
    requires Fetched(prior, result, chain, lo, hi, lpFees)
    ensures SavedRun(Save(result, hi), prior, chain, lo, hi, lpFees)
  {
  }

  /** The file saves a snapshot fetched from prior. */
  ghost predicate SavedRun(file: SnapshotFile, prior: Snapshot, chain: seq<Log>, lo: int, hi: int,
                           lpFees: map<string, int>) {
    exists result :: file == Save(result, hi) && Fetched(prior, result, chain, lo, hi, lpFees)
  }

  /** f is written by a run that loads the file before, or finds none. */
  ghost predicate NextRun(before: Option<SnapshotFile>, f: SnapshotFile, chain: seq<Log>, fees: map<string, int>) {
    && (before.Some? ==> before.value.block < f.block)
    && SavedRun(f, Loaded(before), chain, FirstBlock(before), f.block, fees)
  }

  /** `main` for one chain. */
  method FetchLiquidity(file: Option<SnapshotFile>, chain: seq<Log>, newest: int, lpFees: map<string, int>,
                        mints: Provider, burns: Provider, budget: nat)
    returns (out: Outcome)
    requires ChainOk(chain)
    ensures out.SnapshotTooNew? <==> file.Some? && file.value.block >= newest
    ensures out.Unfinished? <==>
              (file.Some? ==> file.value.block < newest) &&
              !(Run(Initial(FirstBlock(file)), newest, mints, budget).done &&
                Run(Initial(FirstBlock(file)), newest, burns, budget).done)
    ensures out.NoPoolLoaded? ==> lpFees == map[]
    ensures out.UnknownFee? ==> lpFees != map[] && !FeesKnown(chain, FirstBlock(file), newest, lpFees)
    ensures out.Saved? ==> lpFees != map[] && FeesKnown(chain, FirstBlock(file), newest, lpFees)
    ensures out.Saved? ==> out.file.block == newest && NextRun(file, out.file, chain, lpFees)
  {
    if file.Some? && file.value.block >= newest {
      return SnapshotTooNew;
    }
    var start, prior := FirstBlock(file), Loaded(file);
    var done, events := Scan(chain, start, newest, mints, burns, budget);
    if !done {
      return Unfinished;
    }
    if lpFees == map[] {
      return NoPoolLoaded;
    }
    PartsAllBounded(events, chain, start, newest);
    FeesOfEvents(events, chain, start, newest, lpFees);
    var ok, result := MergeLoaded(prior, events, lpFees);
    if !ok {
      return UnknownFee;
    }
    MergedSaved(prior, events, chain, start, newest, lpFees);
    return Saved(Save(result, newest));
  }

  lemma BlocksFromKeys(chain: seq<Log>)
    requires ChainOk(chain)
    ensures BlocksAscend(chain)
  {
    forall i, j | 0 <= i < j < |chain| ensures chain[i].block <= chain[j].block {
      assert Le((chain[i].block, chain[i].tx), (chain[j].block, chain[j].tx));
    }
  }

  /** The store holds, for each pool with any, the mints and then the burns. */
  ghost predicate HoldsParts(events: map<string, seq<Change>>, chain: seq<Log>, lo: int, hi: int) {
    forall p ::
      var h := PoolHistory(chain, p, lo, hi);
      && EntriesOf(events, p) == Filter(IsMint(), h) + Filter(IsBurn(), h)
      && (p in events ==> events[p] != [])
  }

  lemma AccumulatedParts(minted: map<string, seq<Change>>, events: map<string, seq<Change>>, chain: seq<Log>, lo: int,
                         hi: int)
    requires Appended(map[], minted, GetLogs(chain, Mint, lo, hi))
    requires Appended(minted, events, GetLogs(chain, Burn, lo, hi))
    ensures HoldsParts(events, chain, lo, hi)
  {
    var ms, bs := GetLogs(chain, Mint, lo, hi), GetLogs(chain, Burn, lo, hi);
    AppendedJoin(map[], minted, events, ms, bs);
    forall p
      ensures var h := PoolHistory(chain, p, lo, hi); EntriesOf(events, p) == Filter(IsMint(), h) + Filter(IsBurn(), h)
      ensures p in events ==> events[p] != []
    {
      EntriesAreParts(chain, p, lo, hi);
      EntriesAppend(ms, bs, p);
      assert EntriesOf(events, p) == EntriesOf(map[], p) + Entries(ms + bs, p);
      assert p in events ==> Entries(ms + bs, p) != [];
    }
  }

  lemma PartsAllBounded(events: map<string, seq<Change>>, chain: seq<Log>, lo: int, hi: int)
    requires ChainOk(chain) && HoldsParts(events, chain, lo, hi)
    ensures forall p :: p in events ==> Bounded(events[p])
  {
    forall p | p in events ensures Bounded(events[p]) {
      PartsBounded(chain, p, lo, hi);
      var h := PoolHistory(chain, p, lo, hi);
      assert EntriesOf(events, p) == Filter(IsMint(), h) + Filter(IsBurn(), h);
    }
  }

  lemma MergedIsFetched(prior: Snapshot, events: map<string, seq<Change>>, chain: seq<Log>, lo: int, hi: int,
                        lpFees: map<string, int>)
    requires HoldsParts(events, chain, lo, hi)
    ensures Fetched(prior, Merged(prior, events, lpFees, events.Keys), chain, lo, hi, lpFees)
  {
    var result := Merged(prior, events, lpFees, events.Keys);
    forall p ensures FetchedPool(prior, result, chain, lo, hi, lpFees, p) {
      var h := PoolHistory(chain, p, lo, hi);
      var parts := Filter(IsMint(), h) + Filter(IsBurn(), h);
      assert EntriesOf(events, p) == parts && (p in events ==> events[p] != []);
      SortPerm(ChangeKey(), parts);
      assert ReplayOrder(h) == Sort(ChangeKey(), parts);
    }
  }
}
