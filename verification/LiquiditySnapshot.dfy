/** `liquidity_fetcher.main`: replay the accumulated events of every known pool into
    its previous snapshot, and save.  Snapshot dictionaries are shared, mutable
    objects: the helper works on the very dictionaries of the snapshot. */
module LiquiditySnapshot {
  import opened StableSort
  import opened TickLedger
  import opened Reordering
  import opened SnapshotFiles

  const TICKSPACING_BY_FEE: map<int, int> :=
    map[100 := 1, 200 := 4, 300 := 6, 400 := 8, 500 := 10, 2500 := 50, 3000 := 60, 10000 := 200]

  function SpacingOf(fee: int): (spacing: int)
    ensures spacing > 0
  {
    if fee in TICKSPACING_BY_FEE then TICKSPACING_BY_FEE[fee] else 1
  }

  function LedgerOf(s: Snapshot, pool: string): Ledger {
    if pool in s then s[pool] else EMPTY
  }

  /** Amounts are uint128 and no pool has 2^128 events. */
  predicate Bounded(events: seq<Change>) {
    |events| < TWO_TO_128 && forall e :: e in events ==> -TWO_TO_128 < e.delta < TWO_TO_128
  }

  // ----- the mutable objects

  /** One pool's `tick_data` and `tick_bitmap` dictionaries. */
  class PoolMaps {
    var tickData: map<int, Tick>
    var tickBitmap: map<int, set<int>>

    constructor ()
      ensures Value() == EMPTY
    {
      tickData, tickBitmap := map[], map[];
    }

    function Value(): Ledger
      reads this
    {
      Ledger(tickData, tickBitmap)
    }

    /** `dict.update` on both dictionaries. */
    method Update(other: PoolMaps)
      modifies this
      ensures Value() == Ledger(old(tickData) + old(other.tickData), old(tickBitmap) + old(other.tickBitmap))
    {
      tickBitmap := tickBitmap + other.tickBitmap;
      tickData := tickData + other.tickData;
    }
  }

  /** The one reused MockV3LiquidityPool. */
  class LpHelper {
    var maps: PoolMaps
    var liquidity: int
    var tickSpacing: int

    constructor ()
      ensures fresh(maps)
    {
      maps := new PoolMaps();
      liquidity, tickSpacing := 0, 1;
    }

    /** The library call, which mutates the dictionaries in place and asserts
        that the in-range liquidity stays nonnegative. */
    method ExternalUpdate(e: Change)
      requires tickSpacing > 0 && LiquidityAfter(liquidity, [e]) >= 0
      modifies this`liquidity, maps
      ensures maps.Value() == Apply(old(maps.Value()), tickSpacing, e)
      ensures liquidity == LiquidityAfter(old(liquidity), [e])
    {
      var l := Apply(maps.Value(), tickSpacing, e);
      maps.tickData, maps.tickBitmap := l.ticks, l.words;
      if e.lower <= 0 < e.upper {
        liquidity := liquidity + e.delta;
      }
    }

    /** The fields that are reassigned for each pool. */
    method Start(maps: PoolMaps, tickSpacing: int)
      modifies this
      ensures this.maps == maps && this.tickSpacing == tickSpacing && liquidity == TWO_TO_256
    {
      this.maps := maps;
      this.tickSpacing := tickSpacing;
      liquidity := TWO_TO_256;
    }

    method ReplaySorted(events: seq<Change>)
      requires tickSpacing > 0 && liquidity == TWO_TO_256 && Bounded(events)
      modifies this`liquidity, maps
      ensures maps.Value() == Replay(old(maps.Value()), tickSpacing, Sort(ChangeKey(), events))
    {
      SortPerm(ChangeKey(), events);
      ReplayAll(Sort(ChangeKey(), events));
    }

    method ReplayAll(sorted: seq<Change>)
      requires tickSpacing > 0 && liquidity == TWO_TO_256 && Bounded(sorted)
      modifies this`liquidity, maps
      ensures maps.Value() == Replay(old(maps.Value()), tickSpacing, sorted)
    {
      ghost var prior := maps.Value();
      for i := 0 to |sorted|
        invariant maps.Value() == Replay(prior, tickSpacing, sorted[..i])
        invariant liquidity == LiquidityAfter(TWO_TO_256, sorted[..i])
      {
        assert sorted[..i + 1] == sorted[..i] + [sorted[i]];
        LiquidityAppend(TWO_TO_256, sorted[..i], [sorted[i]]);
        LiquidityHeadroom(sorted, i + 1);
        ReplayAppend(prior, tickSpacing, sorted[..i], [sorted[i]]);
        ExternalUpdate(sorted[i]);
      }
      assert sorted[..|sorted|] == sorted;
    }
  }

  lemma SetEntry(before: Snapshot, after: Snapshot, pool: string, l: Ledger)
    requires after.Keys == before.Keys + {pool} && after[pool] == l
    requires forall p :: p in before && p != pool ==> after[p] == before[p]
    ensures after == before[pool := l]
  {
  }

  lemma {:induction false} LiquidityAppend(start: int, a: seq<Change>, b: seq<Change>)
    ensures LiquidityAfter(start, a + b) == LiquidityAfter(LiquidityAfter(start, a), b)
    decreases |a|
  {
    if a == [] {
      assert a + b == b;
    } else {
      assert (a + b)[1..] == a[1..] + b;
      LiquidityAppend(if a[0].lower <= 0 < a[0].upper then start + a[0].delta else start, a[1..], b);
    }
  }

  class Fetcher {
    var snapshot: map<string, PoolMaps>
    const helper: LpHelper

    constructor ()
      ensures Valid() && snapshot == map[] && fresh(helper)
    {
      snapshot := map[];
      helper := new LpHelper();
    }

    ghost function Objects(): set<PoolMaps>
      reads this
    {
      set p | p in snapshot :: snapshot[p]
    }

    /** Different pools have different dictionaries. */
    ghost predicate Valid()
      reads this
    {
      forall p, q :: p in snapshot && q in snapshot && p != q ==> snapshot[p] != snapshot[q]
    }

    ghost function View(): Snapshot
      reads this, Objects()
    {
      map p | p in snapshot :: snapshot[p].Value()
    }

    /** One turn of the per-pool loop.  A known pool's dictionaries are aliased by the
        helper, so the closing `update` merges them with themselves and cannot bring
        a removed tick back. */
    method MergePool(pool: string, fee: int, events: seq<Change>)
      requires Valid() && Bounded(events) && fee in TICKSPACING_BY_FEE
      modifies this, helper, Objects()
      ensures Valid()
      ensures View() ==
              old(View())[pool := Replay(LedgerOf(old(View()), pool), SpacingOf(fee), Sort(ChangeKey(), events))]
      ensures forall m :: m in Objects() ==> m in old(Objects()) || fresh(m)
    {
      ghost var prior := View();
      var maps := ReplayPool(pool, fee, events);
      StoreUpdate(pool, maps);
      SetEntry(prior, View(), pool, snapshot[pool].Value());
    }

    /** Replays into the pool's previous dictionaries themselves. */
    method ReplayPool(pool: string, fee: int, events: seq<Change>) returns (maps: PoolMaps)
      requires Valid() && Bounded(events) && fee in TICKSPACING_BY_FEE
      modifies helper, Objects()
      ensures if pool in snapshot then maps == snapshot[pool] else fresh(maps)
      ensures maps.Value() == Replay(LedgerOf(old(View()), pool), SpacingOf(fee), Sort(ChangeKey(), events))
      ensures forall p :: p in snapshot && p != pool ==> snapshot[p].Value() == old(snapshot[p].Value())
    {
      maps := Previous(pool);
      ghost var prior := maps.Value();
      assert prior == LedgerOf(old(View()), pool);
      helper.Start(maps, TICKSPACING_BY_FEE[fee]);
      helper.ReplaySorted(events);
    }

    /** A pool of a loaded file. */
    method Add(pool: string, l: Ledger)
      requires Valid() && pool !in snapshot
      modifies this
      ensures Valid() && View() == old(View())[pool := l]
      ensures forall m :: m in Objects() ==> m in old(Objects()) || fresh(m)
    {
      ghost var prior := View();
      var maps := new PoolMaps();
      maps.tickData, maps.tickBitmap := l.ticks, l.words;
      snapshot := snapshot[pool := maps];
      SetEntry(prior, View(), pool, l);
    }

    /** The previous dictionaries of a pool, or fresh ones. */
    method Previous(pool: string) returns (maps: PoolMaps)
      ensures if pool in snapshot then maps == snapshot[pool] else fresh(maps) && maps.Value() == EMPTY
    {
      if pool in snapshot {
        maps := snapshot[pool];
      } else {
        maps := new PoolMaps();
      }
    }

    /** The closing `update`s, into the pool's entry, created empty if missing. */
    method StoreUpdate(pool: string, maps: PoolMaps)
      requires Valid()
      requires if pool in snapshot then maps == snapshot[pool] else maps !in Objects()
      modifies this, maps
      ensures Valid() && pool in snapshot && snapshot[pool].Value() == old(maps.Value())
      ensures snapshot.Keys == old(snapshot).Keys + {pool}
      ensures forall p :: p in old(snapshot) ==> snapshot[p] == old(snapshot)[p]
      ensures forall p :: p in old(snapshot) && p != pool ==> snapshot[p].Value() == old(snapshot[p].Value())
      ensures pool !in old(snapshot) ==> fresh(snapshot[pool])
      ensures forall m :: m in Objects() ==> m in old(Objects()) || fresh(m)
    {
      if pool !in snapshot {
        var entry := new PoolMaps();
        snapshot := snapshot[pool := entry];
        entry.Update(maps);
        assert map[] + maps.tickData == maps.tickData && map[] + maps.tickBitmap == maps.tickBitmap;
      } else {
        var entry := snapshot[pool];
        entry.Update(maps);
        assert old(maps.tickData) + old(maps.tickData) == old(maps.tickData);
        assert old(maps.tickBitmap) + old(maps.tickBitmap) == old(maps.tickBitmap);
      }
    }

    /** The loop over `liquidity_events.keys()`.  Pools that are not in `lp_data` are
        skipped; an unknown fee raises KeyError before anything is saved. */
    method MergeAll(events: map<string, seq<Change>>, lpFees: map<string, int>) returns (ok: bool)
      requires Valid() && forall p :: p in events ==> Bounded(events[p])
      modifies this, helper, Objects()
      ensures Valid()
      ensures ok <==> forall p :: p in events && p in lpFees ==> lpFees[p] in TICKSPACING_BY_FEE
      ensures ok ==> View() == Merged(old(View()), events, lpFees, events.Keys)
    {
      var left := events.Keys;
      ghost var prior := View();
      while left != {}
        invariant left <= events.Keys
        invariant Valid()
        invariant forall m :: m in Objects() ==> m in old(Objects()) || fresh(m)
        invariant forall p :: p in events && p in lpFees && p !in left ==> lpFees[p] in TICKSPACING_BY_FEE
        invariant View() == Merged(prior, events, lpFees, events.Keys - left)
      {
        var pool :| pool in left;
        ghost var done := events.Keys - left;
        if pool in lpFees {
          if lpFees[pool] !in TICKSPACING_BY_FEE {
            return false;
          }
          MergePool(pool, lpFees[pool], events[pool]);
        }
        MergedGrows(prior, events, lpFees, done, pool);
        left := left - {pool};
        assert events.Keys - left == done + {pool};
      }
      assert events.Keys - left == events.Keys;
      return true;
    }
  }

  /** The snapshot after merging the events of the pools in done. */
  ghost function Merged(prior: Snapshot, events: map<string, seq<Change>>, lpFees: map<string, int>,
                        done: set<string>): Snapshot
    requires done <= events.Keys
  {
    map p | p in prior.Keys + (done * lpFees.Keys) ::
      if p in done * lpFees.Keys
      then Replay(LedgerOf(prior, p), SpacingOf(lpFees[p]), Sort(ChangeKey(), events[p]))
      else LedgerOf(prior, p)
  }

  lemma MergedGrows(prior: Snapshot, events: map<string, seq<Change>>, lpFees: map<string, int>, done: set<string>,
                    pool: string)
    requires done <= events.Keys && pool in events && pool !in done
    ensures Merged(prior, events, lpFees, done + {pool}) ==
            if pool !in lpFees then Merged(prior, events, lpFees, done)
            else Merged(prior, events, lpFees, done)
                   [pool := Replay(LedgerOf(prior, pool), SpacingOf(lpFees[pool]), Sort(ChangeKey(), events[pool]))]
    ensures LedgerOf(Merged(prior, events, lpFees, done), pool) == LedgerOf(prior, pool)
  {
  }
}
