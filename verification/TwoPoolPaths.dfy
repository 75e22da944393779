/** `arbs_2pool.py`: two-pool cycles found through an index from token to pools. */
module TwoPoolPaths {
  import opened Seqs
  import opened Pools
  import opened PathFiles

  function HoldsToken(t: string): Pool -> bool {
    (p: Pool) => Holds(p, t)
  }

  function OtherToken(p: Pool, t: string): string {
    if p.token0 == t then p.token1 else p.token0
  }

  /** The second pools for a first pool a. */
  function Closing(a: Pool, w: string): Pool -> bool {
    (b: Pool) => Holds(b, w) && b.address != a.address
  }

  function PairWith(a: Pool, bs: seq<Pool>): seq<seq<Pool>> {
    if bs == [] then [] else [[a, bs[0]]] + PairWith(a, bs[1..])
  }

  function ClosingPools(pools: seq<Pool>, a: Pool, w: string): seq<Pool> {
    Filter(Closing(a, w), Filter(HoldsToken(OtherToken(a, w)), pools))
  }

  /** The cycles in the order the loops emit them. */
  function Cycles(firsts: seq<Pool>, pools: seq<Pool>, w: string): seq<seq<Pool>> {
    if firsts == [] then []
    else PairWith(firsts[0], ClosingPools(pools, firsts[0], w)) +
         Cycles(firsts[1..], pools, w)
  }

  function TwoPoolCycles(pools: seq<Pool>, w: string): seq<seq<Pool>> {
    Cycles(Filter(HoldsToken(w), pools), pools, w)
  }

  /** `{**v2_lp_data, **v3_lp_data}`, each dictionary loaded from its files. */
  function LoadedPools(v2: seq<Pool>, v3: seq<Pool>): seq<Pool> {
    PutAll(PutAll([], v2), PutAll([], v3))
  }

  // ----- the index and the loops

  function Lookup(index: map<string, seq<Pool>>, t: string): seq<Pool> {
    if t in index then index[t] else []
  }

  method AddToIndex(index: map<string, seq<Pool>>, pool: Pool) returns (r: map<string, seq<Pool>>)
    requires PoolOk(pool)
    ensures forall t :: Lookup(r, t) == Lookup(index, t) + (if Holds(pool, t) then [pool] else [])
  {
    r := index;
    if pool.token0 !in r {
      r := r[pool.token0 := []];
    }
    if pool.token1 !in r {
      r := r[pool.token1 := []];
    }
    r := r[pool.token0 := r[pool.token0] + [pool]];
    r := r[pool.token1 := r[pool.token1] + [pool]];
  }

  /** `token_to_pools`, filled by in-place appends. */
  method BuildIndex(pools: seq<Pool>) returns (index: map<string, seq<Pool>>)
    requires forall p :: p in pools ==> PoolOk(p)
    ensures forall t :: Lookup(index, t) == Filter(HoldsToken(t), pools)
  {
    index := map[];
    for i := 0 to |pools|
      invariant forall t :: Lookup(index, t) == Filter(HoldsToken(t), pools[..i])
    {
      index := AddToIndex(index, pools[i]);
      assert pools[..i + 1] == pools[..i] + [pools[i]];
      forall t ensures Filter(HoldsToken(t), pools[..i + 1]) ==
                       Filter(HoldsToken(t), pools[..i]) + (if Holds(pools[i], t) then [pools[i]] else []) {
        FilterAppend(HoldsToken(t), pools[..i], [pools[i]]);
      }
    }
    assert pools[..|pools|] == pools;
  }

  lemma {:induction false} PairWithMembers(a: Pool, bs: seq<Pool>, c: seq<Pool>)
    ensures c in PairWith(a, bs) <==> |c| == 2 && c[0] == a && c[1] in bs
  {
    if bs == [] {
    } else {
      PairWithMembers(a, bs[1..], c);
      if |c| == 2 && c[0] == a && c[1] == bs[0] {
        assert c == [a, bs[0]];
      }
    }
  }

  lemma {:induction false} PairWithAppend(a: Pool, x: seq<Pool>, y: seq<Pool>)
    ensures PairWith(a, x + y) == PairWith(a, x) + PairWith(a, y)
  {
    if x == [] {
      assert x + y == y;
    } else {
      assert (x + y)[1..] == x[1..] + y;
      PairWithAppend(a, x[1..], y);
    }
  }

  lemma PairOver(c: seq<Pool>, pools: seq<Pool>)
    requires |c| == 2 && c[0] in pools && c[1] in pools
    ensures forall p :: p in c ==> p in pools
  {
  }

  lemma TwoElements(c: seq<Pool>)
    requires |c| == 2
    ensures c == [c[0], c[1]]
  {
  }

  lemma PairWithOk(a: Pool, bs: seq<Pool>)
    requires PoolOk(a) && forall b :: b in bs ==> PoolOk(b)
    ensures AllOk(PairWith(a, bs))
  {
    forall c | c in PairWith(a, bs) ensures CycleOk(c) {
      PairWithMembers(a, bs, c);
      PairOver(c, [a] + bs);
    }
  }

  /** The inner loop over `token_to_pools[other_token]`. */
  method AddClosing(keccak: Hash, paths: map<string, ArbPath>, a: Pool, seconds: seq<Pool>, w: string)
    returns (r: map<string, ArbPath>)
    requires PoolOk(a) && forall b :: b in seconds ==> PoolOk(b)
    ensures AllOk(PairWith(a, Filter(Closing(a, w), seconds)))
    ensures r == AddAll(keccak, paths, PairWith(a, Filter(Closing(a, w), seconds)))
  {
    PairWithOk(a, Filter(Closing(a, w), seconds));
    r := paths;
    for i := 0 to |seconds|
      invariant AllOk(PairWith(a, Filter(Closing(a, w), seconds[..i])))
      invariant r == AddAll(keccak, paths, PairWith(a, Filter(Closing(a, w), seconds[..i])))
    {
      var b := seconds[i];
      ghost var before := r;
      if b.token0 == w || b.token1 == w {
        if b.address != a.address {
          AddressPair(a, b);
          r := r[Id(keccak, [a, b]) := PathOf(keccak, [a, b])];
        }
      }
      AddNextClosing(keccak, paths, before, a, seconds, i, w);
    }
    assert seconds[..|seconds|] == seconds;
  }

  lemma AddressPair(a: Pool, b: Pool)
    requires PoolOk(a) && PoolOk(b)
    ensures CycleOk([a, b])
  {
  }

  lemma AddNextClosing(keccak: Hash, paths: map<string, ArbPath>, before: map<string, ArbPath>, a: Pool,
                       seconds: seq<Pool>, i: nat, w: string)
    requires i < |seconds| && PoolOk(a) && PoolOk(seconds[i]) && AllOk(PairWith(a, Filter(Closing(a, w), seconds[..i])))
    requires before == AddAll(keccak, paths, PairWith(a, Filter(Closing(a, w), seconds[..i])))
    ensures CycleOk([a, seconds[i]]) && AllOk(PairWith(a, Filter(Closing(a, w), seconds[..i + 1])))
    ensures AddAll(keccak, paths, PairWith(a, Filter(Closing(a, w), seconds[..i + 1]))) ==
            if Closing(a, w)(seconds[i])
            then before[Id(keccak, [a, seconds[i]]) := PathOf(keccak, [a, seconds[i]])] else before
  {
    NextClosing(a, seconds, i, w);
    AddressPair(a, seconds[i]);
    var done := PairWith(a, Filter(Closing(a, w), seconds[..i]));
    if Closing(a, w)(seconds[i]) {
      AddAllOne(keccak, before, [a, seconds[i]]);
      AddAllAppend(keccak, paths, done, [[a, seconds[i]]]);
    } else {
      assert done + [] == done;
    }
  }

  lemma NextClosing(a: Pool, seconds: seq<Pool>, i: nat, w: string)
    requires i < |seconds|
    ensures PairWith(a, Filter(Closing(a, w), seconds[..i + 1])) ==
            PairWith(a, Filter(Closing(a, w), seconds[..i])) +
            (if Closing(a, w)(seconds[i]) then [[a, seconds[i]]] else [])
  {
    assert seconds[..i + 1] == seconds[..i] + [seconds[i]];
    FilterAppend(Closing(a, w), seconds[..i], [seconds[i]]);
    PairWithAppend(a, Filter(Closing(a, w), seconds[..i]), Filter(Closing(a, w), [seconds[i]]));
  }

  lemma {:induction false} CyclesAppend(x: seq<Pool>, y: seq<Pool>, pools: seq<Pool>, w: string)
    ensures Cycles(x + y, pools, w) == Cycles(x, pools, w) + Cycles(y, pools, w)
  {
    if x == [] {
      assert x + y == y;
    } else {
      assert (x + y)[1..] == x[1..] + y;
      CyclesAppend(x[1..], y, pools, w);
    }
  }

  lemma {:induction false} CyclesMembers(firsts: seq<Pool>, pools: seq<Pool>, w: string, c: seq<Pool>)
    ensures c in Cycles(firsts, pools, w) <==>
            |c| == 2 && c[0] in firsts && c[1] in pools && Holds(c[1], OtherToken(c[0], w)) &&
            Holds(c[1], w) && c[0].address != c[1].address
  {
    if firsts == [] {
    } else {
      var a := firsts[0];
      PairWithMembers(a, ClosingPools(pools, a, w), c);
      CyclesMembers(firsts[1..], pools, w, c);
    }
  }

  lemma CyclesOk(firsts: seq<Pool>, pools: seq<Pool>, w: string)
    requires forall p :: p in pools ==> PoolOk(p)
    requires forall p :: p in firsts ==> p in pools
    ensures AllOk(Cycles(firsts, pools, w)) && Over(pools, Cycles(firsts, pools, w))
  {
    forall c | c in Cycles(firsts, pools, w) ensures CycleOk(c) && forall p :: p in c ==> p in pools {
      CyclesMembers(firsts, pools, w, c);
      PairOver(c, pools);
    }
  }

  /** `main` of the 2-pool builder for one chain. */
  method BuildTwoPoolPaths(keccak: Hash, v2: seq<Pool>, v3: seq<Pool>, w: string) returns (paths: map<string, ArbPath>)
    requires forall p :: p in v2 + v3 ==> PoolOk(p)
    requires Consistent(v2 + v3)
    ensures var pools := LoadedPools(v2, v3);
            AllOk(TwoPoolCycles(pools, w)) && paths == AddAll(keccak, map[], TwoPoolCycles(pools, w))
  {
    var pools := PutAll(PutAll([], v2), PutAll([], v3));
    MergedPools(v2, v3);
    var index := BuildIndex(pools);
    var firsts := Lookup(index, w);
    CyclesOk(firsts, pools, w);
    paths := map[];
    for i := 0 to |firsts|
      invariant AllOk(Cycles(firsts[..i], pools, w))
      invariant paths == AddAll(keccak, map[], Cycles(firsts[..i], pools, w))
    {
      var a := firsts[i];
      assert a in firsts;
      var other := if a.token0 == w then a.token1 else a.token0;
      ghost var before := paths;
      paths := AddClosing(keccak, paths, a, Lookup(index, other), w);
      NextFirst(keccak, before, firsts, i, pools, w);
    }
    assert firsts[..|firsts|] == firsts;
  }

  lemma NextFirst(keccak: Hash, before: map<string, ArbPath>, firsts: seq<Pool>, i: nat, pools: seq<Pool>, w: string)
    requires i < |firsts| && AllOk(Cycles(firsts[..i], pools, w))
    requires before == AddAll(keccak, map[], Cycles(firsts[..i], pools, w))
    requires AllOk(PairWith(firsts[i], ClosingPools(pools, firsts[i], w)))
    ensures AllOk(Cycles(firsts[..i + 1], pools, w))
    ensures AddAll(keccak, map[], Cycles(firsts[..i + 1], pools, w)) ==
            AddAll(keccak, before, PairWith(firsts[i], ClosingPools(pools, firsts[i], w)))
  {
    CyclesSnoc(firsts, i, pools, w);
    AddAllAppend(keccak, map[], Cycles(firsts[..i], pools, w),
      PairWith(firsts[i], ClosingPools(pools, firsts[i], w)));
  }

  lemma CyclesSnoc(firsts: seq<Pool>, i: nat, pools: seq<Pool>, w: string)
    requires i < |firsts|
    ensures Cycles(firsts[..i + 1], pools, w) == Cycles(firsts[..i], pools, w) +
              PairWith(firsts[i], ClosingPools(pools, firsts[i], w))
  {
    assert firsts[..i + 1] == firsts[..i] + [firsts[i]];
    CyclesAppend(firsts[..i], [firsts[i]], pools, w);
    assert Cycles([firsts[i]][1..], pools, w) == [];
  }

  lemma MergedPools(v2: seq<Pool>, v3: seq<Pool>)
    requires Consistent(v2 + v3)
    ensures var pools := LoadedPools(v2, v3);
            DistinctAddresses(pools) && forall p :: p in pools <==> p in v2 || p in v3
  {
    assert forall p :: p in [] + v2 ==> p in v2 + v3;
    PutAllMembers([], v2);
    assert forall p :: p in [] + v3 ==> p in v2 + v3;
    PutAllMembers([], v3);
    var d2, d3 := PutAll([], v2), PutAll([], v3);
    assert forall p :: p in d2 + d3 ==> p in v2 + v3;
    PutAllMembers(d2, d3);
  }

  // ----- exactly the naive double loop

  /** An ordered pair of different pools that both trade W against one other token. */
  ghost predicate IsTwoCycle(v2: seq<Pool>, v3: seq<Pool>, w: string, a: Pool, b: Pool) {
    && a in v2 + v3 && b in v2 + v3 && a.address != b.address
    && exists x :: x != w && Pairs(a, w, x) && Pairs(b, w, x)
  }

  lemma CycleIffTwoCycle(v2: seq<Pool>, v3: seq<Pool>, w: string, c: seq<Pool>)
    requires Consistent(v2 + v3) && forall p :: p in v2 + v3 ==> PoolOk(p)
    ensures c in TwoPoolCycles(LoadedPools(v2, v3), w) <==> |c| == 2 && IsTwoCycle(v2, v3, w, c[0], c[1])
  {
    MergedPools(v2, v3);
    var pools := LoadedPools(v2, v3);
    CyclesMembers(Filter(HoldsToken(w), pools), pools, w, c);
    if |c| == 2 && c[0] in v2 + v3 && c[1] in v2 + v3 {
      TwoCycleTokens(c[0], c[1], w);
    }
  }

  lemma TwoCycleTokens(a: Pool, b: Pool, w: string)
    requires PoolOk(a) && PoolOk(b)
    ensures (Holds(a, w) && Holds(b, OtherToken(a, w)) && Holds(b, w)) <==>
            exists x :: x != w && Pairs(a, w, x) && Pairs(b, w, x)
  {
    if Holds(a, w) && Holds(b, OtherToken(a, w)) && Holds(b, w) {
      var x := OtherToken(a, w);
      assert x != w && Pairs(a, w, x) && Pairs(b, w, x);
    }
  }

  lemma CyclesReady(keccak: Hash, v2: seq<Pool>, v3: seq<Pool>, w: string) returns (cycles: seq<seq<Pool>>)
    requires Injective(keccak) && Consistent(v2 + v3) && forall p :: p in v2 + v3 ==> PoolOk(p)
    ensures cycles == TwoPoolCycles(LoadedPools(v2, v3), w) && AllOk(cycles) && Over(v2 + v3, cycles)
    ensures Holding(keccak, AddAll(keccak, map[], cycles), cycles)
  {
    MergedPools(v2, v3);
    var pools := LoadedPools(v2, v3);
    CyclesOk(Filter(HoldsToken(w), pools), pools, w);
    cycles := TwoPoolCycles(pools, w);
    FileContents(keccak, v2 + v3, cycles);
  }

  /** Complete: every two-pool cycle is filed under its own id. */
  lemma TwoPoolFileIsComplete(keccak: Hash, v2: seq<Pool>, v3: seq<Pool>, w: string, a: Pool, b: Pool)
    requires Injective(keccak) && Consistent(v2 + v3) && forall p :: p in v2 + v3 ==> PoolOk(p)
    requires IsTwoCycle(v2, v3, w, a, b)
    ensures AllOk(TwoPoolCycles(LoadedPools(v2, v3), w)) && CycleOk([a, b])
    ensures var f := AddAll(keccak, map[], TwoPoolCycles(LoadedPools(v2, v3), w));
            Id(keccak, [a, b]) in f && f[Id(keccak, [a, b])] == PathOf(keccak, [a, b])
  {
    var cycles := CyclesReady(keccak, v2, v3, w);
    CycleIffTwoCycle(v2, v3, w, [a, b]);
    assert [a, b] in cycles;
  }

  /** Sound: every entry is the path of a two-pool cycle. */
  lemma TwoPoolFileIsSound(keccak: Hash, v2: seq<Pool>, v3: seq<Pool>, w: string, id: string) returns (a: Pool, b: Pool)
    requires Injective(keccak) && Consistent(v2 + v3) && forall p :: p in v2 + v3 ==> PoolOk(p)
    requires AllOk(TwoPoolCycles(LoadedPools(v2, v3), w))
    requires id in AddAll(keccak, map[], TwoPoolCycles(LoadedPools(v2, v3), w))
    ensures IsTwoCycle(v2, v3, w, a, b) && CycleOk([a, b]) && id == Id(keccak, [a, b])
    ensures AddAll(keccak, map[], TwoPoolCycles(LoadedPools(v2, v3), w))[id] == PathOf(keccak, [a, b])
  {
    var cycles := CyclesReady(keccak, v2, v3, w);
    var c := EntryOf(keccak, AddAll(keccak, map[], cycles), cycles, id);
    CycleIffTwoCycle(v2, v3, w, c);
    a, b := c[0], c[1];
    TwoElements(c);
  }

  /** The file, entry by entry: id, pools by address and path of every two-pool cycle,
      and nothing else. */
  lemma TwoPoolFileIs(keccak: Hash, v2: seq<Pool>, v3: seq<Pool>, w: string, id: string, e: ArbPath)
    requires Injective(keccak) && Consistent(v2 + v3) && forall p :: p in v2 + v3 ==> PoolOk(p)
    ensures AllOk(TwoPoolCycles(LoadedPools(v2, v3), w))
    ensures var f := AddAll(keccak, map[], TwoPoolCycles(LoadedPools(v2, v3), w));
            id in f && f[id] == e <==>
            exists a, b :: IsTwoCycle(v2, v3, w, a, b) && e == TwoPoolEntry(keccak, a, b) && e.id == id
  {
    var cycles := CyclesReady(keccak, v2, v3, w);
    var f := AddAll(keccak, map[], cycles);
    if id in f && f[id] == e {
      var a, b := TwoPoolFileIsSound(keccak, v2, v3, w, id);
      PathOfTwo(keccak, a, b);
    }
    if a, b :| IsTwoCycle(v2, v3, w, a, b) && e == TwoPoolEntry(keccak, a, b) && e.id == id {
      TwoPoolFileIsComplete(keccak, v2, v3, w, a, b);
      PathOfTwo(keccak, a, b);
    }
  }

  /** Closed under reversal. */
  lemma TwoCycleReverses(v2: seq<Pool>, v3: seq<Pool>, w: string, a: Pool, b: Pool)
    ensures IsTwoCycle(v2, v3, w, a, b) <==> IsTwoCycle(v2, v3, w, b, a)
  {
  }

  /** Repeating pools in the input lists, or reordering them, changes nothing. */
  lemma RepeatsDoNotMatter(keccak: Hash, v2: seq<Pool>, v3: seq<Pool>, u2: seq<Pool>, u3: seq<Pool>, w: string)
    requires Injective(keccak) && Consistent(v2 + v3) && forall p :: p in v2 + v3 ==> PoolOk(p)
    requires forall p :: p in v2 + v3 <==> p in u2 + u3
    ensures Consistent(u2 + u3)
    ensures var a, b := TwoPoolCycles(LoadedPools(v2, v3), w), TwoPoolCycles(LoadedPools(u2, u3), w);
            AllOk(a) && AllOk(b) && AddAll(keccak, map[], a) == AddAll(keccak, map[], b)
  {
    var a := CyclesReady(keccak, v2, v3, w);
    var b := CyclesReady(keccak, u2, u3, w);
    forall c ensures c in a <==> c in b {
      CycleIffTwoCycle(v2, v3, w, c);
      CycleIffTwoCycle(u2, u3, w, c);
    }
    OverSame(v2 + v3, u2 + u3, b);
    SameCyclesSameFile(keccak, v2 + v3, a, b);
  }

  lemma OverSame(p: seq<Pool>, q: seq<Pool>, cycles: seq<seq<Pool>>)
    requires Over(q, cycles) && forall x :: x in q ==> x in p
    ensures Over(p, cycles)
  {
  }
}
