/** How many paths the 2-pool builder files. */
module TwoPoolCount {
  import opened Seqs
  import opened Pools
  import opened PathFiles
  import opened TwoPoolPaths

  function PairsOf(w: string, x: string): Pool -> bool {
    (p: Pool) => Pairs(p, w, x)
  }

  /** The number of W-X pools. */
  function PairCount(pools: seq<Pool>, w: string, x: string): nat {
    |Filter(PairsOf(w, x), pools)|
  }

  /** Over the tokens, n (n - 1). */
  function CountOver(tokens: seq<string>, pools: seq<Pool>, w: string): int {
    if tokens == [] then 0
    else PairCount(pools, w, tokens[0]) * (PairCount(pools, w, tokens[0]) - 1) + CountOver(tokens[1..], pools, w)
  }

  /** Over the first pools, the choices of a second. */
  function CountFirsts(firsts: seq<Pool>, pools: seq<Pool>, w: string): int {
    if firsts == [] then 0
    else PairCount(pools, w, OtherToken(firsts[0], w)) - 1 + CountFirsts(firsts[1..], pools, w)
  }

  function NotAddress(a: Pool, w: string, x: string): Pool -> bool {
    (p: Pool) => Pairs(p, w, x) && p.address != a.address
  }

  lemma {:induction false} WithoutSelf(pools: seq<Pool>, a: Pool, w: string, x: string)
    requires DistinctAddresses(pools) && a in pools && Pairs(a, w, x)
    ensures |Filter(NotAddress(a, w, x), pools)| == PairCount(pools, w, x) - 1
  {
    if pools[0] == a {
      forall p | p in pools[1..] ensures NotAddress(a, w, x)(p) == PairsOf(w, x)(p) {
        var i :| 0 < i < |pools| && pools[i] == p;
      }
      FilterCong(NotAddress(a, w, x), PairsOf(w, x), pools[1..]);
    } else {
      var i :| 0 < i < |pools| && pools[i] == a;
      WithoutSelf(pools[1..], a, w, x);
    }
  }

  lemma SecondsCount(pools: seq<Pool>, a: Pool, w: string)
    requires DistinctAddresses(pools) && a in pools && Holds(a, w) && forall p :: p in pools ==> PoolOk(p)
    ensures |ClosingPools(pools, a, w)| == PairCount(pools, w, OtherToken(a, w)) - 1
  {
    var x := OtherToken(a, w);
    assert PoolOk(a);
    FilterFilter(Closing(a, w), HoldsToken(x), NotAddress(a, w, x), pools);
    WithoutSelf(pools, a, w, x);
  }

  lemma {:induction false} PairWithLength(a: Pool, bs: seq<Pool>)
    ensures |PairWith(a, bs)| == |bs|
    ensures forall i :: 0 <= i < |bs| ==> PairWith(a, bs)[i] == [a, bs[i]]
  {
    if bs == [] {
    } else {
      PairWithLength(a, bs[1..]);
    }
  }

  lemma {:induction false} CyclesLength(firsts: seq<Pool>, pools: seq<Pool>, w: string)
    requires DistinctAddresses(pools) && forall p :: p in pools ==> PoolOk(p)
    requires forall a :: a in firsts ==> a in pools && Holds(a, w)
    ensures |Cycles(firsts, pools, w)| == CountFirsts(firsts, pools, w)
  {
    if firsts == [] {
    } else {
      var a := firsts[0];
      assert a in firsts;
      SecondsCount(pools, a, w);
      PairWithLength(a, ClosingPools(pools, a, w));
      CyclesLength(firsts[1..], pools, w);
    }
  }

  // ----- grouping the first pools by their other token

  function OtherIs(w: string, x: string): Pool -> bool {
    (p: Pool) => OtherToken(p, w) == x
  }

  function OtherIsNot(w: string, x: string): Pool -> bool {
    (p: Pool) => OtherToken(p, w) != x
  }

  lemma {:induction false} FirstsSplit(firsts: seq<Pool>, pools: seq<Pool>, w: string, x: string)
    ensures CountFirsts(firsts, pools, w) ==
            |Filter(OtherIs(w, x), firsts)| * (PairCount(pools, w, x) - 1) +
            CountFirsts(Filter(OtherIsNot(w, x), firsts), pools, w)
  {
    if firsts == [] {
    } else {
      FirstsSplit(firsts[1..], pools, w, x);
      var same, rest := Filter(OtherIs(w, x), firsts[1..]), Filter(OtherIsNot(w, x), firsts[1..]);
      if OtherToken(firsts[0], w) == x {
        OneMore(|same|, PairCount(pools, w, x) - 1);
      } else {
        assert ([firsts[0]] + rest)[1..] == rest;
      }
    }
  }

  lemma OneMore(n: int, c: int)
    ensures (n + 1) * c == n * c + c
  {
  }

  /** The first pools left when the tokens before are dealt with. */
  lemma {:induction false} CountByToken(firsts: seq<Pool>, tokens: seq<string>, pools: seq<Pool>, w: string)
    requires Distinct(tokens)
    requires forall a :: a in firsts ==> OtherToken(a, w) in tokens
    requires forall x :: x in tokens ==> |Filter(OtherIs(w, x), firsts)| == PairCount(pools, w, x)
    ensures CountFirsts(firsts, pools, w) == CountOver(tokens, pools, w)
    decreases |tokens|
  {
    if tokens == [] {
      NoFirsts(firsts, tokens, pools, w);
    } else {
      var x := tokens[0];
      var rest := Filter(OtherIsNot(w, x), firsts);
      assert x in tokens;
      FirstsSplit(firsts, pools, w, x);
      forall y | y in tokens[1..] ensures |Filter(OtherIs(w, y), rest)| == PairCount(pools, w, y) {
        assert y in tokens && y != x;
        FilterFilter(OtherIs(w, y), OtherIsNot(w, x), OtherIs(w, y), firsts);
      }
      CountByToken(rest, tokens[1..], pools, w);
    }
  }

  lemma {:induction false} NoFirsts(firsts: seq<Pool>, tokens: seq<string>, pools: seq<Pool>, w: string)
    requires tokens == [] && forall a :: a in firsts ==> OtherToken(a, w) in tokens
    ensures CountFirsts(firsts, pools, w) == 0
  {
    assert forall i :: 0 <= i < |firsts| ==> firsts[i] in firsts;
  }

  // ----- no path twice

  lemma {:induction false} CyclesDistinct(firsts: seq<Pool>, pools: seq<Pool>, w: string)
    requires Distinct(firsts) && Distinct(pools)
    ensures Distinct(Cycles(firsts, pools, w))
  {
    if firsts == [] {
    } else {
      var a := firsts[0];
      var seconds := ClosingPools(pools, a, w);
      FilterDistinct(HoldsToken(OtherToken(a, w)), pools);
      FilterDistinct(Closing(a, w), Filter(HoldsToken(OtherToken(a, w)), pools));
      PairWithDistinct(a, seconds);
      CyclesDistinct(firsts[1..], pools, w);
      forall c | c in PairWith(a, seconds) ensures c !in Cycles(firsts[1..], pools, w) {
        PairWithMembers(a, seconds, c);
        CyclesMembers(firsts[1..], pools, w, c);
      }
      DistinctJoin(PairWith(a, seconds), Cycles(firsts[1..], pools, w));
    }
  }

  lemma PairWithDistinct(a: Pool, bs: seq<Pool>)
    requires Distinct(bs)
    ensures Distinct(PairWith(a, bs))
  {
    PairWithLength(a, bs);
    forall i, j | 0 <= i < j < |bs| ensures PairWith(a, bs)[i] != PairWith(a, bs)[j] {
      assert [a, bs[i]][1] != [a, bs[j]][1];
    }
  }

  lemma DistinctJoin<T(!new)>(x: seq<T>, y: seq<T>)
    requires Distinct(x) && Distinct(y) && forall e :: e in x ==> e !in y
    ensures Distinct(x + y)
  {
    var all := x + y;
    forall i, j | 0 <= i < j < |all| ensures all[i] != all[j] {
      if i < |x| <= j {
        assert all[i] in x && all[j] in y;
      }
    }
  }

  /** The number of filed paths: over the tokens X paired with W, n (n - 1) for n
      pools W-X.  (tokens is any duplicate-free list that contains them.) */
  lemma TwoPoolPathCount(keccak: Hash, v2: seq<Pool>, v3: seq<Pool>, w: string, tokens: seq<string>)
    requires Injective(keccak) && Consistent(v2 + v3) && forall p :: p in v2 + v3 ==> PoolOk(p)
    requires Distinct(tokens) && forall p :: p in v2 + v3 && Holds(p, w) ==> OtherToken(p, w) in tokens
    requires w !in tokens
    ensures AllOk(TwoPoolCycles(LoadedPools(v2, v3), w))
    ensures |AddAll(keccak, map[], TwoPoolCycles(LoadedPools(v2, v3), w))| == CountOver(tokens, LoadedPools(v2, v3), w)
  {
    var cycles := CyclesReady(keccak, v2, v3, w);
    var pools := LoadedPools(v2, v3);
    MergedPools(v2, v3);
    var firsts := Filter(HoldsToken(w), pools);
    PoolsDistinct(pools);
    FilterDistinct(HoldsToken(w), pools);
    CyclesDistinct(firsts, pools, w);
    FileContents(keccak, v2 + v3, cycles);
    CyclesLength(firsts, pools, w);
    forall x | x in tokens ensures |Filter(OtherIs(w, x), firsts)| == PairCount(pools, w, x) {
      forall p | p in pools ensures PairsOf(w, x)(p) == (OtherIs(w, x)(p) && HoldsToken(w)(p)) {
        assert PoolOk(p);
      }
      FilterFilter(OtherIs(w, x), HoldsToken(w), PairsOf(w, x), pools);
    }
    CountByToken(firsts, tokens, pools, w);
  }

  lemma PoolsDistinct(pools: seq<Pool>)
    requires DistinctAddresses(pools)
    ensures Distinct(pools)
  {
    forall i, j | 0 <= i < j < |pools| ensures pools[i] != pools[j] {
      assert pools[i].address != pools[j].address;
    }
  }
}
