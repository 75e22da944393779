/** What holds of the helpers once both arb files have been built and loaded. */
module LoadedBot {
  import opened Seqs
  import opened StableSort
  import opened Pools
  import opened PathFiles
  import opened TwoPoolPaths
  import opened ThreePoolPaths
  import opened ThreePoolBuilder
  import opened Reduction
  import opened Arbitrage
  import opened PoolLoading

  /** Every item comes from the file that the 2-pool or the 3-pool builder writes for
      the pools of the factories. */
  ghost predicate BuiltFiles(keccak: Hash, v2: seq<Pool>, v3: seq<Pool>, w: string, files: seq<Filed>) {
    var two, edges := TwoPoolCycles(LoadedPools(v2, v3), w), GraphEdges(v2, v3);
    var three := Combinations(edges, w, FilteredTokens(edges, w));
    && Injective(keccak) && Consistent(v2 + v3) && PoolsOk(v2 + v3)
    && AllOk(two) && AllOk(three)
    && forall f :: f in files ==> InFile(AddAll(keccak, map[], two), f) || InFile(AddAll(keccak, map[], three), f)
  }

  predicate InFile(file: map<string, ArbPath>, f: Filed) {
    f.key in file && file[f.key] == f.arb
  }

  /** A closed walk from W to W over two or three pools. */
  ghost predicate IsWalk(v2: seq<Pool>, v3: seq<Pool>, w: string, c: seq<Pool>) {
    (|c| == 2 && IsTwoCycle(v2, v3, w, c[0], c[1])) || IsTriangle(GraphEdges(v2, v3), w, c)
  }

  /** a is the helper of the walk c: filed under the walk's id, pools in path order. */
  ghost predicate HelperOf(keccak: Hash, v2: seq<Pool>, v3: seq<Pool>, w: string, a: Arb, c: seq<Pool>) {
    IsWalk(v2, v3, w, c) && CycleOk(c) && a.id == Id(keccak, c) && a.pools == Addresses(c)
  }

  lemma FiledWalk(keccak: Hash, v2: seq<Pool>, v3: seq<Pool>, w: string, files: seq<Filed>, f: Filed)
    returns (c: seq<Pool>)
    requires BuiltFiles(keccak, v2, v3, w, files) && f in files
    ensures IsWalk(v2, v3, w, c) && CycleOk(c) && f.arb == PathOf(keccak, c) && f.key == f.arb.id
  {
    var two := AddAll(keccak, map[], TwoPoolCycles(LoadedPools(v2, v3), w));
    if InFile(two, f) {
      var a, b := TwoPoolFileIsSound(keccak, v2, v3, w, f.key);
      c := [a, b];
    } else {
      GraphPools(v2, v3);
      c := ThreePoolFileIsSound(keccak, GraphEdges(v2, v3), w, f.key);
    }
  }

  /** The load invariant: each loaded helper is that of a closed walk through W whose
      pools all survived filtering and have helpers, and it sits under its own id. */
  lemma LoadedHelpers(keccak: Hash, v2: seq<Pool>, v3: seq<Pool>, w: string, files: seq<Filed>,
                      b: Blacklists, pools: seq<Pool>, created: set<string>, id: string)
    returns (c: seq<Pool>)
    requires BuiltFiles(keccak, v2, v3, w, files) && id in Helpers(b, pools, created, files)
    ensures var a := Helpers(b, pools, created, files)[id];
            && a.id == id && HelperOf(keccak, v2, v3, w, a, c) && id !in b.arbs
            && forall p :: p in a.pools ==> Survives(b, pools, p) && p in created
  {
    HelpersAreLoadable(b, pools, created, files, id, Helpers(b, pools, created, files)[id]);
    var k: nat :| LastOfItsId(b, pools, created, files, k) && id == files[k].arb.id &&
                  Helpers(b, pools, created, files)[id] == Arb(id, files[k].arb.path);
    c := FiledWalk(keccak, v2, v3, w, files, files[k]);
  }

  /** Two or three pools, so at most three different ones. */
  lemma HelperSize(keccak: Hash, v2: seq<Pool>, v3: seq<Pool>, w: string, a: Arb, c: seq<Pool>)
    requires HelperOf(keccak, v2, v3, w, a, c)
    ensures 2 <= |a.pools| <= 3 && |PoolSet(a)| <= 3
  {
    PoolSetSize(a.pools);
  }

  /** Exactly which pools trigger a helper: those of a 2-pool arb, and of a 3-pool arb
      the one pool that does not hold W. */
  lemma AffectedKinds(keccak: Hash, v2: seq<Pool>, v3: seq<Pool>, w: string, a: Arb, c: seq<Pool>, p: Pool)
    requires Consistent(v2 + v3) && PoolsOk(v2 + v3) && p in v2 + v3
    requires HelperOf(keccak, v2, v3, w, a, c)
    ensures AffectedBy(p.address)(a) <==> p.address in a.pools && (|a.pools| == 2 || !Holds(p, w))
    ensures AffectedBy(p.address)(a) ==> if Holds(p, w) then |a.pools| == 2 else |a.pools| == 3
  {
    GraphPools(v2, v3);
    if |c| == 2 {
      assert p.address == c[0].address ==> p == c[0];
      assert p.address == c[1].address ==> p == c[1];
    } else {
      TriangleTriggers(GraphEdges(v2, v3), w, a, c, p);
    }
  }

  lemma TriangleTriggers(edges: seq<Pool>, w: string, a: Arb, c: seq<Pool>, p: Pool)
    requires Consistent(edges) && p in edges && IsTriangle(edges, w, c) && a.pools == Addresses(c)
    ensures AffectedBy(p.address)(a) <==> p.address in a.pools && !Holds(p, w)
  {
    var x, y :| Triangle(edges, w, x, y, c[0], c[1], c[2]);
    assert !Holds(c[1], w) && Holds(c[0], w) && Holds(c[2], w);
    assert a.pools == [c[0].address, c[1].address, c[2].address];
    if p.address in a.pools {
      assert p == c[0] || p == c[1] || p == c[2];
    }
  }

  /** "0x" and forty times the digit. */
  function AddressOf(digit: char): (a: string)
    ensures FixedWidth(a)
  {
    "0x" + seq(40, _ => digit)
  }

  function PoolOf(digit: char, token0: string, token1: string): Pool {
    Pool(AddressOf(digit), token0, token1, 3000, 1, UniswapV2)
  }

  lemma AddressesDiffer(c: char, d: char)
    requires c != d
    ensures AddressOf(c) != AddressOf(d)
  {
    assert AddressOf(c)[2] != AddressOf(d)[2];
  }

  /** A triangle through W, and an outer pool of it that does not trigger it. */
  lemma OuterPoolDoesNotTrigger(keccak: Hash)
    ensures var p, q, r := PoolOf('1', "W", "A"), PoolOf('2', "A", "B"), PoolOf('3', "B", "W");
            && CycleOk([p, q, r])
            && HelperOf(keccak, [p, q, r], [], "W", Arb(Id(keccak, [p, q, r]), [p.address, q.address, r.address]),
                        [p, q, r])
            && !AffectedBy(p.address)(Arb(Id(keccak, [p, q, r]), [p.address, q.address, r.address]))
  {
    var p, q, r := PoolOf('1', "W", "A"), PoolOf('2', "A", "B"), PoolOf('3', "B", "W");
    AddressesDiffer('1', '2');
    AddressesDiffer('1', '3');
    AddressesDiffer('2', '3');
    assert "W" != "A" && "A" != "B" && "B" != "W" by {
      assert "W"[0] != "A"[0] && "A"[0] != "B"[0] && "B"[0] != "W"[0];
    }
    TriangleHelper(keccak, p, q, r, "W", "A", "B");
  }

  lemma TriangleHelper(keccak: Hash, p: Pool, q: Pool, r: Pool, w: string, x: string, y: string)
    requires PoolOk(p) && PoolOk(q) && PoolOk(r) && Consistent([p, q, r])
    requires w != x && x != y && y != w && Pairs(p, w, x) && Pairs(q, x, y) && Pairs(r, y, w)
    ensures CycleOk([p, q, r])
    ensures HelperOf(keccak, [p, q, r], [], w, Arb(Id(keccak, [p, q, r]), [p.address, q.address, r.address]), [p, q, r])
  {
    var c := [p, q, r];
    assert c + [] == c;
    GraphPools(c, []);
    assert Triangle(GraphEdges(c, []), w, x, y, c[0], c[1], c[2]);
    assert Addresses(c) == [p.address, q.address, r.address];
  }

  /** One consumed pool address of a loaded bot, end to end: the results calculated for
      the helpers it affects never trip the strict zip, and reduce to one arb, of
      maximal profit, iff one of them is not negative. */
  lemma OneChangedPool(results: seq<CalcResult>, b: Blacklists, pools: seq<Pool>, created: set<string>,
                       files: seq<Filed>, helpers: seq<Arb>, pool: string)
    requires var all := Helpers(b, pools, created, files);
             && (forall h :: h in helpers ==> h.id in all && all[h.id] == h)
             && (forall r :: r in results ==> exists h :: h in Filter(AffectedBy(pool), helpers) && h.id == r.id)
    requires forall i, j :: 0 <= i < j < |results| ==> results[i].id != results[j].id
    ensures var all := Helpers(b, pools, created, files);
            && ResultsOf(results, all)
            && var selected := Greedy(ArbsOf(ProfitableResults(results), all));
               if exists r :: r in results && r.profit >= 0
               then |selected| == 1 && forall r :: r in results ==> r.profit <= Worth(results)(selected[0])
               else selected == []
  {
    var all := Helpers(b, pools, created, files);
    HelpersKeyed(b, pools, created, files);
    forall r | r in results ensures r.id in all && all[r.id] in Filter(AffectedBy(pool), helpers) {
      var h :| h in Filter(AffectedBy(pool), helpers) && h.id == r.id;
    }
    OneTriggerOneReport(results, all, pool);
  }

  /** The reduction's guarantee for the helpers of a loaded bot: no pairwise
      pool-disjoint family of profitable arbs is worth more than three times what is
      selected. */
  lemma LoadedBound(keccak: Hash, v2: seq<Pool>, v3: seq<Pool>, w: string, files: seq<Filed>,
                    b: Blacklists, pools: seq<Pool>, created: set<string>,
                    results: seq<CalcResult>, family: seq<Arb>)
    requires BuiltFiles(keccak, v2, v3, w, files)
    requires forall r :: r in results ==> r.id in Helpers(b, pools, created, files)
    requires forall i, j :: 0 <= i < j < |results| ==> results[i].id != results[j].id
    requires Distinct(family) && Disjoint(family)
    requires forall a :: a in family ==>
               a in ArbsOf(results, Helpers(b, pools, created, files)) && Worth(results)(a) >= 0
    ensures Total(Worth(results), family) <=
            3 * Total(Worth(results), Greedy(ArbsOf(ProfitableResults(results), Helpers(b, pools, created, files))))
  {
    var all := Helpers(b, pools, created, files);
    HelpersKeyed(b, pools, created, files);
    forall id | id in all ensures |PoolSet(all[id])| <= 3 {
      var c := LoadedHelpers(keccak, v2, v3, w, files, b, pools, created, id);
      HelperSize(keccak, v2, v3, w, all[id], c);
    }
    SmallHelpersBound(results, all, family);
  }

  lemma SmallHelpersBound(results: seq<CalcResult>, allArbs: map<string, Arb>, family: seq<Arb>)
    requires ResultsOf(results, allArbs)
    requires forall id :: id in allArbs ==> |PoolSet(allArbs[id])| <= 3
    requires Distinct(family) && Disjoint(family)
    requires forall a :: a in family ==> a in ArbsOf(results, allArbs) && Worth(results)(a) >= 0
    ensures Total(Worth(results), family) <=
            3 * Total(Worth(results), Greedy(ArbsOf(ProfitableResults(results), allArbs)))
  {
    var worth := Worth(results);
    var completed := ArbsOf(results, allArbs);
    ProcessingIsSelection(results, allArbs);
    var ranked := Ranked(worth, completed);
    SortPerm(WorthKey(worth), Filter(Profitable(worth), completed));
    SortIsStable(WorthKey(worth), Filter(Profitable(worth), completed));
    forall a | a in ranked ensures |PoolSet(a)| <= 3 && worth(a) >= 0 {
      assert a in completed;
      var i :| 0 <= i < |completed| && completed[i] == a;
    }
    GreedyBound(worth, 3, ranked, family);
  }
}
