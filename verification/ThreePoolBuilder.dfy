/** The loops of `arbs_3pool.py` and what the written file holds. */
module ThreePoolBuilder {
  import opened Seqs
  import opened Pools
  import opened PathFiles
  import opened TwoPoolPaths
  import opened TwoPoolCount
  import opened ThreePoolPaths

  ghost predicate PoolsOk(s: seq<Pool>) {
    forall p :: p in s ==> PoolOk(p)
  }

  lemma ThreeOk(c: seq<Pool>)
    requires |c| == 3 && PoolOk(c[0]) && PoolOk(c[1]) && PoolOk(c[2])
    ensures CycleOk(c)
  {
  }

  lemma ProductOk(xs: seq<Pool>, bs: seq<Pool>, cs: seq<Pool>)
    requires PoolsOk(xs) && PoolsOk(bs) && PoolsOk(cs)
    ensures AllOk(Product(xs, bs, cs))
  {
    forall c | c in Product(xs, bs, cs) ensures CycleOk(c) {
      ProductMembers(xs, bs, cs, c);
      ThreeOk(c);
    }
  }

  lemma SecondsOk(a: Pool, bs: seq<Pool>, cs: seq<Pool>)
    requires PoolOk(a) && PoolsOk(bs) && PoolsOk(cs)
    ensures AllOk(Seconds(a, bs, cs))
  {
    forall c | c in Seconds(a, bs, cs) ensures CycleOk(c) {
      SecondsMembers(a, bs, cs, c);
      ThreeOk(c);
    }
  }

  lemma ThirdsOk(a: Pool, b: Pool, cs: seq<Pool>)
    requires PoolOk(a) && PoolOk(b) && PoolsOk(cs)
    ensures AllOk(Thirds(a, b, cs))
  {
    forall c | c in Thirds(a, b, cs) ensures CycleOk(c) {
      ThirdsMembers(a, b, cs, c);
      ThreeOk(c);
    }
  }

  lemma PairCyclesOk(edges: seq<Pool>, w: string, a: string, b: string)
    requires PoolsOk(edges)
    ensures AllOk(PairCycles(edges, w, a, b))
  {
    ProductOk(EdgesOf(edges, w, a), EdgesOf(edges, a, b), EdgesOf(edges, w, b));
  }

  lemma WithPartnerOk(edges: seq<Pool>, w: string, a: string, bs: seq<string>)
    requires PoolsOk(edges)
    ensures AllOk(WithPartner(edges, w, a, bs))
  {
    forall c | c in WithPartner(edges, w, a, bs) ensures CycleOk(c) {
      WithPartnerMembers(edges, w, a, bs, c);
      var b :| b in bs && c in PairCycles(edges, w, a, b);
      PairCyclesOk(edges, w, a, b);
    }
  }

  lemma CombinationsOk(edges: seq<Pool>, w: string, tokens: seq<string>)
    requires PoolsOk(edges)
    ensures AllOk(Combinations(edges, w, tokens))
  {
    forall c | c in Combinations(edges, w, tokens) ensures CycleOk(c) {
      CombinationsMembers(edges, w, tokens, c);
      var i, j :| 0 <= i < j < |tokens| && c in PairCycles(edges, w, tokens[i], tokens[j]);
      PairCyclesOk(edges, w, tokens[i], tokens[j]);
    }
  }

  // ----- the loops; at each level what is still to be written is a suffix's cycles

  method AddThirds(keccak: Hash, paths: map<string, ArbPath>, a: Pool, b: Pool, cs: seq<Pool>)
    returns (r: map<string, ArbPath>)
    requires PoolOk(a) && PoolOk(b) && PoolsOk(cs)
    ensures AllOk(Thirds(a, b, cs)) && r == AddAll(keccak, paths, Thirds(a, b, cs))
  {
    ThirdsOk(a, b, cs);
    r := paths;
    for i := 0 to |cs|
      invariant AllOk(Thirds(a, b, cs[i..]))
      invariant AddAll(keccak, paths, Thirds(a, b, cs)) == AddAll(keccak, r, Thirds(a, b, cs[i..]))
    {
      var c := cs[i];
      ThirdsStep(keccak, r, a, b, cs, i);
      r := r[Id(keccak, [a, b, c]) := PathOf(keccak, [a, b, c])];
      r := r[Id(keccak, [c, b, a]) := PathOf(keccak, [c, b, a])];
    }
  }

  lemma ThirdsStep(keccak: Hash, m: map<string, ArbPath>, a: Pool, b: Pool, cs: seq<Pool>, i: nat)
    requires i < |cs| && PoolOk(a) && PoolOk(b) && PoolsOk(cs)
    ensures CycleOk([a, b, cs[i]]) && CycleOk([cs[i], b, a])
    ensures AllOk(Thirds(a, b, cs[i..])) && AllOk(Thirds(a, b, cs[i + 1..]))
    ensures var m1 := m[Id(keccak, [a, b, cs[i]]) := PathOf(keccak, [a, b, cs[i]])];
            AddAll(keccak, m, Thirds(a, b, cs[i..])) ==
            AddAll(keccak, m1[Id(keccak, [cs[i], b, a]) := PathOf(keccak, [cs[i], b, a])], Thirds(a, b, cs[i + 1..]))
  {
    var c := cs[i];
    assert c in cs;
    ThreeOk([a, b, c]);
    ThreeOk([c, b, a]);
    ThirdsOk(a, b, cs[i..]);
    ThirdsOk(a, b, cs[i + 1..]);
    assert cs[i..][1..] == cs[i + 1..];
    assert [[a, b, c], [c, b, a]] == [[a, b, c]] + [[c, b, a]];
    AddAllOne(keccak, m, [a, b, c]);
    AddAllOne(keccak, AddAll(keccak, m, [[a, b, c]]), [c, b, a]);
    AddAllAppend(keccak, m, [[a, b, c]], [[c, b, a]]);
    AddAllAppend(keccak, m, [[a, b, c], [c, b, a]], Thirds(a, b, cs[i + 1..]));
  }

  method AddSeconds(keccak: Hash, paths: map<string, ArbPath>, a: Pool, bs: seq<Pool>, cs: seq<Pool>)
    returns (r: map<string, ArbPath>)
    requires PoolOk(a) && PoolsOk(bs) && PoolsOk(cs)
    ensures AllOk(Seconds(a, bs, cs)) && r == AddAll(keccak, paths, Seconds(a, bs, cs))
  {
    SecondsOk(a, bs, cs);
    r := paths;
    for i := 0 to |bs|
      invariant AllOk(Seconds(a, bs[i..], cs))
      invariant AddAll(keccak, paths, Seconds(a, bs, cs)) == AddAll(keccak, r, Seconds(a, bs[i..], cs))
    {
      assert bs[i..][1..] == bs[i + 1..];
      SecondsOk(a, bs[i + 1..], cs);
      ThirdsOk(a, bs[i], cs);
      AddAllAppend(keccak, r, Thirds(a, bs[i], cs), Seconds(a, bs[i + 1..], cs));
      r := AddThirds(keccak, r, a, bs[i], cs);
    }
  }

  method AddProduct(keccak: Hash, paths: map<string, ArbPath>, xs: seq<Pool>, bs: seq<Pool>, cs: seq<Pool>)
    returns (r: map<string, ArbPath>)
    requires PoolsOk(xs) && PoolsOk(bs) && PoolsOk(cs)
    ensures AllOk(Product(xs, bs, cs)) && r == AddAll(keccak, paths, Product(xs, bs, cs))
  {
    ProductOk(xs, bs, cs);
    r := paths;
    for i := 0 to |xs|
      invariant AllOk(Product(xs[i..], bs, cs))
      invariant AddAll(keccak, paths, Product(xs, bs, cs)) == AddAll(keccak, r, Product(xs[i..], bs, cs))
    {
      assert xs[i..][1..] == xs[i + 1..];
      ProductOk(xs[i + 1..], bs, cs);
      SecondsOk(xs[i], bs, cs);
      AddAllAppend(keccak, r, Seconds(xs[i], bs, cs), Product(xs[i + 1..], bs, cs));
      r := AddSeconds(keccak, r, xs[i], bs, cs);
    }
  }

  lemma {:induction false} EmptyMiddle(xs: seq<Pool>, cs: seq<Pool>)
    ensures Product(xs, [], cs) == []
  {
    if xs == [] {
    } else {
      EmptyMiddle(xs[1..], cs);
    }
  }

  method AddWithPartner(keccak: Hash, paths: map<string, ArbPath>, edges: seq<Pool>, w: string, a: string,
                        bs: seq<string>)
    returns (r: map<string, ArbPath>)
    requires PoolsOk(edges)
    ensures AllOk(WithPartner(edges, w, a, bs)) && r == AddAll(keccak, paths, WithPartner(edges, w, a, bs))
  {
    WithPartnerOk(edges, w, a, bs);
    r := paths;
    for i := 0 to |bs|
      invariant AllOk(WithPartner(edges, w, a, bs[i..]))
      invariant AddAll(keccak, paths, WithPartner(edges, w, a, bs)) ==
                AddAll(keccak, r, WithPartner(edges, w, a, bs[i..]))
    {
      var b := bs[i];
      assert bs[i..][1..] == bs[i + 1..];
      WithPartnerOk(edges, w, a, bs[i + 1..]);
      PairCyclesOk(edges, w, a, b);
      AddAllAppend(keccak, r, PairCycles(edges, w, a, b), WithPartner(edges, w, a, bs[i + 1..]));
      var inside := EdgesOf(edges, a, b);
      if inside != [] {
        r := AddProduct(keccak, r, EdgesOf(edges, w, a), inside, EdgesOf(edges, w, b));
      } else {
        EmptyMiddle(EdgesOf(edges, w, a), EdgesOf(edges, w, b));
      }
    }
  }

  method AddCombinations(keccak: Hash, edges: seq<Pool>, w: string, tokens: seq<string>)
    returns (r: map<string, ArbPath>)
    requires PoolsOk(edges)
    ensures AllOk(Combinations(edges, w, tokens)) && r == AddAll(keccak, map[], Combinations(edges, w, tokens))
  {
    CombinationsOk(edges, w, tokens);
    r := map[];
    for i := 0 to |tokens|
      invariant AllOk(Combinations(edges, w, tokens[i..]))
      invariant AddAll(keccak, map[], Combinations(edges, w, tokens)) ==
                AddAll(keccak, r, Combinations(edges, w, tokens[i..]))
    {
      assert tokens[i..][1..] == tokens[i + 1..];
      CombinationsOk(edges, w, tokens[i + 1..]);
      WithPartnerOk(edges, w, tokens[i], tokens[i + 1..]);
      AddAllAppend(keccak, r, WithPartner(edges, w, tokens[i], tokens[i + 1..]),
                   Combinations(edges, w, tokens[i + 1..]));
      r := AddWithPartner(keccak, r, edges, w, tokens[i], tokens[i + 1..]);
    }
  }

  /** `networkx` raises when W is no node of the graph. */
  datatype BuildResult = NotInGraph | Paths(paths: map<string, ArbPath>)

  /** `main` of the 3-pool builder for one chain. */
  method BuildThreePoolPaths(keccak: Hash, v2: seq<Pool>, v3: seq<Pool>, w: string) returns (r: BuildResult)
    requires PoolsOk(v2 + v3) && Consistent(v2 + v3)
    ensures var edges := GraphEdges(v2, v3);
            && (r.NotInGraph? <==> forall p :: p in v2 + v3 ==> !Holds(p, w))
            && AllOk(Combinations(edges, w, FilteredTokens(edges, w)))
            && (r.Paths? ==> r.paths == AddAll(keccak, map[], Combinations(edges, w, FilteredTokens(edges, w))))
  {
    GraphPools(v2, v3);
    var edges: seq<Pool> := [];
    var d2, d3 := PutAll([], v2), PutAll([], v3);
    for i := 0 to |d2|
      invariant edges == d2[..i]
    {
      edges := edges + [d2[i]];
    }
    for i := 0 to |d3|
      invariant edges == d2 + d3[..i]
    {
      edges := edges + [d3[i]];
    }
    assert edges == GraphEdges(v2, v3);
    CombinationsOk(edges, w, FilteredTokens(edges, w));
    var incident := Filter(HoldsToken(w), edges);
    if incident == [] {
      assert forall p :: p in edges && Holds(p, w) ==> p in incident;
      return NotInGraph;
    }
    assert incident[0] in incident;
    var paths := AddCombinations(keccak, edges, w, FilteredTokens(edges, w));
    return Paths(paths);
  }

  function GraphEdges(v2: seq<Pool>, v3: seq<Pool>): seq<Pool> {
    PutAll([], v2) + PutAll([], v3)
  }

  lemma GraphPools(v2: seq<Pool>, v3: seq<Pool>)
    requires Consistent(v2 + v3)
    ensures forall p :: p in GraphEdges(v2, v3) <==> p in v2 + v3
    ensures DistinctAddresses(PutAll([], v2)) && DistinctAddresses(PutAll([], v3))
  {
    assert forall p :: p in [] + v2 ==> p in v2 + v3;
    PutAllMembers([], v2);
    assert forall p :: p in [] + v3 ==> p in v2 + v3;
    PutAllMembers([], v3);
  }

  // ----- what the file holds

  /** Any adequate token list, in any order and with or without the degree filter,
      gives the same file. */
  lemma TokenOrderDoesNotMatter(keccak: Hash, edges: seq<Pool>, w: string, s: seq<string>, t: seq<string>)
    requires Injective(keccak) && PoolsOk(edges) && Consistent(edges)
    requires Adequate(edges, w, s) && Adequate(edges, w, t)
    ensures AllOk(Combinations(edges, w, s)) && AllOk(Combinations(edges, w, t))
    ensures AddAll(keccak, map[], Combinations(edges, w, s)) == AddAll(keccak, map[], Combinations(edges, w, t))
  {
    TrianglesReady(edges, w, s);
    TrianglesReady(edges, w, t);
    forall c ensures c in Combinations(edges, w, s) <==> c in Combinations(edges, w, t) {
      CombinationsAreTriangles(edges, w, s, c);
      CombinationsAreTriangles(edges, w, t, c);
    }
    SameCyclesSameFile(keccak, edges, Combinations(edges, w, s), Combinations(edges, w, t));
  }

  lemma TriangleOver(edges: seq<Pool>, w: string, c: seq<Pool>, p: Pool)
    requires IsTriangle(edges, w, c) && p in c
    ensures p in edges
  {
  }

  lemma TrianglesReady(edges: seq<Pool>, w: string, tokens: seq<string>)
    requires PoolsOk(edges) && Adequate(edges, w, tokens)
    ensures AllOk(Combinations(edges, w, tokens)) && Over(edges, Combinations(edges, w, tokens))
  {
    CombinationsOk(edges, w, tokens);
    forall c, p | c in Combinations(edges, w, tokens) && p in c ensures p in edges {
      CombinationsAreTriangles(edges, w, tokens, c);
      TriangleOver(edges, w, c, p);
    }
  }

  /** Complete: each triangle, in its direction, is filed under its own id. */
  lemma ThreePoolFileIsComplete(keccak: Hash, edges: seq<Pool>, w: string, c: seq<Pool>)
    requires Injective(keccak) && PoolsOk(edges) && Consistent(edges) && IsTriangle(edges, w, c)
    ensures AllOk(Combinations(edges, w, FilteredTokens(edges, w))) && CycleOk(c)
    ensures var f := AddAll(keccak, map[], Combinations(edges, w, FilteredTokens(edges, w)));
            Id(keccak, c) in f && f[Id(keccak, c)] == PathOf(keccak, c)
  {
    var cycles := Combinations(edges, w, FilteredTokens(edges, w));
    FilteredTokensAdequate(edges, w);
    TrianglesReady(edges, w, FilteredTokens(edges, w));
    CombinationsAreTriangles(edges, w, FilteredTokens(edges, w), c);
    FileContents(keccak, edges, cycles);
  }

  /** Sound: each entry is the path of a triangle. */
  lemma ThreePoolFileIsSound(keccak: Hash, edges: seq<Pool>, w: string, id: string) returns (c: seq<Pool>)
    requires Injective(keccak) && PoolsOk(edges) && Consistent(edges)
    requires AllOk(Combinations(edges, w, FilteredTokens(edges, w)))
    requires id in AddAll(keccak, map[], Combinations(edges, w, FilteredTokens(edges, w)))
    ensures IsTriangle(edges, w, c) && CycleOk(c) && id == Id(keccak, c)
    ensures AddAll(keccak, map[], Combinations(edges, w, FilteredTokens(edges, w)))[id] == PathOf(keccak, c)
  {
    var cycles := Combinations(edges, w, FilteredTokens(edges, w));
    FilteredTokensAdequate(edges, w);
    TrianglesReady(edges, w, FilteredTokens(edges, w));
    FileContents(keccak, edges, cycles);
    c := EntryOf(keccak, AddAll(keccak, map[], cycles), cycles, id);
    CombinationsAreTriangles(edges, w, FilteredTokens(edges, w), c);
  }

  /** The file, entry by entry: id, pools by address and path of every triangle, and
      nothing else. */
  lemma ThreePoolFileIs(keccak: Hash, edges: seq<Pool>, w: string, id: string, e: ArbPath)
    requires Injective(keccak) && PoolsOk(edges) && Consistent(edges)
    ensures AllOk(Combinations(edges, w, FilteredTokens(edges, w)))
    ensures var f := AddAll(keccak, map[], Combinations(edges, w, FilteredTokens(edges, w)));
            id in f && f[id] == e <==>
            exists x, y, z :: IsTriangle(edges, w, [x, y, z]) && e == ThreePoolEntry(keccak, x, y, z) && e.id == id
  {
    FilteredTokensAdequate(edges, w);
    TrianglesReady(edges, w, FilteredTokens(edges, w));
    var f := AddAll(keccak, map[], Combinations(edges, w, FilteredTokens(edges, w)));
    if id in f && f[id] == e {
      var c := ThreePoolFileIsSound(keccak, edges, w, id);
      ThreeElements(c);
      PathOfThree(keccak, c[0], c[1], c[2]);
    }
    if x, y, z :| IsTriangle(edges, w, [x, y, z]) && e == ThreePoolEntry(keccak, x, y, z) && e.id == id {
      ThreePoolFileIsComplete(keccak, edges, w, [x, y, z]);
      PathOfThree(keccak, x, y, z);
    }
  }

  /** Both directions of a triangle are filed. */
  lemma TriangleReverses(edges: seq<Pool>, w: string, c: seq<Pool>)
    requires |c| == 3
    ensures IsTriangle(edges, w, c) <==> IsTriangle(edges, w, [c[2], c[1], c[0]])
  {
    var d := [c[2], c[1], c[0]];
    if a, b :| Triangle(edges, w, a, b, c[0], c[1], c[2]) {
      assert Triangle(edges, w, b, a, d[0], d[1], d[2]);
    }
    if a, b :| Triangle(edges, w, a, b, d[0], d[1], d[2]) {
      assert Triangle(edges, w, b, a, c[0], c[1], c[2]);
    }
  }

  /** Repeating pools in the input lists, or reordering them, changes nothing. */
  lemma TriangleRepeatsDoNotMatter(keccak: Hash, v2: seq<Pool>, v3: seq<Pool>, u2: seq<Pool>, u3: seq<Pool>, w: string)
    requires Injective(keccak) && Consistent(v2 + v3) && PoolsOk(v2 + v3)
    requires forall p :: p in v2 + v3 <==> p in u2 + u3
    ensures Consistent(u2 + u3)
    ensures var e, f := GraphEdges(v2, v3), GraphEdges(u2, u3);
            var a, b := Combinations(e, w, FilteredTokens(e, w)), Combinations(f, w, FilteredTokens(f, w));
            AllOk(a) && AllOk(b) && AddAll(keccak, map[], a) == AddAll(keccak, map[], b)
  {
    GraphPools(v2, v3);
    GraphPools(u2, u3);
    SameEdgesSameFile(keccak, GraphEdges(v2, v3), GraphEdges(u2, u3), w);
  }

  lemma SameEdgesSameFile(keccak: Hash, e: seq<Pool>, f: seq<Pool>, w: string)
    requires Injective(keccak) && Consistent(e) && PoolsOk(e) && forall p :: p in e <==> p in f
    ensures var a, b := Combinations(e, w, FilteredTokens(e, w)), Combinations(f, w, FilteredTokens(f, w));
            AllOk(a) && AllOk(b) && AddAll(keccak, map[], a) == AddAll(keccak, map[], b)
  {
    var a, b := Combinations(e, w, FilteredTokens(e, w)), Combinations(f, w, FilteredTokens(f, w));
    FilteredTokensAdequate(e, w);
    FilteredTokensAdequate(f, w);
    TrianglesReady(e, w, FilteredTokens(e, w));
    TrianglesReady(f, w, FilteredTokens(f, w));
    forall c ensures c in a <==> c in b {
      CombinationsAreTriangles(e, w, FilteredTokens(e, w), c);
      CombinationsAreTriangles(f, w, FilteredTokens(f, w), c);
      SameTriangles(e, f, w, c);
    }
    OverSame(e, f, b);
    SameCyclesSameFile(keccak, e, a, b);
  }

  lemma SameTriangles(e: seq<Pool>, f: seq<Pool>, w: string, c: seq<Pool>)
    requires forall p :: p in e <==> p in f
    ensures IsTriangle(e, w, c) <==> IsTriangle(f, w, c)
  {
    if x, y :| |c| == 3 && Triangle(e, w, x, y, c[0], c[1], c[2]) {
      assert Triangle(f, w, x, y, c[0], c[1], c[2]);
    }
    if x, y :| |c| == 3 && Triangle(f, w, x, y, c[0], c[1], c[2]) {
      assert Triangle(e, w, x, y, c[0], c[1], c[2]);
    }
  }

  /** The number of filed paths, summed over the unordered pairs of any adequate
      token list. */
  lemma ThreePoolPathCount(keccak: Hash, edges: seq<Pool>, w: string, tokens: seq<string>)
    requires Injective(keccak) && PoolsOk(edges) && DistinctAddresses(edges) && Adequate(edges, w, tokens)
    ensures AllOk(Combinations(edges, w, FilteredTokens(edges, w)))
    ensures |AddAll(keccak, map[], Combinations(edges, w, FilteredTokens(edges, w)))| ==
            CombinationSum(edges, w, tokens)
  {
    FilteredTokensAdequate(edges, w);
    TokenOrderDoesNotMatter(keccak, edges, w, FilteredTokens(edges, w), tokens);
    TrianglesReady(edges, w, tokens);
    PoolsDistinct(edges);
    CombinationsDistinct(edges, w, tokens);
    FileContents(keccak, edges, Combinations(edges, w, tokens));
    CombinationsLength(edges, w, tokens);
  }
}
