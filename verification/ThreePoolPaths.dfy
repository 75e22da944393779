/** `arbs_3pool.py`: three-pool cycles found in the multigraph of tokens and pools. */
module ThreePoolPaths {
  import opened Seqs
  import opened Pools
  import opened PathFiles
  import opened TwoPoolPaths
  import opened TwoPoolCount

  // ----- the multigraph: one edge per pool, in insertion order

  function EdgesOf(edges: seq<Pool>, x: string, y: string): seq<Pool> {
    Filter(PairsOf(x, y), edges)
  }

  /** The tokens with an edge to w, in the order of their first edge. */
  function Neighbors(edges: seq<Pool>, w: string): seq<string> {
    if edges == [] then []
    else
      var n := |edges| - 1;
      var r := Neighbors(edges[..n], w);
      if Holds(edges[n], w) && OtherToken(edges[n], w) !in r then r + [OtherToken(edges[n], w)] else r
  }

  function Degree(edges: seq<Pool>, t: string): nat {
    |Filter(HoldsToken(t), edges)|
  }

  function DegreeAboveOne(edges: seq<Pool>): string -> bool {
    (t: string) => Degree(edges, t) > 1
  }

  // ----- the cycles in the order the loops emit them

  /** For each third pool, both directions. */
  function Thirds(a: Pool, b: Pool, cs: seq<Pool>): seq<seq<Pool>> {
    if cs == [] then [] else [[a, b, cs[0]], [cs[0], b, a]] + Thirds(a, b, cs[1..])
  }

  function Seconds(a: Pool, bs: seq<Pool>, cs: seq<Pool>): seq<seq<Pool>> {
    if bs == [] then [] else Thirds(a, bs[0], cs) + Seconds(a, bs[1..], cs)
  }

  /** `itertools.product` of the three pool lists. */
  function Product(xs: seq<Pool>, bs: seq<Pool>, cs: seq<Pool>): seq<seq<Pool>> {
    if xs == [] then [] else Seconds(xs[0], bs, cs) + Product(xs[1..], bs, cs)
  }

  function PairCycles(edges: seq<Pool>, w: string, a: string, b: string): seq<seq<Pool>> {
    Product(EdgesOf(edges, w, a), EdgesOf(edges, a, b), EdgesOf(edges, w, b))
  }

  function WithPartner(edges: seq<Pool>, w: string, a: string, bs: seq<string>): seq<seq<Pool>> {
    if bs == [] then [] else PairCycles(edges, w, a, bs[0]) + WithPartner(edges, w, a, bs[1..])
  }

  /** `itertools.combinations(tokens, 2)`. */
  function Combinations(edges: seq<Pool>, w: string, tokens: seq<string>): seq<seq<Pool>> {
    if tokens == [] then []
    else WithPartner(edges, w, tokens[0], tokens[1..]) + Combinations(edges, w, tokens[1..])
  }

  function FilteredTokens(edges: seq<Pool>, w: string): seq<string> {
    Filter(DegreeAboveOne(edges), Neighbors(edges, w))
  }

  // ----- members

  lemma ThreeElements(c: seq<Pool>)
    requires |c| == 3
    ensures c == [c[0], c[1], c[2]]
  {
  }

  lemma {:induction false} ThirdsMembers(a: Pool, b: Pool, cs: seq<Pool>, c: seq<Pool>)
    ensures c in Thirds(a, b, cs) <==>
            |c| == 3 && c[1] == b && ((c[0] == a && c[2] in cs) || (c[2] == a && c[0] in cs))
  {
    if |c| == 3 { ThreeElements(c); }
    if cs == [] {
    } else {
      ThirdsMembers(a, b, cs[1..], c);
    }
  }

  lemma {:induction false} SecondsMembers(a: Pool, bs: seq<Pool>, cs: seq<Pool>, c: seq<Pool>)
    ensures c in Seconds(a, bs, cs) <==>
            |c| == 3 && c[1] in bs && ((c[0] == a && c[2] in cs) || (c[2] == a && c[0] in cs))
  {
    if bs == [] {
    } else {
      ThirdsMembers(a, bs[0], cs, c);
      SecondsMembers(a, bs[1..], cs, c);
    }
  }

  lemma {:induction false} ProductMembers(xs: seq<Pool>, bs: seq<Pool>, cs: seq<Pool>, c: seq<Pool>)
    ensures c in Product(xs, bs, cs) <==>
            |c| == 3 && c[1] in bs && ((c[0] in xs && c[2] in cs) || (c[2] in xs && c[0] in cs))
  {
    if xs == [] {
    } else {
      SecondsMembers(xs[0], bs, cs, c);
      ProductMembers(xs[1..], bs, cs, c);
    }
  }

  lemma {:induction false} WithPartnerMembers(edges: seq<Pool>, w: string, a: string, bs: seq<string>, c: seq<Pool>)
    ensures c in WithPartner(edges, w, a, bs) <==> exists b :: b in bs && c in PairCycles(edges, w, a, b)
  {
    if bs == [] {
    } else {
      WithPartnerMembers(edges, w, a, bs[1..], c);
      assert bs[0] in bs;
      assert forall b :: b in bs <==> b == bs[0] || b in bs[1..];
    }
  }

  lemma {:induction false} CombinationsMembers(edges: seq<Pool>, w: string, tokens: seq<string>, c: seq<Pool>)
    ensures c in Combinations(edges, w, tokens) <==>
            exists i, j :: 0 <= i < j < |tokens| && c in PairCycles(edges, w, tokens[i], tokens[j])
  {
    if tokens == [] {
    } else {
      WithPartnerMembers(edges, w, tokens[0], tokens[1..], c);
      CombinationsMembers(edges, w, tokens[1..], c);
      if b :| b in tokens[1..] && c in PairCycles(edges, w, tokens[0], b) {
        var j :| 0 < j < |tokens| && tokens[j] == b;
      }
      if i, j :| 0 <= i < j < |tokens[1..]| && c in PairCycles(edges, w, tokens[1..][i], tokens[1..][j]) {
        assert tokens[i + 1] == tokens[1..][i] && tokens[j + 1] == tokens[1..][j];
      }
      if i, j :| 0 <= i < j < |tokens| && c in PairCycles(edges, w, tokens[i], tokens[j]) {
        if i > 0 {
          assert tokens[1..][i - 1] == tokens[i] && tokens[1..][j - 1] == tokens[j];
        } else {
          assert tokens[j] in tokens[1..];
        }
      }
    }
  }

  // ----- exactly the triangles through W

  /** x trades W for some A, y trades A for some other B, z trades B back for W. */
  ghost predicate Triangle(edges: seq<Pool>, w: string, a: string, b: string, x: Pool, y: Pool, z: Pool) {
    && a != b && a != w && b != w
    && x in edges && y in edges && z in edges
    && Pairs(x, w, a) && Pairs(y, a, b) && Pairs(z, b, w)
  }

  ghost predicate IsTriangle(edges: seq<Pool>, w: string, c: seq<Pool>) {
    |c| == 3 && exists a, b :: Triangle(edges, w, a, b, c[0], c[1], c[2])
  }

  /** A duplicate-free token list without W that misses no token of a triangle. */
  ghost predicate Adequate(edges: seq<Pool>, w: string, tokens: seq<string>) {
    && Distinct(tokens) && w !in tokens
    && forall a, b, x, y, z :: Triangle(edges, w, a, b, x, y, z) ==> a in tokens && b in tokens
  }

  lemma PairCyclesMembers(edges: seq<Pool>, w: string, a: string, b: string, c: seq<Pool>)
    requires a != b && a != w && b != w
    ensures c in PairCycles(edges, w, a, b) <==>
            |c| == 3 && (Triangle(edges, w, a, b, c[0], c[1], c[2]) || Triangle(edges, w, b, a, c[0], c[1], c[2]))
  {
    ProductMembers(EdgesOf(edges, w, a), EdgesOf(edges, a, b), EdgesOf(edges, w, b), c);
  }

  /** Over any adequate token list, in any order, the loops emit exactly the triangles. */
  lemma CombinationsAreTriangles(edges: seq<Pool>, w: string, tokens: seq<string>, c: seq<Pool>)
    requires Adequate(edges, w, tokens)
    ensures c in Combinations(edges, w, tokens) <==> IsTriangle(edges, w, c)
  {
    CombinationsMembers(edges, w, tokens, c);
    if i, j :| 0 <= i < j < |tokens| && c in PairCycles(edges, w, tokens[i], tokens[j]) {
      assert tokens[i] in tokens && tokens[j] in tokens;
      PairCyclesMembers(edges, w, tokens[i], tokens[j], c);
    }
    if |c| == 3 {
      if a, b :| Triangle(edges, w, a, b, c[0], c[1], c[2]) {
        var i :| 0 <= i < |tokens| && tokens[i] == a;
        var j :| 0 <= j < |tokens| && tokens[j] == b;
        PairCyclesMembers(edges, w, a, b, c);
        PairCyclesMembers(edges, w, b, a, c);
        if i < j {
          assert c in PairCycles(edges, w, tokens[i], tokens[j]);
        } else {
          assert c in PairCycles(edges, w, tokens[j], tokens[i]);
        }
      }
    }
  }

  // ----- the degree filter loses nothing

  lemma {:induction false} NeighborsMembers(edges: seq<Pool>, w: string)
    requires forall p :: p in edges ==> PoolOk(p)
    ensures Distinct(Neighbors(edges, w)) && w !in Neighbors(edges, w)
    ensures forall p :: p in edges && Holds(p, w) ==> OtherToken(p, w) in Neighbors(edges, w)
  {
    if edges == [] {
    } else {
      var n := |edges| - 1;
      assert edges == edges[..n] + [edges[n]];
      assert PoolOk(edges[n]);
      NeighborsMembers(edges[..n], w);
    }
  }

  lemma TwoEdges(edges: seq<Pool>, t: string, x: Pool, y: Pool)
    requires x in edges && y in edges && x != y && Holds(x, t) && Holds(y, t)
    ensures Degree(edges, t) > 1
  {
    var f := Filter(HoldsToken(t), edges);
    assert x in f && y in f;
    var i :| 0 <= i < |f| && f[i] == x;
    var j :| 0 <= j < |f| && f[j] == y;
    assert i != j;
  }

  lemma FilteredTokensAdequate(edges: seq<Pool>, w: string)
    requires forall p :: p in edges ==> PoolOk(p)
    ensures Adequate(edges, w, FilteredTokens(edges, w))
    ensures Adequate(edges, w, Neighbors(edges, w))
  {
    NeighborsMembers(edges, w);
    FilterDistinct(DegreeAboveOne(edges), Neighbors(edges, w));
    forall a, b, x, y, z | Triangle(edges, w, a, b, x, y, z)
      ensures a in FilteredTokens(edges, w) && b in FilteredTokens(edges, w)
    {
      assert OtherToken(x, w) == a && OtherToken(z, w) == b;
      TwoEdges(edges, a, x, y);
      TwoEdges(edges, b, z, y);
    }
  }

  // ----- counting

  function PairSum(edges: seq<Pool>, w: string, a: string, bs: seq<string>): nat {
    if bs == [] then 0
    else 2 * PairCount(edges, w, a) * PairCount(edges, a, bs[0]) * PairCount(edges, w, bs[0]) +
         PairSum(edges, w, a, bs[1..])
  }

  /** Over unordered pairs {A, B} of tokens, 2 w(A) e(A, B) w(B). */
  function CombinationSum(edges: seq<Pool>, w: string, tokens: seq<string>): nat {
    if tokens == [] then 0
    else PairSum(edges, w, tokens[0], tokens[1..]) + CombinationSum(edges, w, tokens[1..])
  }

  lemma {:induction false} ThirdsLength(a: Pool, b: Pool, cs: seq<Pool>)
    ensures |Thirds(a, b, cs)| == 2 * |cs|
  {
    if cs == [] {
    } else {
      ThirdsLength(a, b, cs[1..]);
    }
  }

  lemma {:induction false} SecondsLength(a: Pool, bs: seq<Pool>, cs: seq<Pool>)
    ensures |Seconds(a, bs, cs)| == 2 * |bs| * |cs|
  {
    if bs == [] {
    } else {
      ThirdsLength(a, bs[0], cs);
      SecondsLength(a, bs[1..], cs);
      OneMore(|bs[1..]|, 2 * |cs|);
    }
  }

  lemma {:induction false} ProductLength(xs: seq<Pool>, bs: seq<Pool>, cs: seq<Pool>)
    ensures |Product(xs, bs, cs)| == 2 * |xs| * |bs| * |cs|
  {
    if xs == [] {
    } else {
      SecondsLength(xs[0], bs, cs);
      ProductLength(xs[1..], bs, cs);
      OneMore(|xs[1..]|, 2 * |bs| * |cs|);
      Regroup(|xs|, |bs|, |cs|);
      Regroup(|xs[1..]|, |bs|, |cs|);
    }
  }

  lemma Regroup(x: int, b: int, c: int)
    ensures 2 * x * b * c == x * (2 * b * c)
  {
    assert 2 * x * b == x * (2 * b);
    assert (x * (2 * b)) * c == x * ((2 * b) * c);
  }

  lemma {:induction false} WithPartnerLength(edges: seq<Pool>, w: string, a: string, bs: seq<string>)
    ensures |WithPartner(edges, w, a, bs)| == PairSum(edges, w, a, bs)
  {
    if bs == [] {
    } else {
      ProductLength(EdgesOf(edges, w, a), EdgesOf(edges, a, bs[0]), EdgesOf(edges, w, bs[0]));
      WithPartnerLength(edges, w, a, bs[1..]);
    }
  }

  lemma {:induction false} CombinationsLength(edges: seq<Pool>, w: string, tokens: seq<string>)
    ensures |Combinations(edges, w, tokens)| == CombinationSum(edges, w, tokens)
  {
    if tokens == [] {
    } else {
      WithPartnerLength(edges, w, tokens[0], tokens[1..]);
      CombinationsLength(edges, w, tokens[1..]);
    }
  }

  // ----- no cycle twice

  lemma {:induction false} ThirdsDistinct(a: Pool, b: Pool, cs: seq<Pool>)
    requires Distinct(cs) && a !in cs
    ensures Distinct(Thirds(a, b, cs))
  {
    if cs == [] {
    } else {
      ThirdsDistinct(a, b, cs[1..]);
      var c := cs[0];
      var two := [[a, b, c], [c, b, a]];
      assert [a, b, c][0] != [c, b, a][0];
      ThirdsMembers(a, b, cs[1..], [a, b, c]);
      ThirdsMembers(a, b, cs[1..], [c, b, a]);
      DistinctJoin(two, Thirds(a, b, cs[1..]));
    }
  }

  lemma {:induction false} SecondsDistinct(a: Pool, bs: seq<Pool>, cs: seq<Pool>)
    requires Distinct(cs) && Distinct(bs) && a !in cs
    ensures Distinct(Seconds(a, bs, cs))
  {
    if bs == [] {
    } else {
      ThirdsDistinct(a, bs[0], cs);
      SecondsDistinct(a, bs[1..], cs);
      forall c | c in Thirds(a, bs[0], cs) ensures c !in Seconds(a, bs[1..], cs) {
        ThirdsMembers(a, bs[0], cs, c);
        SecondsMembers(a, bs[1..], cs, c);
      }
      DistinctJoin(Thirds(a, bs[0], cs), Seconds(a, bs[1..], cs));
    }
  }

  lemma {:induction false} ProductDistinct(xs: seq<Pool>, bs: seq<Pool>, cs: seq<Pool>)
    requires Distinct(xs) && Distinct(bs) && Distinct(cs) && forall x :: x in xs ==> x !in cs
    ensures Distinct(Product(xs, bs, cs))
  {
    if xs == [] {
    } else {
      assert xs[0] in xs;
      SecondsDistinct(xs[0], bs, cs);
      ProductDistinct(xs[1..], bs, cs);
      forall c | c in Seconds(xs[0], bs, cs) ensures c !in Product(xs[1..], bs, cs) {
        SecondsMembers(xs[0], bs, cs, c);
        ProductMembers(xs[1..], bs, cs, c);
      }
      DistinctJoin(Seconds(xs[0], bs, cs), Product(xs[1..], bs, cs));
    }
  }

  lemma PairCyclesDistinct(edges: seq<Pool>, w: string, a: string, b: string)
    requires Distinct(edges) && a != b && a != w && b != w
    ensures Distinct(PairCycles(edges, w, a, b))
  {
    FilterDistinct(PairsOf(w, a), edges);
    FilterDistinct(PairsOf(a, b), edges);
    FilterDistinct(PairsOf(w, b), edges);
    ProductDistinct(EdgesOf(edges, w, a), EdgesOf(edges, a, b), EdgesOf(edges, w, b));
  }

  /** A cycle's middle pool tells which two tokens it came from. */
  lemma MiddleTokens(edges: seq<Pool>, w: string, a: string, b: string, c: seq<Pool>)
    requires a != b && a != w && b != w && c in PairCycles(edges, w, a, b)
    ensures |c| == 3 && Pairs(c[1], a, b)
  {
    PairCyclesMembers(edges, w, a, b, c);
  }

  lemma {:induction false} WithPartnerDistinct(edges: seq<Pool>, w: string, a: string, bs: seq<string>)
    requires Distinct(edges) && Distinct(bs) && a !in bs && w !in bs && a != w
    ensures Distinct(WithPartner(edges, w, a, bs))
  {
    if bs == [] {
    } else {
      var b := bs[0];
      assert b in bs;
      PairCyclesDistinct(edges, w, a, b);
      WithPartnerDistinct(edges, w, a, bs[1..]);
      forall c | c in PairCycles(edges, w, a, b) ensures c !in WithPartner(edges, w, a, bs[1..]) {
        MiddleTokens(edges, w, a, b, c);
        WithPartnerMembers(edges, w, a, bs[1..], c);
        if d :| d in bs[1..] && c in PairCycles(edges, w, a, d) {
          assert d in bs && d != b;
          MiddleTokens(edges, w, a, d, c);
        }
      }
      DistinctJoin(PairCycles(edges, w, a, b), WithPartner(edges, w, a, bs[1..]));
    }
  }

  lemma {:induction false} CombinationsDistinct(edges: seq<Pool>, w: string, tokens: seq<string>)
    requires Distinct(edges) && Distinct(tokens) && w !in tokens
    ensures Distinct(Combinations(edges, w, tokens))
  {
    if tokens == [] {
    } else {
      var a, rest := tokens[0], tokens[1..];
      assert a in tokens && forall t :: t in rest ==> t in tokens && t != a;
      WithPartnerDistinct(edges, w, a, rest);
      CombinationsDistinct(edges, w, rest);
      forall c | c in WithPartner(edges, w, a, rest) ensures c !in Combinations(edges, w, rest) {
        HeadOnly(edges, w, a, rest, c);
      }
      DistinctJoin(WithPartner(edges, w, a, rest), Combinations(edges, w, rest));
    }
  }

  lemma HeadOnly(edges: seq<Pool>, w: string, a: string, rest: seq<string>, c: seq<Pool>)
    requires Distinct(rest) && a !in rest && w !in rest && a != w
    requires c in WithPartner(edges, w, a, rest)
    ensures c !in Combinations(edges, w, rest)
  {
    WithPartnerMembers(edges, w, a, rest, c);
    var b :| b in rest && c in PairCycles(edges, w, a, b);
    MiddleTokens(edges, w, a, b, c);
    CombinationsMembers(edges, w, rest, c);
    if i, j :| 0 <= i < j < |rest| && c in PairCycles(edges, w, rest[i], rest[j]) {
      assert rest[i] in rest && rest[j] in rest;
      MiddleTokens(edges, w, rest[i], rest[j], c);
    }
  }
}
