/** The overlap reduction shared by `process_onchain_arbs` and
    `process_backrun_arbs`: take the best remaining arb, drop every arb that
    shares a pool with it, repeat. */
module Reduction {
  import opened Seqs
  import opened StableSort

  /** An arb helper (UniswapLpCycle): its id and the addresses of its swap pools. */
  datatype Arb = Arb(id: string, pools: seq<string>)

  function PoolSet(a: Arb): set<string> {
    set p | p in a.pools
  }

  predicate Conflict(a: Arb, b: Arb) {
    PoolSet(a) * PoolSet(b) != {}
  }

  function Clashes(a: Arb): Arb -> bool {
    b => Conflict(a, b)
  }

  function Spares(a: Arb): Arb -> bool {
    b => !Conflict(a, b)
  }

  function Unblocked(chosen: seq<Arb>): Arb -> bool {
    b => forall c | c in chosen :: !Conflict(c, b)
  }

  // ----- the destructive loop and its recursive specification

  function Greedy(ranked: seq<Arb>): seq<Arb>
    decreases |ranked|
  {
    if ranked == [] then []
    else [ranked[0]] + Greedy(Filter(Spares(ranked[0]), ranked[1..]))
  }

  function Elements(s: seq<Arb>): set<Arb> {
    set a | a in s
  }

  /** Python's `list.remove`: drops the first equal element. */
  function RemoveFirst(s: seq<Arb>, x: Arb): seq<Arb>
    requires x in s
  {
    if s[0] == x then s[1..] else [s[0]] + RemoveFirst(s[1..], x)
  }

  lemma {:induction false} RemoveFirstHit(p: Arb -> bool, np: Arb -> bool, s: seq<Arb>)
    requires forall x :: np(x) == !p(x)
    requires Filter(p, s) != []
    ensures Filter(p, s)[0] in s
    ensures Filter(p, RemoveFirst(s, Filter(p, s)[0])) == Filter(p, s)[1..]
    ensures Filter(np, RemoveFirst(s, Filter(p, s)[0])) == Filter(np, s)
    ensures |RemoveFirst(s, Filter(p, s)[0])| == |s| - 1
  {
    var x := Filter(p, s)[0];
    assert x in Filter(p, s);
    if s[0] != x {
      RemoveFirstHit(p, np, s[1..]);
      assert RemoveFirst(s, x)[1..] == RemoveFirst(s[1..], x);
    }
  }

  lemma NoneClash(best: Arb, working: seq<Arb>)
    requires Filter(Clashes(best), working) == []
    ensures Filter(Spares(best), working) == working
  {
    forall a | a in working ensures Spares(best)(a) {
      assert !Clashes(best)(a) || a in Filter(Clashes(best), working);
    }
    FilterAll(Spares(best), working);
  }

  /** The `while True` loop.  `working` is the list it pops from and removes from. */
  method RemoveOverlap(ranked: seq<Arb>) returns (selected: set<Arb>)
    requires ranked != []
    ensures selected == Elements(Greedy(ranked))
  {
    var working := ranked;
    selected := {};
    while true
      invariant working != []
      invariant Elements(Greedy(ranked)) == selected + Elements(Greedy(working))
      decreases |working|
    {
      ghost var before := working;
      var best := working[0];
      working := working[1..];
      selected := selected + {best};
      var conflicting := Filter(Clashes(best), working);
      var k := 0;
      while k < |conflicting|
        invariant k <= |conflicting|
        invariant Filter(Clashes(best), working) == conflicting[k..]
        invariant Filter(Spares(best), working) == Filter(Spares(best), before[1..])
        invariant |working| == |before| - 1 - k
      {
        RemoveFirstHit(Clashes(best), Spares(best), working);
        working := RemoveFirst(working, conflicting[k]);
        k := k + 1;
      }
      NoneClash(best, working);
      assert Greedy(before) == [best] + Greedy(working);
      if working == [] {
        break;
      }
    }
  }

  // ----- the loop is a one-pass scan

  /** Keeps an arb iff it conflicts with none kept before it. */
  function OnePass(chosen: seq<Arb>, ranked: seq<Arb>): seq<Arb>
    decreases |ranked|
  {
    if ranked == [] then chosen
    else if Unblocked(chosen)(ranked[0]) then OnePass(chosen + [ranked[0]], ranked[1..])
    else OnePass(chosen, ranked[1..])
  }

  lemma UnblockedSnoc(chosen: seq<Arb>, h: Arb, s: seq<Arb>)
    ensures Filter(Unblocked(chosen + [h]), s) == Filter(Spares(h), Filter(Unblocked(chosen), s))
  {
    forall x | x in s ensures Unblocked(chosen + [h])(x) == (Spares(h)(x) && Unblocked(chosen)(x)) {
      assert forall c :: c in chosen + [h] <==> c in chosen || c == h;
    }
    FilterFilter(Spares(h), Unblocked(chosen), Unblocked(chosen + [h]), s);
  }

  lemma GreedyCons(h: Arb, t: seq<Arb>)
    ensures Greedy([h] + t) == [h] + Greedy(Filter(Spares(h), t))
  {
    assert ([h] + t)[1..] == t;
  }

  lemma UnblockedStep(chosen: seq<Arb>, h: Arb, t: seq<Arb>)
    requires Unblocked(chosen)(h)
    ensures (chosen + [h]) + Greedy(Filter(Unblocked(chosen + [h]), t)) ==
            chosen + Greedy(Filter(Unblocked(chosen), [h] + t))
  {
    FilterCons(Unblocked(chosen), h, t);
    UnblockedSnoc(chosen, h, t);
    GreedyCons(h, Filter(Unblocked(chosen), t));
  }

  lemma {:induction false} OnePassIsGreedy(chosen: seq<Arb>, ranked: seq<Arb>)
    ensures OnePass(chosen, ranked) == chosen + Greedy(Filter(Unblocked(chosen), ranked))
    decreases |ranked|
  {
    if ranked == [] {
    } else {
      var h, t := ranked[0], ranked[1..];
      if Unblocked(chosen)(h) {
        OnePassIsGreedy(chosen + [h], t);
        UnblockedStep(chosen, h, t);
        assert [h] + t == ranked;
      } else {
        OnePassIsGreedy(chosen, t);
      }
    }
  }

  lemma GreedyIsOnePass(ranked: seq<Arb>)
    ensures Greedy(ranked) == OnePass([], ranked)
  {
    OnePassIsGreedy([], ranked);
    FilterAll(Unblocked([]), ranked);
  }

  lemma {:induction false} OnePassSnoc(chosen: seq<Arb>, ranked: seq<Arb>, x: Arb)
    ensures OnePass(chosen, ranked + [x]) == OnePass(OnePass(chosen, ranked), [x])
    decreases |ranked|
  {
    if ranked == [] {
      assert ranked + [x] == [x];
    } else {
      assert (ranked + [x])[1..] == ranked[1..] + [x];
      var next := if Unblocked(chosen)(ranked[0]) then chosen + [ranked[0]] else chosen;
      OnePassSnoc(next, ranked[1..], x);
    }
  }

  /** Appending a worse arb only ever appends it to the selection, and does so iff
      it conflicts with nothing selected. */
  lemma GreedySnoc(ranked: seq<Arb>, x: Arb)
    ensures Greedy(ranked + [x]) ==
            if forall s | s in Greedy(ranked) :: !Conflict(s, x) then Greedy(ranked) + [x] else Greedy(ranked)
  {
    GreedyIsOnePass(ranked);
    GreedyIsOnePass(ranked + [x]);
    OnePassSnoc([], ranked, x);
  }

  // ----- what the selection is

  /** Selected arbs come from the list and pairwise share no pool. */
  lemma {:induction false} GreedyDisjoint(ranked: seq<Arb>)
    ensures forall a :: a in Greedy(ranked) ==> a in ranked
    ensures forall i, j :: 0 <= i < j < |Greedy(ranked)| ==> !Conflict(Greedy(ranked)[i], Greedy(ranked)[j])
    decreases |ranked|
  {
    if ranked == [] {
    } else {
      var rest := Filter(Spares(ranked[0]), ranked[1..]);
      GreedyDisjoint(rest);
      forall j | 0 <= j < |Greedy(rest)| ensures !Conflict(ranked[0], Greedy(rest)[j]) {
        assert Greedy(rest)[j] in rest;
      }
    }
  }

  /** A dropped arb conflicts with a selected arb ranked before it. */
  lemma {:induction false} GreedyMaximal(ranked: seq<Arb>, i: nat)
    requires i < |ranked|
    ensures ranked[i] in Greedy(ranked) ||
            exists j :: 0 <= j < i && ranked[j] in Greedy(ranked) && Conflict(ranked[j], ranked[i])
    decreases |ranked|
  {
    var last := |ranked| - 1;
    var front := ranked[..last];
    assert ranked == front + [ranked[last]];
    GreedySnoc(front, ranked[last]);
    if i < last {
      GreedyMaximal(front, i);
      if ranked[i] !in Greedy(ranked) {
        var j :| 0 <= j < i && front[j] in Greedy(front) && Conflict(front[j], front[i]);
        assert ranked[j] in Greedy(ranked);
      }
    } else if ranked[i] !in Greedy(ranked) {
      var s :| s in Greedy(front) && Conflict(s, ranked[last]);
      GreedyDisjoint(front);
      var j :| 0 <= j < last && front[j] == s;
      assert ranked[j] == s;
    }
  }

  /** When every arb of the list goes through one pool, exactly the first survives. */
  lemma OneTriggerOneWinner(pool: string, ranked: seq<Arb>)
    requires ranked != [] && forall a :: a in ranked ==> pool in a.pools
    ensures Greedy(ranked) == [ranked[0]]
  {
    forall a | a in ranked[1..] ensures !Spares(ranked[0])(a) {
      assert pool in PoolSet(ranked[0]) * PoolSet(a);
    }
    FilterNone(Spares(ranked[0]), ranked[1..]);
  }

  // ----- ranking by profit

  function WorthKey(worth: Arb -> int): Arb -> Key {
    a => (-worth(a), 0)
  }

  function Profitable(worth: Arb -> int): Arb -> bool {
    a => worth(a) >= 0
  }

  /** Results in completion order, filtered and sorted by descending profit. */
  function Ranked(worth: Arb -> int, completed: seq<Arb>): seq<Arb> {
    Sort(WorthKey(worth), Filter(Profitable(worth), completed))
  }

  function Selection(worth: Arb -> int, completed: seq<Arb>): set<Arb> {
    Elements(Greedy(Ranked(worth, completed)))
  }

  function Total(worth: Arb -> int, s: seq<Arb>): int {
    if s == [] then 0 else worth(s[0]) + Total(worth, s[1..])
  }

  ghost predicate Disjoint(s: seq<Arb>) {
    forall i, j :: 0 <= i < j < |s| ==> !Conflict(s[i], s[j])
  }

  lemma SelectionFacts(worth: Arb -> int, completed: seq<Arb>)
    ensures forall a :: a in Selection(worth, completed) ==> a in completed && worth(a) >= 0
    ensures forall a, b :: a in Selection(worth, completed) && b in Selection(worth, completed) && a != b ==>
              !Conflict(a, b)
    ensures forall a :: a in completed && worth(a) >= 0 && a !in Selection(worth, completed) ==>
              exists b :: b in Selection(worth, completed) && worth(b) >= worth(a) && Conflict(b, a)
  {
    var profitable := Filter(Profitable(worth), completed);
    var ranked := Ranked(worth, completed);
    SortPerm(WorthKey(worth), profitable);
    SortIsStable(WorthKey(worth), profitable);
    GreedyDisjoint(ranked);
    var g := Greedy(ranked);
    forall a, b | a in g && b in g && a != b ensures !Conflict(a, b) {
      MembersDisjoint(g, a, b);
    }
    forall a | a in ranked && a !in g ensures exists b :: b in g && worth(b) >= worth(a) && Conflict(b, a) {
      var b := BetterSelected(worth, ranked, a);
    }
  }

  lemma ConflictIff(a: Arb, b: Arb)
    ensures Conflict(a, b) <==> exists p :: p in a.pools && p in b.pools
  {
    if Conflict(a, b) {
      var p :| p in PoolSet(a) * PoolSet(b);
    }
    if p :| p in a.pools && p in b.pools {
      assert p in PoolSet(a) * PoolSet(b);
    }
  }

  /** The same in terms of pool addresses: selected arbs share none, and each dropped
      profitable arb shares one with a selected arb of at least its profit. */
  lemma SelectionByAddress(worth: Arb -> int, completed: seq<Arb>)
    ensures forall a, b, p ::
              a in Selection(worth, completed) && b in Selection(worth, completed) && a != b && p in a.pools ==>
              p !in b.pools
    ensures forall a :: a in completed && worth(a) >= 0 && a !in Selection(worth, completed) ==>
              exists b, p :: b in Selection(worth, completed) && worth(b) >= worth(a) && p in a.pools && p in b.pools
  {
    SelectionFacts(worth, completed);
    forall a, b, p | a in Selection(worth, completed) && b in Selection(worth, completed) && a != b && p in a.pools
      ensures p !in b.pools
    {
      ConflictIff(a, b);
    }
    forall a | a in completed && worth(a) >= 0 && a !in Selection(worth, completed)
      ensures exists b, p :: b in Selection(worth, completed) && worth(b) >= worth(a) && p in a.pools && p in b.pools
    {
      var b :| b in Selection(worth, completed) && worth(b) >= worth(a) && Conflict(b, a);
      ConflictIff(b, a);
    }
  }

  lemma MembersDisjoint(s: seq<Arb>, a: Arb, b: Arb)
    requires Disjoint(s) && a in s && b in s && a != b
    ensures !Conflict(a, b)
  {
    var i :| 0 <= i < |s| && s[i] == a;
    var j :| 0 <= j < |s| && s[j] == b;
    if j < i { assert PoolSet(a) * PoolSet(b) == PoolSet(b) * PoolSet(a); }
  }

  lemma BetterSelected(worth: Arb -> int, ranked: seq<Arb>, a: Arb) returns (b: Arb)
    requires Sorted(WorthKey(worth), ranked) && a in ranked && a !in Greedy(ranked)
    ensures b in Greedy(ranked) && worth(b) >= worth(a) && Conflict(b, a)
  {
    var i :| 0 <= i < |ranked| && ranked[i] == a;
    GreedyMaximal(ranked, i);
    var j :| 0 <= j < i && ranked[j] in Greedy(ranked) && Conflict(ranked[j], a);
    assert Le(WorthKey(worth)(ranked[j]), WorthKey(worth)(ranked[i]));
    b := ranked[j];
  }

  // ----- the approximation bound

  lemma {:induction false} TotalSplit(worth: Arb -> int, p: Arb -> bool, np: Arb -> bool, s: seq<Arb>)
    requires forall x :: np(x) == !p(x)
    ensures Total(worth, s) == Total(worth, Filter(p, s)) + Total(worth, Filter(np, s))
  {
    if s == [] {
    } else {
      TotalSplit(worth, p, np, s[1..]);
    }
  }

  lemma {:induction false} TotalAtMost(worth: Arb -> int, s: seq<Arb>, top: int)
    requires forall a :: a in s ==> worth(a) <= top
    ensures Total(worth, s) <= |s| * top
  {
    if s == [] {
    } else {
      TotalAtMost(worth, s[1..], top);
      calc {
        |s| * top;
        (1 + |s[1..]|) * top;
        top + |s[1..]| * top;
      }
    }
  }

  /** Pairwise disjoint arbs that all meet a set of pools are at most as many as
      the pools. */
  lemma {:induction false} DisjointAtMost(s: seq<Arb>, pools: set<string>)
    requires Disjoint(s)
    requires forall a :: a in s ==> PoolSet(a) * pools != {}
    ensures |s| <= |pools|
  {
    if s == [] {
    } else {
      var p :| p in PoolSet(s[0]) * pools;
      var rest := pools - PoolSet(s[0]);
      forall a | a in s[1..] ensures PoolSet(a) * rest != {} {
        var j :| 0 < j < |s| && s[j] == a;
        assert !Conflict(s[0], s[j]);
        var q :| q in PoolSet(a) * pools;
        assert q !in PoolSet(s[0]) * PoolSet(a);
        assert q in PoolSet(a) * rest;
      }
      DisjointAtMost(s[1..], rest);
      assert rest <= pools - {p};
      CardinalitySubset(rest, pools - {p});
    }
  }

  lemma {:induction false} CardinalitySubset(a: set<string>, b: set<string>)
    requires a <= b
    ensures |a| <= |b|
  {
    if a == {} {
    } else {
      var x :| x in a;
      CardinalitySubset(a - {x}, b - {x});
    }
  }

  function MetBy(h: Arb): Arb -> bool {
    b => b == h || Conflict(h, b)
  }

  function MissedBy(h: Arb): Arb -> bool {
    b => !(b == h || Conflict(h, b))
  }

  lemma {:induction false} FilterSorted<T(!new)>(key: T -> Key, p: T -> bool, s: seq<T>)
    requires Sorted(key, s)
    ensures Sorted(key, Filter(p, s))
  {
    if s == [] {
    } else {
      FilterSorted(key, p, s[1..]);
      var f := Filter(p, s[1..]);
      forall j | 0 <= j < |f| ensures Le(key(s[0]), key(f[j])) {
        assert f[j] in f;
        var i :| 0 < i < |s| && s[i] == f[j];
      }
    }
  }

  lemma Repeats(s: seq<Arb>, h: Arb)
    requires |s| > 1 && forall i :: 0 <= i < |s| ==> s[i] == h
    ensures !Distinct(s)
  {
    assert s[0] == s[1];
  }

  lemma FewMet(h: Arb, family: seq<Arb>, k: nat)
    requires Distinct(family) && Disjoint(family) && 1 <= k && |PoolSet(h)| <= k
    requires forall a :: a in family ==> MetBy(h)(a)
    ensures |family| <= k
  {
    if PoolSet(h) == {} {
      forall i | 0 <= i < |family| ensures family[i] == h {
        assert MetBy(h)(family[i]) && !Conflict(h, family[i]);
      }
      if |family| > 1 {
        Repeats(family, h);
      }
    } else {
      forall a | a in family ensures PoolSet(a) * PoolSet(h) != {} {
        assert PoolSet(a) * PoolSet(h) == PoolSet(h) * PoolSet(a);
      }
      DisjointAtMost(family, PoolSet(h));
    }
  }

  lemma {:induction false} FilterDisjoint(p: Arb -> bool, s: seq<Arb>)
    requires Disjoint(s)
    ensures Disjoint(Filter(p, s))
  {
    if s == [] {
    } else {
      FilterDisjoint(p, s[1..]);
      var f := Filter(p, s[1..]);
      forall j | 0 <= j < |f| ensures !Conflict(s[0], f[j]) {
        assert f[j] in f;
        var i :| 0 < i < |s| && s[i] == f[j];
      }
    }
  }

  lemma MulMono(a: int, b: int, c: int)
    requires a <= b && 0 <= c
    ensures a * c <= b * c
  {
  }

  lemma BoundSum(k: int, w: int, g: int, met: int, missed: int, total: int)
    requires met <= k * w && missed <= k * g && total == w + g
    ensures met + missed <= k * total
  {
    assert k * (w + g) == k * w + k * g;
  }

  /** Greedy packing is a k-approximation: with at most k pools per arb, no family
      of pairwise pool-disjoint arbs is worth more than k times the selection. */
  lemma {:induction false} GreedyBound(worth: Arb -> int, k: nat, ranked: seq<Arb>, family: seq<Arb>)
    requires 1 <= k && Sorted(WorthKey(worth), ranked)
    requires forall a :: a in ranked ==> worth(a) >= 0 && |PoolSet(a)| <= k
    requires Distinct(family) && Disjoint(family) && forall a :: a in family ==> a in ranked
    ensures Total(worth, family) <= k * Total(worth, Greedy(ranked))
    decreases |ranked|
  {
    if ranked == [] {
      TotalAtMost(worth, family, 0);
    } else {
      var h := ranked[0];
      var rest := Filter(Spares(h), ranked[1..]);
      var met, missed := Filter(MetBy(h), family), Filter(MissedBy(h), family);
      TotalSplit(worth, MetBy(h), MissedBy(h), family);
      MetBound(worth, k, ranked, family);
      FilterDistinct(MissedBy(h), family);
      FilterDisjoint(MissedBy(h), family);
      FilterSorted(WorthKey(worth), Spares(h), ranked[1..]);
      forall a | a in missed ensures a in rest {
        assert a in ranked && !Conflict(h, a) && a != h;
      }
      GreedyBound(worth, k, rest, missed);
      GreedyTotal(worth, ranked);
      BoundSum(k, worth(h), Total(worth, Greedy(rest)), Total(worth, met), Total(worth, missed),
        Total(worth, Greedy(ranked)));
    }
  }

  lemma GreedyTotal(worth: Arb -> int, ranked: seq<Arb>)
    requires ranked != []
    ensures Total(worth, Greedy(ranked)) ==
            worth(ranked[0]) + Total(worth, Greedy(Filter(Spares(ranked[0]), ranked[1..])))
  {
    assert Greedy(ranked)[1..] == Greedy(Filter(Spares(ranked[0]), ranked[1..]));
  }

  lemma MetBound(worth: Arb -> int, k: nat, ranked: seq<Arb>, family: seq<Arb>)
    requires 1 <= k && ranked != [] && Sorted(WorthKey(worth), ranked)
    requires forall a :: a in ranked ==> worth(a) >= 0 && |PoolSet(a)| <= k
    requires Distinct(family) && Disjoint(family) && forall a :: a in family ==> a in ranked
    ensures Total(worth, Filter(MetBy(ranked[0]), family)) <= k * worth(ranked[0])
  {
    var h := ranked[0];
    var met := Filter(MetBy(h), family);
    FilterDistinct(MetBy(h), family);
    FilterDisjoint(MetBy(h), family);
    FewMet(h, met, k);
    forall a | a in met ensures worth(a) <= worth(h) {
      var i :| 0 <= i < |ranked| && ranked[i] == a;
      if i > 0 { assert Le(WorthKey(worth)(ranked[0]), WorthKey(worth)(ranked[i])); }
    }
    TotalAtMost(worth, met, worth(h));
    MulMono(|met|, k, worth(h));
  }

  // ----- the factor is exact, for every k

  function Same(): Arb -> int {
    a => 1
  }

  /** The i-th of an endless supply of pool addresses. */
  function Unary(i: nat): (s: string)
    ensures |s| == i
  {
    if i == 0 then "" else Unary(i - 1) + "1"
  }

  /** An arb of two pools: the i-th pool of the hub and one of its own. */
  function Spoke(k: nat, i: nat): Arb {
    Arb(Unary(i), [Unary(i), Unary(k + i)])
  }

  function Spokes(k: nat, n: nat): (s: seq<Arb>)
    ensures |s| == n && forall i :: 0 <= i < n ==> s[i] == Spoke(k, i)
  {
    if n == 0 then [] else Spokes(k, n - 1) + [Spoke(k, n - 1)]
  }

  function HubPools(n: nat): (s: seq<string>)
    ensures |s| == n && forall i :: 0 <= i < n ==> s[i] == Unary(i)
  {
    if n == 0 then [] else HubPools(n - 1) + [Unary(n - 1)]
  }

  function Hub(k: nat): Arb {
    Arb(Unary(k), HubPools(k))
  }

  lemma SpokesAreDisjoint(k: nat, i: nat, j: nat)
    requires i < j < k
    ensures !Conflict(Spoke(k, i), Spoke(k, j)) && Spoke(k, i) != Spoke(k, j)
  {
    assert Spoke(k, i).id != Spoke(k, j).id by {
      assert |Spoke(k, i).id| != |Spoke(k, j).id|;
    }
    forall p | p in PoolSet(Spoke(k, i)) ensures p !in PoolSet(Spoke(k, j)) {
      assert |p| == i || |p| == k + i;
      assert forall q :: q in PoolSet(Spoke(k, j)) ==> |q| == j || |q| == k + j;
    }
  }

  lemma HubMeetsSpoke(k: nat, i: nat)
    requires i < k
    ensures Conflict(Hub(k), Spoke(k, i))
  {
    assert HubPools(k)[i] == Unary(i);
    assert Spoke(k, i).pools[0] == Unary(i);
    assert Unary(i) in PoolSet(Hub(k)) * PoolSet(Spoke(k, i));
  }

  lemma {:induction false} PoolSetSize(s: seq<string>)
    ensures |set p | p in s| <= |s|
  {
    var all := set p | p in s;
    if s == [] {
      assert all == {};
    } else {
      PoolSetSize(s[1..]);
      var rest := set p | p in s[1..];
      assert all == rest + {s[0]};
    }
  }

  lemma {:induction false} SameTotal(s: seq<Arb>)
    ensures Total(Same(), s) == |s|
  {
    if s == [] {
    } else {
      SameTotal(s[1..]);
    }
  }

  lemma HubAlone(k: nat)
    ensures Greedy([Hub(k)] + Spokes(k, k)) == [Hub(k)]
  {
    var fam := Spokes(k, k);
    forall a | a in fam ensures !Spares(Hub(k))(a) {
      var i :| 0 <= i < k && fam[i] == a;
      HubMeetsSpoke(k, i);
    }
    FilterNone(Spares(Hub(k)), fam);
    GreedyCons(Hub(k), fam);
  }

  /** For every k >= 2 there are arbs of at most k pools, two pools each but for one
      of k, among them a disjoint family worth k times what is selected. */
  lemma GreedyBoundIsTight(k: nat) returns (ranked: seq<Arb>, family: seq<Arb>)
    requires k >= 2
    ensures Sorted(WorthKey(Same()), ranked)
    ensures forall a :: a in ranked ==> 2 <= |a.pools| <= k && |PoolSet(a)| <= k
    ensures Distinct(family) && Disjoint(family) && forall a :: a in family ==> a in ranked
    ensures Total(Same(), family) == k * Total(Same(), Greedy(ranked)) > 0
  {
    family := Spokes(k, k);
    ranked := [Hub(k)] + family;
    forall i, j | 0 <= i < j < k ensures family[i] != family[j] && !Conflict(family[i], family[j]) {
      SpokesAreDisjoint(k, i, j);
    }
    forall a | a in ranked ensures 2 <= |a.pools| <= k && |PoolSet(a)| <= k {
      PoolSetSize(a.pools);
    }
    HubAlone(k);
    SameTotal(family);
    SameTotal([Hub(k)]);
  }

  // ----- dependence on the order in which calculations complete

  /** s is a pool-disjoint set of profitable arbs, and every other profitable arb
      conflicts with a strictly better member of s. */
  ghost predicate Decisive(worth: Arb -> int, completed: seq<Arb>, s: set<Arb>) {
    && (forall a :: a in s ==> a in completed && worth(a) >= 0)
    && (forall a, b :: a in s && b in s && a != b ==> !Conflict(a, b))
    && (forall a :: a in completed && worth(a) >= 0 && a !in s ==>
          exists b :: b in s && worth(b) > worth(a) && Conflict(b, a))
  }

  lemma {:induction false} DecisiveMember(worth: Arb -> int, completed: seq<Arb>, s: set<Arb>, a: Arb, top: int)
    requires Decisive(worth, completed, s)
    requires forall x :: x in completed ==> worth(x) <= top
    requires a in completed
    ensures a in s <==> a in Selection(worth, completed)
    decreases top - worth(a)
  {
    var chosen := Selection(worth, completed);
    SelectionFacts(worth, completed);
    forall x | x in completed && worth(x) > worth(a) ensures x in s <==> x in chosen {
      DecisiveMember(worth, completed, s, x, top);
    }
  }

  /** A decisive set is what every completion order selects. */
  lemma DecisiveIsSelected(worth: Arb -> int, completed: seq<Arb>, s: set<Arb>, other: seq<Arb>)
    requires Decisive(worth, completed, s) && multiset(other) == multiset(completed)
    ensures Selection(worth, other) == s
  {
    SameElements(completed, other);
    var top := Best(worth, other);
    SelectionFacts(worth, other);
    forall a | a in other ensures a in s <==> a in Selection(worth, other) {
      DecisiveMember(worth, other, s, a, top);
    }
  }

  lemma SameElements(a: seq<Arb>, b: seq<Arb>)
    requires multiset(a) == multiset(b)
    ensures forall x :: x in a <==> x in b
  {
    forall x ensures x in a <==> x in b {
      assert x in a <==> x in multiset(a);
      assert x in b <==> x in multiset(b);
    }
  }

  /** In Insert's result everything before the inserted element has a smaller key. */
  lemma {:induction false} InsertPosition<T(!new)>(key: T -> Key, x: T, s: seq<T>) returns (i: nat)
    ensures i < |Insert(key, x, s)| && Insert(key, x, s)[i] == x
    ensures forall j :: 0 <= j < i ==> Lt(key(Insert(key, x, s)[j]), key(x))
  {
    if s == [] || Le(key(x), key(s[0])) {
      i := 0;
    } else {
      i := InsertPosition(key, x, s[1..]);
      i := i + 1;
    }
  }

  /** The first arb to complete loses only to strictly better ones. */
  lemma FirstToComplete(worth: Arb -> int, a: Arb, rest: seq<Arb>)
    requires worth(a) >= 0
    ensures a in Selection(worth, [a] + rest) ||
            exists s :: s in Selection(worth, [a] + rest) && worth(s) > worth(a) && Conflict(s, a)
  {
    var c := [a] + rest;
    assert c[1..] == rest;
    var tail := Filter(Profitable(worth), rest);
    var sorted := Sort(WorthKey(worth), tail);
    var f := Filter(Profitable(worth), c);
    assert f[0] == a && f[1..] == tail;
    var ranked := Ranked(worth, c);
    assert ranked == Insert(WorthKey(worth), a, sorted);
    var i := InsertPosition(WorthKey(worth), a, sorted);
    GreedyMaximal(ranked, i);
    if a !in Greedy(ranked) {
      var j :| 0 <= j < i && ranked[j] in Greedy(ranked) && Conflict(ranked[j], ranked[i]);
      assert Lt(WorthKey(worth)(ranked[j]), WorthKey(worth)(a));
    }
  }

  lemma MoveFirst(c: seq<Arb>, a: Arb) returns (r: seq<Arb>)
    requires a in c
    ensures multiset(c) == multiset([a] + r)
  {
    var i :| 0 <= i < |c| && c[i] == a;
    assert c == c[..i] + [a] + c[i+1..];
    r := c[..i] + c[i+1..];
  }

  /** The selected set is the same for every completion order of the same results
      iff the results have a decisive set. */
  lemma ScheduleIndependence(worth: Arb -> int, completed: seq<Arb>)
    ensures (exists s :: Decisive(worth, completed, s)) <==>
            forall other :: multiset(other) == multiset(completed) ==>
              Selection(worth, other) == Selection(worth, completed)
  {
    if s :| Decisive(worth, completed, s) {
      DecisiveIsSelected(worth, completed, s, completed);
      forall other | multiset(other) == multiset(completed)
        ensures Selection(worth, other) == Selection(worth, completed)
      {
        DecisiveIsSelected(worth, completed, s, other);
      }
    } else {
      var other := UndecidedDependsOnSchedule(worth, completed);
    }
  }

  /** Otherwise some dropped arb is selected when it completes first, or changes the
      selection in some other way. */
  lemma UndecidedDependsOnSchedule(worth: Arb -> int, completed: seq<Arb>) returns (other: seq<Arb>)
    requires !Decisive(worth, completed, Selection(worth, completed))
    ensures multiset(other) == multiset(completed) && Selection(worth, other) != Selection(worth, completed)
  {
    SelectionFacts(worth, completed);
    var a :| a in completed && worth(a) >= 0 && a !in Selection(worth, completed) &&
             forall b :: b in Selection(worth, completed) && worth(b) > worth(a) ==> !Conflict(b, a);
    var rest := MoveFirst(completed, a);
    FirstToComplete(worth, a, rest);
    other := [a] + rest;
  }

  lemma {:induction false} Best(worth: Arb -> int, s: seq<Arb>) returns (top: int)
    ensures forall a :: a in s ==> worth(a) <= top
  {
    if s == [] {
      top := 0;
    } else {
      top := Best(worth, s[1..]);
      if top < worth(s[0]) { top := worth(s[0]); }
    }
  }

  lemma DistinctProfitsDecide(worth: Arb -> int, completed: seq<Arb>)
    requires forall a, b :: a in completed && b in completed && a != b ==> worth(a) != worth(b)
    ensures Decisive(worth, completed, Selection(worth, completed))
  {
    SelectionFacts(worth, completed);
  }

  /** In particular, pairwise different profits leave nothing to the schedule. */
  lemma DistinctProfitsSettle(worth: Arb -> int, completed: seq<Arb>)
    requires forall a, b :: a in completed && b in completed && a != b ==> worth(a) != worth(b)
    ensures forall other :: multiset(other) == multiset(completed) ==>
              Selection(worth, other) == Selection(worth, completed)
  {
    DistinctProfitsDecide(worth, completed);
    forall other | multiset(other) == multiset(completed)
      ensures Selection(worth, other) == Selection(worth, completed)
    {
      DecisiveIsSelected(worth, completed, Selection(worth, completed), other);
    }
  }

  /** Two arbs of equal profit that share a pool: whichever completes first is selected. */
  lemma ScheduleMatters(worth: Arb -> int, a: Arb, b: Arb)
    requires a != b && worth(a) == worth(b) >= 0 && Conflict(a, b)
    ensures multiset([a, b]) == multiset([b, a])
    ensures Selection(worth, [a, b]) == {a} && Selection(worth, [b, a]) == {b}
  {
    PairSelection(worth, a, b);
    assert PoolSet(a) * PoolSet(b) == PoolSet(b) * PoolSet(a);
    PairSelection(worth, b, a);
    assert [a, b] == [a] + [b] && [b, a] == [b] + [a];
  }

  lemma PairSelection(worth: Arb -> int, a: Arb, b: Arb)
    requires worth(a) == worth(b) >= 0 && Conflict(a, b)
    ensures Selection(worth, [a, b]) == {a}
  {
    FilterAll(Profitable(worth), [a, b]);
    assert [a, b][1..] == [b] && [b][1..] == [];
    assert Sort(WorthKey(worth), [b]) == [b];
    assert Ranked(worth, [a, b]) == [a] + [b];
    FilterNone(Spares(a), [b]);
    GreedyCons(a, [b]);
  }
}
