/** What the two path builders share: dictionaries of pools by address, path ids and
    the file of paths keyed by id. */
module PathFiles {
  import opened Seqs
  import opened Pools

  // ----- pools by address

  /** `d[pool_address] = pool`, on the values of d in dictionary order. */
  function Put(d: seq<Pool>, p: Pool): seq<Pool> {
    if d == [] then [p]
    else if d[0].address == p.address then [p] + d[1..]
    else [d[0]] + Put(d[1..], p)
  }

  function PutAll(d: seq<Pool>, pools: seq<Pool>): seq<Pool>
    decreases |pools|
  {
    if pools == [] then d else PutAll(Put(d, pools[0]), pools[1..])
  }

  ghost predicate DistinctAddresses(s: seq<Pool>) {
    forall i, j :: 0 <= i < j < |s| ==> s[i].address != s[j].address
  }

  /** Records of one address are equal, as repeated scanner windows leave them. */
  ghost predicate Consistent(s: seq<Pool>) {
    forall p, q :: p in s && q in s && p.address == q.address ==> p == q
  }

  lemma {:induction false} PutMembers(d: seq<Pool>, p: Pool)
    requires DistinctAddresses(d) && forall q :: q in d && q.address == p.address ==> q == p
    ensures DistinctAddresses(Put(d, p))
    ensures forall q :: q in Put(d, p) <==> q in d || q == p
  {
    if d == [] {
    } else {
      assert d[0] in d;
      if d[0].address != p.address {
        PutMembers(d[1..], p);
        var r := Put(d[1..], p);
        forall j | 0 <= j < |r| ensures r[j].address != d[0].address {
          assert r[j] in r;
        }
      }
    }
  }

  /** Loading a list keeps one entry per pool, whatever it repeats. */
  lemma {:induction false} PutAllMembers(d: seq<Pool>, pools: seq<Pool>)
    requires DistinctAddresses(d) && Consistent(d + pools)
    ensures DistinctAddresses(PutAll(d, pools))
    ensures forall q :: q in PutAll(d, pools) <==> q in d || q in pools
    decreases |pools|
  {
    if pools == [] {
    } else {
      var p := pools[0];
      assert p in d + pools;
      forall q | q in d && q.address == p.address ensures q == p {
        assert q in d + pools;
      }
      PutMembers(d, p);
      forall q | q in Put(d, p) + pools[1..] ensures q in d + pools {}
      PutAllMembers(Put(d, p), pools[1..]);
    }
  }

  // ----- path ids

  /** "0x" and 40 hexadecimal digits. */
  predicate FixedWidth(address: string) {
    |address| == 42 && address[..2] == "0x"
  }

  function Hex(path: seq<string>): (r: string)
    requires forall a :: a in path ==> FixedWidth(a)
    ensures |r| == 40 * |path|
  {
    if path == [] then ""
    else
      assert path[0] in path && FixedWidth(path[0]);
      path[0][2..] + Hex(path[1..])
  }

  lemma {:induction false} HexInjective(p: seq<string>, q: seq<string>)
    requires (forall a :: a in p ==> FixedWidth(a)) && (forall a :: a in q ==> FixedWidth(a))
    requires Hex(p) == Hex(q)
    ensures p == q
  {
    if p != [] && q != [] {
      assert p[0] in p && q[0] in q;
      assert Hex(p)[..40] == p[0][2..] && Hex(q)[..40] == q[0][2..];
      assert p[0] == p[0][..2] + p[0][2..] && q[0] == q[0][..2] + q[0][2..];
      assert Hex(p)[40..] == Hex(p[1..]) && Hex(q)[40..] == Hex(q[1..]);
      HexInjective(p[1..], q[1..]);
      assert p == [p[0]] + p[1..] && q == [q[0]] + q[1..];
    }
  }

  lemma HexOne(a: string)
    requires FixedWidth(a)
    ensures Hex([a]) == a[2..]
  {
    assert [a][1..] == [];
    assert Hex([a]) == a[2..] + "";
  }

  lemma {:induction false} HexAppend(x: seq<string>, y: seq<string>)
    requires (forall a :: a in x ==> FixedWidth(a)) && (forall a :: a in y ==> FixedWidth(a))
    ensures Hex(x + y) == Hex(x) + Hex(y)
  {
    if x == [] {
      assert x + y == y;
    } else {
      assert x[0] in x && (x + y)[1..] == x[1..] + y;
      HexAppend(x[1..], y);
    }
  }

  type Hash = string -> string

  ghost predicate Injective(keccak: Hash) {
    forall x, y :: keccak(x) == keccak(y) ==> x == y
  }

  /** Pools as the factories create them. */
  predicate PoolOk(p: Pool) {
    p.token0 != p.token1 && FixedWidth(p.address)
  }

  predicate CycleOk(c: seq<Pool>) {
    forall p :: p in c ==> PoolOk(p)
  }

  function Addresses(c: seq<Pool>): (r: seq<string>)
    ensures |r| == |c| && forall i :: 0 <= i < |c| ==> r[i] == c[i].address
  {
    if c == [] then [] else [c[0].address] + Addresses(c[1..])
  }

  function Id(keccak: Hash, c: seq<Pool>): string
    requires CycleOk(c)
  {
    AddressesFixed(c);
    keccak(Hex(Addresses(c)))
  }

  lemma AddressesFixed(c: seq<Pool>)
    requires CycleOk(c)
    ensures forall a :: a in Addresses(c) ==> FixedWidth(a)
  {
    forall a | a in Addresses(c) ensures FixedWidth(a) {
      var i :| 0 <= i < |c| && Addresses(c)[i] == a;
      assert c[i] in c;
    }
  }

  /** Two different cycles over the same pools never share an id. */
  lemma IdInjective(keccak: Hash, pools: seq<Pool>, c: seq<Pool>, d: seq<Pool>)
    requires Injective(keccak) && Consistent(pools) && CycleOk(c) && CycleOk(d)
    requires (forall p :: p in c ==> p in pools) && (forall p :: p in d ==> p in pools)
    requires Id(keccak, c) == Id(keccak, d)
    ensures c == d
  {
    AddressesFixed(c);
    AddressesFixed(d);
    HexInjective(Addresses(c), Addresses(d));
    forall i | 0 <= i < |c| ensures c[i] == d[i] {
      assert c[i] in c && d[i] in d && c[i].address == Addresses(d)[i];
    }
  }

  // ----- the file of paths

  datatype ArbPath = ArbPath(id: string, pools: map<string, Pool>, path: seq<string>)

  function ByAddress(c: seq<Pool>): map<string, Pool> {
    if c == [] then map[] else ByAddress(c[..|c| - 1])[c[|c| - 1].address := c[|c| - 1]]
  }

  function PathOf(keccak: Hash, c: seq<Pool>): ArbPath
    requires CycleOk(c)
  {
    ArbPath(Id(keccak, c), ByAddress(c), Addresses(c))
  }

  /** An entry's dictionary has exactly the pools of its path, each under its address. */
  lemma {:induction false} PathPools(c: seq<Pool>)
    requires Consistent(c)
    ensures forall a :: a in ByAddress(c) <==> a in Addresses(c)
    ensures forall p :: p in c ==> p.address in ByAddress(c) && ByAddress(c)[p.address] == p
    decreases |c|
  {
    if c == [] {
    } else {
      var n := |c| - 1;
      assert c == c[..n] + [c[n]];
      PathPools(c[..n]);
      AddressesMembers(c);
      AddressesMembers(c[..n]);
    }
  }

  lemma AddressesMembers(c: seq<Pool>)
    ensures forall a :: a in Addresses(c) <==> exists p :: p in c && p.address == a
  {
    forall a | a in Addresses(c) ensures exists p :: p in c && p.address == a {
      var i :| 0 <= i < |c| && Addresses(c)[i] == a;
      assert c[i] in c;
    }
    forall p | p in c ensures p.address in Addresses(c) {
      var i :| 0 <= i < |c| && c[i] == p;
      assert Addresses(c)[i] == p.address;
    }
  }

  /** The entry of a 2-pool cycle, as the builder writes it. */
  function TwoPoolEntry(keccak: Hash, a: Pool, b: Pool): ArbPath
    requires PoolOk(a) && PoolOk(b)
  {
    ArbPath(keccak(a.address[2..] + b.address[2..]), map[a.address := a, b.address := b], [a.address, b.address])
  }

  lemma PathOfTwo(keccak: Hash, a: Pool, b: Pool)
    requires PoolOk(a) && PoolOk(b)
    ensures CycleOk([a, b]) && PathOf(keccak, [a, b]) == TwoPoolEntry(keccak, a, b)
    ensures Id(keccak, [a, b]) == TwoPoolEntry(keccak, a, b).id
  {
    assert Addresses([a, b]) == [a.address] + [b.address];
    HexAppend([a.address], [b.address]);
    HexOne(a.address);
    HexOne(b.address);
    assert [a, b][..1] == [a] && [a][..0] == [];
    assert ByAddress([a]) == map[a.address := a];
  }

  /** The entry of a 3-pool cycle. */
  function ThreePoolEntry(keccak: Hash, a: Pool, b: Pool, c: Pool): ArbPath
    requires PoolOk(a) && PoolOk(b) && PoolOk(c)
  {
    ArbPath(keccak(a.address[2..] + b.address[2..] + c.address[2..]),
            map[a.address := a, b.address := b, c.address := c], [a.address, b.address, c.address])
  }

  lemma PathOfThree(keccak: Hash, a: Pool, b: Pool, c: Pool)
    requires PoolOk(a) && PoolOk(b) && PoolOk(c)
    ensures CycleOk([a, b, c]) && PathOf(keccak, [a, b, c]) == ThreePoolEntry(keccak, a, b, c)
    ensures Id(keccak, [a, b, c]) == ThreePoolEntry(keccak, a, b, c).id
  {
    PathOfTwo(keccak, a, b);
    assert Addresses([a, b]) == [a.address] + [b.address];
    assert Addresses([a, b, c]) == ([a.address] + [b.address]) + [c.address];
    HexAppend([a.address] + [b.address], [c.address]);
    HexAppend([a.address], [b.address]);
    HexOne(a.address);
    HexOne(b.address);
    HexOne(c.address);
    assert [a, b, c][..2] == [a, b];
  }

  predicate AllOk(cycles: seq<seq<Pool>>) {
    forall c :: c in cycles ==> CycleOk(c)
  }

  /** Writing the paths of cycles, in order, into a dictionary. */
  function AddAll(keccak: Hash, m: map<string, ArbPath>, cycles: seq<seq<Pool>>): map<string, ArbPath>
    requires AllOk(cycles)
    decreases |cycles|
  {
    if cycles == [] then m
    else AddAll(keccak, m[Id(keccak, cycles[0]) := PathOf(keccak, cycles[0])], cycles[1..])
  }

  lemma {:induction false} AddAllAppend(keccak: Hash, m: map<string, ArbPath>, a: seq<seq<Pool>>, b: seq<seq<Pool>>)
    requires AllOk(a) && AllOk(b)
    ensures AllOk(a + b)
    ensures AddAll(keccak, m, a + b) == AddAll(keccak, AddAll(keccak, m, a), b)
    decreases |a|
  {
    if a == [] {
      assert a + b == b;
    } else {
      assert (a + b)[1..] == a[1..] + b;
      AddAllAppend(keccak, m[Id(keccak, a[0]) := PathOf(keccak, a[0])], a[1..], b);
    }
  }

  /** Every cycle is over the given pools. */
  ghost predicate Over(pools: seq<Pool>, cycles: seq<seq<Pool>>) {
    forall c, p :: c in cycles && p in c ==> p in pools
  }

  /** The file holds exactly one entry per cycle, under the cycle's own id. */
  lemma {:induction false} FileContents(keccak: Hash, pools: seq<Pool>, cycles: seq<seq<Pool>>)
    requires Injective(keccak) && Consistent(pools) && AllOk(cycles) && Over(pools, cycles)
    ensures var f := AddAll(keccak, map[], cycles);
            Holding(keccak, f, cycles) && (Distinct(cycles) ==> |f| == |cycles|)
    decreases |cycles|
  {
    if cycles == [] {
    } else {
      var n := |cycles| - 1;
      var front, last := cycles[..n], cycles[n];
      assert cycles == front + [last];
      FileContents(keccak, pools, front);
      AddAllAppend(keccak, map[], front, [last]);
      AddOne(keccak, pools, AddAll(keccak, map[], front), front, last);
    }
  }

  /** f holds exactly the paths of cycles. */
  ghost predicate Holding(keccak: Hash, f: map<string, ArbPath>, cycles: seq<seq<Pool>>)
    requires AllOk(cycles)
  {
    && (forall c :: c in cycles ==> Id(keccak, c) in f && f[Id(keccak, c)] == PathOf(keccak, c))
    && (forall id :: id in f ==> exists c :: c in cycles && id == Id(keccak, c))
  }

  lemma AddAllOne(keccak: Hash, m: map<string, ArbPath>, c: seq<Pool>)
    requires CycleOk(c)
    ensures AllOk([c]) && AddAll(keccak, m, [c]) == m[Id(keccak, c) := PathOf(keccak, c)]
  {
    var r := m[Id(keccak, c) := PathOf(keccak, c)];
    assert [c][1..] == [];
    assert AddAll(keccak, r, []) == r;
  }

  lemma EntryOf(keccak: Hash, f: map<string, ArbPath>, cycles: seq<seq<Pool>>, id: string) returns (c: seq<Pool>)
    requires AllOk(cycles) && Holding(keccak, f, cycles) && id in f
    ensures c in cycles && id == Id(keccak, c) && f[id] == PathOf(keccak, c)
  {
    c :| c in cycles && id == Id(keccak, c);
  }

  lemma AddOne(keccak: Hash, pools: seq<Pool>, g: map<string, ArbPath>, front: seq<seq<Pool>>, last: seq<Pool>)
    requires Injective(keccak) && Consistent(pools) && AllOk(front + [last]) && Over(pools, front + [last])
    requires AllOk(front) && Holding(keccak, g, front) && (Distinct(front) ==> |g| == |front|)
    ensures var f := g[Id(keccak, last) := PathOf(keccak, last)];
            && Holding(keccak, f, front + [last])
            && (Distinct(front + [last]) ==> |f| == |front| + 1)
  {
    assert last in front + [last];
    forall c | c in front && Id(keccak, c) == Id(keccak, last) ensures c == last {
      assert c in front + [last];
      IdInjective(keccak, pools, c, last);
    }
    AddOneHolds(keccak, g, front, last);
    if Distinct(front + [last]) {
      DistinctSnoc(front, last);
      assert Id(keccak, last) !in g;
    }
  }

  lemma AddOneHolds(keccak: Hash, g: map<string, ArbPath>, front: seq<seq<Pool>>, last: seq<Pool>)
    requires AllOk(front + [last]) && AllOk(front) && CycleOk(last) && Holding(keccak, g, front)
    requires forall c :: c in front && Id(keccak, c) == Id(keccak, last) ==> c == last
    ensures Holding(keccak, g[Id(keccak, last) := PathOf(keccak, last)], front + [last])
  {
    var all, f := front + [last], g[Id(keccak, last) := PathOf(keccak, last)];
    assert last in all && forall c :: c in all <==> c in front || c == last;
    forall id | id in f ensures exists c :: c in all && id == Id(keccak, c) {
      if id != Id(keccak, last) {
        var c := EntryOf(keccak, g, front, id);
        assert c in all;
      }
    }
    forall c | c in all ensures Id(keccak, c) in f && f[Id(keccak, c)] == PathOf(keccak, c) {
      if c != last {
        assert c in front;
      }
    }
  }

  lemma DistinctSnoc<T(!new)>(front: seq<T>, last: T)
    requires Distinct(front + [last])
    ensures Distinct(front) && last !in front
  {
    var all := front + [last];
    forall i, j | 0 <= i < j < |front| ensures front[i] != front[j] {
      assert all[i] != all[j];
    }
    forall i | 0 <= i < |front| ensures front[i] != last {
      assert all[i] != all[|front|];
    }
  }

  /** The file depends on the set of cycles only. */
  lemma SameCyclesSameFile(keccak: Hash, pools: seq<Pool>, a: seq<seq<Pool>>, b: seq<seq<Pool>>)
    requires Injective(keccak) && Consistent(pools) && AllOk(a) && AllOk(b) && Over(pools, a) && Over(pools, b)
    requires forall c :: c in a <==> c in b
    ensures AddAll(keccak, map[], a) == AddAll(keccak, map[], b)
  {
    FileContents(keccak, pools, a);
    FileContents(keccak, pools, b);
    HoldingUnique(keccak, AddAll(keccak, map[], a), AddAll(keccak, map[], b), a, b);
  }

  lemma HoldingUnique(keccak: Hash, f: map<string, ArbPath>, g: map<string, ArbPath>, a: seq<seq<Pool>>,
                      b: seq<seq<Pool>>)
    requires AllOk(a) && AllOk(b) && Holding(keccak, f, a) && Holding(keccak, g, b)
    requires forall c :: c in a <==> c in b
    ensures f == g
  {
    SameHolding(keccak, f, g, a, b);
    SameHolding(keccak, g, f, b, a);
  }

  lemma SameHolding(keccak: Hash, f: map<string, ArbPath>, g: map<string, ArbPath>, a: seq<seq<Pool>>,
                    b: seq<seq<Pool>>)
    requires AllOk(a) && AllOk(b) && Holding(keccak, f, a) && Holding(keccak, g, b)
    requires forall c :: c in a ==> c in b
    ensures forall id :: id in f ==> id in g && f[id] == g[id]
  {
    forall id | id in f ensures id in g && f[id] == g[id] {
      var c :| c in a && id == Id(keccak, c);
      assert c in b;
    }
  }
}
