/** `PoolService.load_pools`: which of the filed arbs become helpers of the bot. */
module PoolLoading {
  import opened Pools
  import opened PathFiles
  import opened Reduction
  import opened Arbitrage

  datatype Blacklists = Blacklists(pools: set<string>, tokens: set<string>, arbs: set<string>)

  /** One item of an arb file: the dictionary key and the path under it. */
  datatype Filed = Filed(key: string, arb: ArbPath)

  /** The code tests both tokens against the pool blacklist. */
  predicate Listed(b: Blacklists, p: Pool) {
    p.address in b.pools || p.token0 in b.pools || p.token1 in b.pools
  }

  /** A string of at least n characters that is not in s. */
  lemma {:induction false} FreshString(s: set<string>, n: nat) returns (x: string)
    ensures x !in s && |x| >= n
    decreases |s|
  {
    x := seq(n, _ => '0');
    if x in s {
      var y := FreshString(s - {x}, n + 1);
      x := y;
    }
  }

  predicate HoldsBlacklisted(b: Blacklists, p: Pool) {
    p.token0 in b.tokens || p.token1 in b.tokens
  }

  /** A pool of a blacklisted token survives if the pool blacklist names neither it nor
      its tokens. */
  lemma BlacklistedTokenSurvives(b: Blacklists, pools: seq<Pool>, p: Pool)
    requires p in pools && HoldsBlacklisted(b, p)
    requires p.address !in b.pools && p.token0 !in b.pools && p.token1 !in b.pools
    ensures Survives(b, pools, p.address)
  {
  }

  /** So the token blacklist filters nothing of its own: for each blacklisted token that
      is not on the pool blacklist too there is a pool of it that is loaded. */
  lemma UnfilteredPool(b: Blacklists, token: string) returns (p: Pool)
    requires token in b.tokens && token !in b.pools
    ensures p.token0 == token && p.token1 != token && !Listed(b, p) && Survives(b, [p], p.address)
  {
    var other := FreshString(b.pools + {token}, 0);
    p := Pool(other, token, other, 3000, 1, UniswapV3);
    BlacklistedTokenSurvives(b, [p], p);
  }

  /** Every pool of a blacklisted token is filtered out iff the token blacklist is part
      of the pool blacklist. */
  lemma TokensFilteredIff(b: Blacklists)
    ensures (forall p: Pool :: p.token0 != p.token1 && HoldsBlacklisted(b, p) ==> Listed(b, p)) <==> b.tokens <= b.pools
  {
    if !(b.tokens <= b.pools) {
      var token :| token in b.tokens && token !in b.pools;
      var p := UnfilteredPool(b, token);
      assert HoldsBlacklisted(b, p) && !Listed(b, p);
    }
  }

  /** p is the last record of this address that is not listed. */
  ghost predicate IsLastUnlisted(b: Blacklists, pools: seq<Pool>, address: string, p: Pool) {
    exists k :: 0 <= k < |pools| && pools[k] == p && p.address == address && !Listed(b, p) &&
                forall j :: k < j < |pools| && pools[j].address == address ==> Listed(b, pools[j])
  }

  lemma LastUnlistedNext(b: Blacklists, pools: seq<Pool>, pool: Pool)
    ensures !Listed(b, pool) ==> IsLastUnlisted(b, pools + [pool], pool.address, pool)
    ensures forall a, p :: IsLastUnlisted(b, pools, a, p) && (a != pool.address || Listed(b, pool)) ==>
              IsLastUnlisted(b, pools + [pool], a, p)
  {
    var all := pools + [pool];
    assert all[|pools|] == pool;
    forall a, p | IsLastUnlisted(b, pools, a, p) && (a != pool.address || Listed(b, pool))
      ensures IsLastUnlisted(b, all, a, p)
    {
      var k :| 0 <= k < |pools| && pools[k] == p && p.address == a && !Listed(b, p) &&
               forall j :: k < j < |pools| && pools[j].address == a ==> Listed(b, pools[j]);
      assert all[k] == p;
    }
  }

  /** A pool that survives filtering under this address. */
  ghost predicate Survives(b: Blacklists, pools: seq<Pool>, address: string) {
    exists p :: p in pools && p.address == address && !Listed(b, p)
  }

  lemma SurvivesIff(b: Blacklists, pools: seq<Pool>)
    ensures forall a :: Survives(b, pools, a) <==>
              a !in b.pools &&
              exists p :: p in pools && p.address == a && p.token0 !in b.pools && p.token1 !in b.pools
  {
  }

  predicate AllIn(path: seq<string>, known: set<string>) {
    forall p | p in path :: p in known
  }

  /** The filed arbs that become helpers. */
  ghost predicate Loadable(b: Blacklists, pools: seq<Pool>, created: set<string>, f: Filed) {
    && f.key !in b.arbs && f.arb.id !in b.arbs
    && AllIn(f.arb.path, created)
    && forall a :: a in f.arb.path ==> Survives(b, pools, a)
  }

  class BotState {
    var allArbs: map<string, Arb>
    var poolsLoaded: bool
    var live: bool
    const blacklists: Blacklists

    constructor (blacklists: Blacklists)
      ensures allArbs == map[] && !poolsLoaded && !live && this.blacklists == blacklists
    {
      this.blacklists := blacklists;
      allArbs, poolsLoaded, live := map[], false, false;
    }

    method LiquidityPoolData(pools: seq<Pool>) returns (data: map<string, Pool>)
      ensures forall a :: a in data <==> Survives(blacklists, pools, a)
      ensures forall a :: a in data <==>
                a !in blacklists.pools &&
                exists p :: p in pools && p.address == a &&
                            p.token0 !in blacklists.pools && p.token1 !in blacklists.pools
      ensures forall a :: a in data ==> IsLastUnlisted(blacklists, pools, a, data[a])
    {
      data := map[];
      for i := 0 to |pools|
        invariant forall a :: a in data <==> Survives(blacklists, pools[..i], a)
        invariant forall a :: a in data ==> IsLastUnlisted(blacklists, pools[..i], a, data[a])
      {
        var pool := pools[i];
        assert pools[..i + 1] == pools[..i] + [pool];
        SurvivesNext(blacklists, pools[..i], pool);
        LastUnlistedNext(blacklists, pools[..i], pool);
        if pool.address in blacklists.pools {
          continue;
        }
        if pool.token0 in blacklists.pools {
          continue;
        }
        if pool.token1 in blacklists.pools {
          continue;
        }
        data := data[pool.address := pool];
      }
      assert pools[..|pools|] == pools;
      SurvivesIff(blacklists, pools);
    }

    /** The loop over the items of the arb files. */
    method ArbPaths(files: seq<Filed>, data: map<string, Pool>) returns (arbPaths: seq<ArbPath>)
      ensures arbPaths == KeptPaths(blacklists, data, files)
    {
      arbPaths := [];
      for i := 0 to |files|
        invariant arbPaths + KeptPaths(blacklists, data, files[i..]) == KeptPaths(blacklists, data, files)
      {
        var f := files[i];
        assert files[i..][1..] == files[i + 1..];
        var passedChecks := true;
        if f.key in blacklists.arbs {
          passedChecks := false;
        }
        for j := 0 to |f.arb.path|
          invariant passedChecks <==> f.key !in blacklists.arbs && forall a :: a in f.arb.path[..j] ==> a in data
        {
          assert f.arb.path[..j + 1] == f.arb.path[..j] + [f.arb.path[j]];
          if f.arb.path[j] !in data {
            passedChecks := false;
          }
        }
        assert f.arb.path[..|f.arb.path|] == f.arb.path;
        if passedChecks {
          arbPaths := arbPaths + [f.arb];
        }
      }
    }

    /** The swap pools found for a path, up to the first missing one. */
    method SwapPools(path: seq<string>, allPools: set<string>) returns (swapPools: seq<string>)
      ensures |swapPools| == |path| <==> forall a :: a in path ==> a in allPools
      ensures |swapPools| == |path| ==> swapPools == path
    {
      swapPools := [];
      for i := 0 to |path|
        invariant swapPools == path[..i]
        invariant forall a :: a in path[..i] ==> a in allPools
      {
        assert path[..i + 1] == path[..i] + [path[i]];
        if path[i] !in allPools {
          return;
        }
        swapPools := swapPools + [path[i]];
      }
      assert path[..|path|] == path;
    }

    /** `load_pools`.  pools are the records of all pool files in order, files the
        items of both arb files, created the addresses that have a pool helper once
        creation is done. */
    method LoadPools(pools: seq<Pool>, files: seq<Filed>, created: set<string>)
      modifies this
      ensures allArbs == old(allArbs) + Helpers(blacklists, pools, created, files)
      ensures poolsLoaded && live
    {
      var data := LiquidityPoolData(pools);
      var arbPaths := ArbPaths(files, data);
      for i := 0 to |arbPaths|
        invariant allArbs == old(allArbs) + UsableHelpers(blacklists, created, arbPaths[..i])
      {
        var arb := arbPaths[i];
        assert arbPaths[..i + 1] == arbPaths[..i] + [arb];
        UsableSnoc(blacklists, created, arbPaths[..i], arb);
        Overwrite(old(allArbs), UsableHelpers(blacklists, created, arbPaths[..i]), arb.id, Arb(arb.id, arb.path));
        if arb.id in blacklists.arbs {
          continue;
        }
        var swapPools := SwapPools(arb.path, created);
        if |swapPools| != |arb.path| {
          continue;
        }
        allArbs := allArbs[arb.id := Arb(arb.id, swapPools)];
      }
      assert arbPaths[..|arbPaths|] == arbPaths;
      KeptAreHelpers(blacklists, pools, data, created, files);
      poolsLoaded := true;
      live := true;
    }
  }

  lemma Overwrite<K, V>(m: map<K, V>, n: map<K, V>, k: K, v: V)
    ensures (m + n)[k := v] == m + n[k := v]
  {
  }

  /** The helpers of the loadable filed arbs; of two with one id the last one counts. */
  ghost function Helpers(b: Blacklists, pools: seq<Pool>, created: set<string>, files: seq<Filed>): map<string, Arb>
    decreases |files|
  {
    if files == [] then map[]
    else
      var n := |files| - 1;
      var before := Helpers(b, pools, created, files[..n]);
      if Loadable(b, pools, created, files[n])
      then before[files[n].arb.id := Arb(files[n].arb.id, files[n].arb.path)] else before
  }

  /** files[k] is loadable, and no later loadable item has its id. */
  ghost predicate LastOfItsId(b: Blacklists, pools: seq<Pool>, created: set<string>, files: seq<Filed>, k: nat) {
    && k < |files| && Loadable(b, pools, created, files[k])
    && forall j :: k < j < |files| && Loadable(b, pools, created, files[j]) ==> files[j].arb.id != files[k].arb.id
  }

  /** What is loaded: exactly the loadable filed arbs, the last one for each id, under
      its own id and with its pools in path order. */
  lemma {:induction false} HelpersAreLoadable(b: Blacklists, pools: seq<Pool>, created: set<string>, files: seq<Filed>,
                                              id: string, a: Arb)
    ensures id in Helpers(b, pools, created, files) && Helpers(b, pools, created, files)[id] == a <==>
            exists k: nat :: LastOfItsId(b, pools, created, files, k) && id == files[k].arb.id &&
              a == Arb(id, files[k].arb.path)
    decreases |files|
  {
    if files == [] {
    } else {
      var n := |files| - 1;
      var front := files[..n];
      HelpersAreLoadable(b, pools, created, front, id, a);
      if Loadable(b, pools, created, files[n]) && files[n].arb.id == id {
        assert LastOfItsId(b, pools, created, files, n);
      } else {
        if k: nat :| LastOfItsId(b, pools, created, files, k) && id == files[k].arb.id &&
                     a == Arb(id, files[k].arb.path) {
          LastOfFront(b, pools, created, files, k);
          assert front[k] == files[k];
        }
        if k: nat :| LastOfItsId(b, pools, created, front, k) && id == front[k].arb.id &&
                     a == Arb(id, front[k].arb.path) {
          LastOfFront(b, pools, created, files, k);
          assert front[k] == files[k];
        }
      }
    }
  }

  lemma LastOfFront(b: Blacklists, pools: seq<Pool>, created: set<string>, files: seq<Filed>, k: nat)
    requires k < |files| - 1
    requires !(Loadable(b, pools, created, files[|files| - 1]) && files[|files| - 1].arb.id == files[k].arb.id)
    ensures LastOfItsId(b, pools, created, files, k) <==> LastOfItsId(b, pools, created, files[..|files| - 1], k)
  {
    var front := files[..|files| - 1];
    assert forall j :: 0 <= j < |front| ==> front[j] == files[j];
  }

  /** What a loaded helper has passed. */
  lemma HelpersAvoidBlacklists(b: Blacklists, pools: seq<Pool>, created: set<string>, files: seq<Filed>, id: string)
    requires id in Helpers(b, pools, created, files)
    ensures id !in b.arbs
    ensures exists f :: f in files && f.key !in b.arbs && f.arb.id == id &&
                        f.arb.path == Helpers(b, pools, created, files)[id].pools
    ensures forall a :: a in Helpers(b, pools, created, files)[id].pools ==>
              && a in created && a !in b.pools
              && exists p :: p in pools && p.address == a && p.token0 !in b.pools && p.token1 !in b.pools
  {
    var h := Helpers(b, pools, created, files)[id];
    HelpersAreLoadable(b, pools, created, files, id, h);
    var k: nat :| LastOfItsId(b, pools, created, files, k) && id == files[k].arb.id &&
                  h == Arb(id, files[k].arb.path);
    assert files[k] in files;
    SurvivesIff(b, pools);
  }

  /** And whatever passes is loaded. */
  lemma AllowedAreLoaded(b: Blacklists, pools: seq<Pool>, created: set<string>, files: seq<Filed>, f: Filed)
    requires f in files && f.key !in b.arbs && f.arb.id !in b.arbs
    requires forall a :: a in f.arb.path ==>
               && a in created && a !in b.pools
               && exists p :: p in pools && p.address == a && p.token0 !in b.pools && p.token1 !in b.pools
    ensures f.arb.id in Helpers(b, pools, created, files)
  {
    SurvivesIff(b, pools);
    LoadableIsLoaded(b, pools, created, files, f);
  }

  lemma {:induction false} LoadableIsLoaded(b: Blacklists, pools: seq<Pool>, created: set<string>, files: seq<Filed>,
                                            f: Filed)
    requires f in files && Loadable(b, pools, created, f)
    ensures f.arb.id in Helpers(b, pools, created, files)
    decreases |files|
  {
    var n := |files| - 1;
    if files[n] == f {
    } else {
      LoadableIsLoaded(b, pools, created, files[..n], f);
    }
  }

  lemma HelpersKeyed(b: Blacklists, pools: seq<Pool>, created: set<string>, files: seq<Filed>)
    ensures KeyedByOwnId(Helpers(b, pools, created, files))
  {
    forall id | id in Helpers(b, pools, created, files) ensures Helpers(b, pools, created, files)[id].id == id {
      HelpersAreLoadable(b, pools, created, files, id, Helpers(b, pools, created, files)[id]);
    }
  }

  function UsableHelpers(b: Blacklists, created: set<string>, arbPaths: seq<ArbPath>): map<string, Arb>
    decreases |arbPaths|
  {
    if arbPaths == [] then map[]
    else
      var n := |arbPaths| - 1;
      var before := UsableHelpers(b, created, arbPaths[..n]);
      if Usable(b, created, arbPaths[n])
      then before[arbPaths[n].id := Arb(arbPaths[n].id, arbPaths[n].path)] else before
  }

  lemma {:induction false} KeptAreHelpers(b: Blacklists, pools: seq<Pool>, data: map<string, Pool>,
                                          created: set<string>, files: seq<Filed>)
    requires forall a :: a in data <==> Survives(b, pools, a)
    ensures UsableHelpers(b, created, KeptPaths(b, data, files)) == Helpers(b, pools, created, files)
    decreases |files|
  {
    if files == [] {
    } else {
      var n := |files| - 1;
      KeptAreHelpers(b, pools, data, created, files[..n]);
      LoadableIff(b, pools, data, created, files[n]);
      KeptSnoc(b, data, files);
      UsableSnoc(b, created, KeptPaths(b, data, files[..n]), files[n].arb);
    }
  }

  lemma UsableSnoc(b: Blacklists, created: set<string>, s: seq<ArbPath>, a: ArbPath)
    ensures UsableHelpers(b, created, s + [a]) ==
            if Usable(b, created, a)
            then UsableHelpers(b, created, s)[a.id := Arb(a.id, a.path)] else UsableHelpers(b, created, s)
  {
    assert (s + [a])[..|s|] == s;
  }

  lemma {:induction false} KeptSnoc(b: Blacklists, data: map<string, Pool>, files: seq<Filed>)
    requires files != []
    ensures var n := |files| - 1;
            KeptPaths(b, data, files) ==
              if Kept(b, data, files[n])
              then KeptPaths(b, data, files[..n]) + [files[n].arb] else KeptPaths(b, data, files[..n])
  {
    var n := |files| - 1;
    if n == 0 {
      assert files[1..] == [];
    } else {
      KeptSnoc(b, data, files[1..]);
      assert files[1..][..n - 1] == files[..n][1..];
    }
  }

  lemma SurvivesNext(b: Blacklists, pools: seq<Pool>, pool: Pool)
    ensures forall a :: Survives(b, pools + [pool], a) <==>
            Survives(b, pools, a) || (pool.address == a && !Listed(b, pool))
  {
    forall a ensures Survives(b, pools + [pool], a) <==>
                     Survives(b, pools, a) || (pool.address == a && !Listed(b, pool)) {
      assert pool in pools + [pool];
      assert forall p :: p in pools ==> p in pools + [pool];
    }
  }

  function KeptPaths(b: Blacklists, data: map<string, Pool>, files: seq<Filed>): seq<ArbPath> {
    if files == [] then []
    else if files[0].key !in b.arbs && AllIn(files[0].arb.path, data.Keys)
    then [files[0].arb] + KeptPaths(b, data, files[1..])
    else KeptPaths(b, data, files[1..])
  }

  /** The second test, once helpers exist. */
  predicate Usable(b: Blacklists, created: set<string>, a: ArbPath) {
    a.id !in b.arbs && AllIn(a.path, created)
  }

  predicate Kept(b: Blacklists, data: map<string, Pool>, f: Filed) {
    f.key !in b.arbs && AllIn(f.arb.path, data.Keys)
  }

  lemma LoadableIff(b: Blacklists, pools: seq<Pool>, data: map<string, Pool>, created: set<string>, f: Filed)
    requires forall a :: a in data <==> Survives(b, pools, a)
    ensures Loadable(b, pools, created, f) <==> Kept(b, data, f) && Usable(b, created, f.arb)
  {
  }
}
