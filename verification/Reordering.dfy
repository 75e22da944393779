/** The fetcher accumulates all Mints of a pool before all its Burns and then sorts
    stably by (block, tx) only, which loses the log order inside a transaction.
    This module shows what that reordering costs: nothing, for histories the
    protocol can produce. */
module Reordering {
  import opened Seqs
  import opened StableSort
  import opened TickLedger

  function ChangeKey(): Change -> Key {
    (e: Change) => (e.block, e.tx)
  }

  function IsMint(): Change -> bool {
    (e: Change) => e.delta > 0
  }

  function IsBurn(): Change -> bool {
    (e: Change) => e.delta < 0
  }

  function NonZero(): Change -> bool {
    (e: Change) => e.delta != 0
  }

  /** What the fetcher replays for a pool whose events, in chain order, are chain. */
  function ReplayOrder(chain: seq<Change>): seq<Change> {
    Sort(ChangeKey(), Filter(IsMint(), chain) + Filter(IsBurn(), chain))
  }

  /** A dropped zero-amount event changes nothing. */
  lemma {:induction false} ZeroEventsAreNeutral(l: Ledger, spacing: int, s: seq<Change>)
    requires spacing > 0 && Aligned(s, spacing) && Normalized(l.ticks) && BitmapMatches(l, spacing)
    ensures Replay(l, spacing, s) == Replay(l, spacing, Filter(NonZero(), s))
    decreases |s|
  {
    if s == [] {
    } else {
      var e := s[0];
      assert forall x :: x in s[1..] ==> x in s;
      if e.delta == 0 {
        TouchZero(l, spacing, e.lower);
        TouchZero(l, spacing, e.upper);
        ZeroEventsAreNeutral(l, spacing, s[1..]);
      } else {
        ReplayKeepsInvariants(l, spacing, [e]);
        assert Replay(l, spacing, [e]) == Apply(l, spacing, e);
        ZeroEventsAreNeutral(Apply(l, spacing, e), spacing, s[1..]);
        var f := Filter(NonZero(), s[1..]);
        assert ([e] + f)[1..] == f;
      }
    }
  }

  lemma TouchZero(l: Ledger, spacing: int, t: int)
    requires spacing > 0 && Normalized(l.ticks)
    ensures Touch(l, spacing, t, 0, 0) == l
  {
    if t !in l.ticks {
      assert l.ticks - {t} == l.ticks;
    }
  }

  // ----- the replay order splits where the chain's keys do

  ghost predicate Before(a: seq<Change>, b: seq<Change>) {
    forall x, y :: x in a && y in b ==> Lt(ChangeKey()(x), ChangeKey()(y))
  }

  lemma ReplayOrderMembers(s: seq<Change>)
    ensures forall e :: e in ReplayOrder(s) <==> e in s && e.delta != 0
    ensures Sorted(ChangeKey(), ReplayOrder(s))
  {
    var mb := Filter(IsMint(), s) + Filter(IsBurn(), s);
    SortPerm(ChangeKey(), mb);
    SortIsStable(ChangeKey(), mb);
  }

  lemma ReplayOrderGroup(s: seq<Change>, k: Key)
    ensures var h := HasKey(ChangeKey(), k);
            Filter(h, ReplayOrder(s)) == Filter(h, Filter(IsMint(), s)) + Filter(h, Filter(IsBurn(), s))
  {
    var h := HasKey(ChangeKey(), k);
    var m, b := Filter(IsMint(), s), Filter(IsBurn(), s);
    SortIsStable(ChangeKey(), m + b);
    assert Filter(h, ReplayOrder(s)) == Filter(h, m + b);
    FilterAppend(h, m, b);
  }

  /** Replaying two stretches of the chain one after the other is replaying them at
      once, provided no key straddles the cut. */
  lemma ReplayOrderSplits(a: seq<Change>, b: seq<Change>)
    requires Before(a, b)
    ensures ReplayOrder(a + b) == ReplayOrder(a) + ReplayOrder(b)
  {
    var key := ChangeKey();
    var joined := ReplayOrder(a) + ReplayOrder(b);
    ReplayOrderMembers(a);
    ReplayOrderMembers(b);
    ReplayOrderMembers(a + b);
    forall i, j | 0 <= i < j < |joined| ensures Le(key(joined[i]), key(joined[j])) {
      if i < |ReplayOrder(a)| <= j {
        assert joined[i] in ReplayOrder(a) && joined[j] in ReplayOrder(b);
        assert Lt(ChangeKey()(joined[i]), ChangeKey()(joined[j]));
      }
    }
    forall k ensures Filter(HasKey(key, k), ReplayOrder(a + b)) == Filter(HasKey(key, k), joined) {
      SplitGroup(a, b, k);
    }
    SortedUnique(key, ReplayOrder(a + b), joined);
  }

  lemma SplitGroup(a: seq<Change>, b: seq<Change>, k: Key)
    requires Before(a, b)
    ensures var h := HasKey(ChangeKey(), k);
            Filter(h, ReplayOrder(a + b)) == Filter(h, ReplayOrder(a) + ReplayOrder(b))
  {
    var h := HasKey(ChangeKey(), k);
    ReplayOrderGroup(a, k);
    ReplayOrderGroup(b, k);
    ReplayOrderGroup(a + b, k);
    FilterAppend(h, ReplayOrder(a), ReplayOrder(b));
    FilterAppend(IsMint(), a, b);
    FilterAppend(IsBurn(), a, b);
    FilterAppend(h, Filter(IsMint(), a), Filter(IsMint(), b));
    FilterAppend(h, Filter(IsBurn(), a), Filter(IsBurn(), b));
    OneSide(a, b, k);
    Interleave(Filter(h, Filter(IsMint(), a)), Filter(h, Filter(IsMint(), b)),
               Filter(h, Filter(IsBurn(), a)), Filter(h, Filter(IsBurn(), b)));
  }

  lemma OneSide(a: seq<Change>, b: seq<Change>, k: Key)
    requires Before(a, b)
    ensures var h := HasKey(ChangeKey(), k);
            || (Filter(h, Filter(IsMint(), a)) == [] && Filter(h, Filter(IsBurn(), a)) == [])
            || (Filter(h, Filter(IsMint(), b)) == [] && Filter(h, Filter(IsBurn(), b)) == [])
  {
    var h := HasKey(ChangeKey(), k);
    if x :| x in a && h(x) {
      forall y | y in b ensures !h(y) {
        assert Lt(ChangeKey()(x), ChangeKey()(y));
      }
      FilterNone(h, Filter(IsMint(), b));
      FilterNone(h, Filter(IsBurn(), b));
    } else {
      FilterNone(h, Filter(IsMint(), a));
      FilterNone(h, Filter(IsBurn(), a));
    }
  }

  lemma Interleave<T>(ma: seq<T>, mb: seq<T>, ba: seq<T>, bb: seq<T>)
    requires (ma == [] && ba == []) || (mb == [] && bb == [])
    ensures (ma + mb) + (ba + bb) == (ma + ba) + (mb + bb)
  {
  }

  /** Inside one transaction: the mints, then the burns. */
  lemma ReplayOrderOfGroup(g: seq<Change>, k: Key)
    requires forall e :: e in g ==> ChangeKey()(e) == k
    ensures ReplayOrder(g) == Filter(IsMint(), g) + Filter(IsBurn(), g)
  {
    var mb := Filter(IsMint(), g) + Filter(IsBurn(), g);
    forall e | e in mb ensures ChangeKey()(e) == k {}
    assert Sorted(ChangeKey(), mb) by {
      forall i, j | 0 <= i < j < |mb| ensures Le(ChangeKey()(mb[i]), ChangeKey()(mb[j])) {
        assert mb[i] in mb && mb[j] in mb;
      }
    }
    assert SameGroups(ChangeKey(), mb, mb);
    SortIsTheStableSort(ChangeKey(), mb, mb);
  }

  // ----- the replay order, event by event

  function InTransaction(block: int, tx: int): Change -> bool {
    (e: Change) => e.block == block && e.tx == tx
  }

  /** By block, then by transaction; and of one transaction first the mints and then the
      burns, each in log order. */
  lemma ReplayOrderByTransaction(chain: seq<Change>, block: int, tx: int)
    ensures var r := ReplayOrder(chain);
            && (forall i, j :: 0 <= i < j < |r| ==>
                  r[i].block < r[j].block || (r[i].block == r[j].block && r[i].tx <= r[j].tx))
            && var g := Filter(InTransaction(block, tx), chain);
               Filter(InTransaction(block, tx), r) == Filter(IsMint(), g) + Filter(IsBurn(), g)
  {
    var p, h := InTransaction(block, tx), HasKey(ChangeKey(), (block, tx));
    ReplayOrderMembers(chain);
    ReplayOrderGroup(chain, (block, tx));
    FilterCong(p, h, ReplayOrder(chain));
    FilterSwap(h, p, IsMint(), chain);
    FilterSwap(h, p, IsBurn(), chain);
  }

  lemma {:induction false} FilterSwap(h: Change -> bool, p: Change -> bool, q: Change -> bool, s: seq<Change>)
    requires forall e :: h(e) == p(e)
    ensures Filter(h, Filter(q, s)) == Filter(q, Filter(p, s))
  {
    if s == [] {
    } else {
      FilterSwap(h, p, q, s[1..]);
    }
  }

  // ----- reordering inside a transaction keeps every prefix in order

  /** Mints only add gross liquidity; a tick they leave as it was they did not touch. */
  lemma {:induction false} MintsRise(s: seq<Change>, t: int)
    requires forall e :: e in s ==> e.delta > 0
    ensures GrossOver(s, t) >= 0
    ensures GrossOver(s, t) == 0 ==> NetOver(s, t) == 0
  {
    if s == [] {
    } else {
      assert s[0] in s;
      MintsRise(s[1..], t);
    }
  }

  lemma {:induction false} BurnsFall(s: seq<Change>, t: int)
    requires forall e :: e in s ==> e.delta < 0
    ensures GrossOver(s, t) <= 0
    ensures GrossOver(s, t) == 0 ==> NetOver(s, t) == 0
  {
    if s == [] {
    } else {
      assert s[0] in s;
      BurnsFall(s[1..], t);
    }
  }

  lemma MintsClean(strict: bool, a: Tick, s: seq<Change>, t: int)
    requires Ok(strict, a) && forall e :: e in s ==> e.delta > 0
    ensures Clean(strict, a, s, t)
  {
    forall n | 0 <= n <= |s| ensures Ok(strict, After(a, s[..n], t)) {
      assert forall e :: e in s[..n] ==> e in s;
      MintsRise(s[..n], t);
    }
  }

  lemma BurnsClean(strict: bool, a: Tick, s: seq<Change>, t: int)
    requires Ok(strict, After(a, s, t)) && forall e :: e in s ==> e.delta < 0
    ensures Clean(strict, a, s, t)
  {
    forall n | 0 <= n <= |s| ensures Ok(strict, After(a, s[..n], t)) {
      assert s == s[..n] + s[n..];
      AfterAppend(a, s[..n], s[n..], t);
      assert forall e :: e in s[n..] ==> e in s;
      BurnsFall(s[n..], t);
    }
  }

  lemma {:induction false} PartsOver(s: seq<Change>, t: int)
    ensures GrossOver(Filter(IsMint(), s), t) + GrossOver(Filter(IsBurn(), s), t) == GrossOver(s, t)
    ensures NetOver(Filter(IsMint(), s), t) + NetOver(Filter(IsBurn(), s), t) == NetOver(s, t)
  {
    if s == [] {
    } else {
      PartsOver(s[1..], t);
      var m, b := Filter(IsMint(), s[1..]), Filter(IsBurn(), s[1..]);
      assert ([s[0]] + m)[1..] == m && ([s[0]] + b)[1..] == b;
    }
  }

  lemma PartsSum(a: Tick, s: seq<Change>, t: int)
    ensures After(a, Filter(IsMint(), s) + Filter(IsBurn(), s), t) == After(a, s, t)
  {
    PartsOver(s, t);
    OverAppend(Filter(IsMint(), s), Filter(IsBurn(), s), t);
  }

  lemma GroupClean(strict: bool, a: Tick, g: seq<Change>, t: int)
    requires Clean(strict, a, g, t)
    ensures Clean(strict, a, Filter(IsMint(), g) + Filter(IsBurn(), g), t)
  {
    var m, b := Filter(IsMint(), g), Filter(IsBurn(), g);
    assert g[..0] == [] && g[..|g|] == g;
    assert Ok(strict, After(a, g[..0], t)) && Ok(strict, After(a, g[..|g|], t));
    PartsSum(a, g, t);
    AfterAppend(a, m, b, t);
    MintsClean(strict, a, m, t);
    BurnsClean(strict, After(a, m, t), b, t);
    CleanAppend(strict, a, m, b, t);
  }

  /** The leading transaction of a sorted chain and the rest. */
  lemma {:induction false} LeadingGroup(chain: seq<Change>) returns (n: nat)
    requires chain != [] && Sorted(ChangeKey(), chain)
    ensures 0 < n <= |chain|
    ensures forall e :: e in chain[..n] ==> ChangeKey()(e) == ChangeKey()(chain[0])
    ensures Before(chain[..n], chain[n..])
  {
    n := 1;
    while n < |chain| && ChangeKey()(chain[n]) == ChangeKey()(chain[0])
      invariant 0 < n <= |chain|
      invariant forall i :: 0 <= i < n ==> ChangeKey()(chain[i]) == ChangeKey()(chain[0])
    {
      n := n + 1;
    }
    forall x, y | x in chain[..n] && y in chain[n..] ensures Lt(ChangeKey()(x), ChangeKey()(y)) {
      var j :| n <= j < |chain| && chain[j] == y;
      assert Le(ChangeKey()(chain[0]), ChangeKey()(chain[n]));
      if n < j { assert Le(ChangeKey()(chain[n]), ChangeKey()(chain[j])); }
    }
  }

  lemma {:induction false} ReplayOrderSum(a: Tick, chain: seq<Change>, t: int)
    requires Sorted(ChangeKey(), chain)
    ensures After(a, ReplayOrder(chain), t) == After(a, chain, t)
    decreases |chain|
  {
    if chain == [] {
      assert ReplayOrder(chain) == [];
    } else {
      var n := LeadingGroup(chain);
      var g, rest := chain[..n], chain[n..];
      assert chain == g + rest;
      ReplayOrderSplits(g, rest);
      ReplayOrderOfGroup(g, ChangeKey()(chain[0]));
      PartsSum(a, g, t);
      ReplayOrderSum(After(a, g, t), rest, t);
      AfterAppend(a, g, rest, t);
      AfterAppend(a, ReplayOrder(g), ReplayOrder(rest), t);
    }
  }

  /** If no prefix of the chain order is out of order at tick t, no prefix of the
      replay order is, and both add up to the same entry.  With strict false this
      is the statement about negative gross liquidity alone. */
  lemma {:induction false} ReplayOrderClean(strict: bool, a: Tick, chain: seq<Change>, t: int)
    requires Sorted(ChangeKey(), chain) && Clean(strict, a, chain, t)
    ensures Clean(strict, a, ReplayOrder(chain), t)
    ensures After(a, ReplayOrder(chain), t) == After(a, chain, t)
    decreases |chain|
  {
    ReplayOrderSum(a, chain, t);
    if chain == [] {
      assert ReplayOrder(chain) == [];
    } else {
      var n := LeadingGroup(chain);
      var g, rest := chain[..n], chain[n..];
      assert chain == g + rest;
      CleanAppend(strict, a, g, rest, t);
      ReplayOrderSplits(g, rest);
      ReplayOrderOfGroup(g, ChangeKey()(chain[0]));
      GroupClean(strict, a, g, t);
      PartsSum(a, g, t);
      ReplayOrderClean(strict, After(a, g, t), rest, t);
      CleanAppend(strict, a, ReplayOrder(g), ReplayOrder(rest), t);
    }
  }

  /** Sound reordering: replaying in the fetcher's order gives the ledger that
      replaying in on-chain log order gives. */
  lemma SoundReordering(l: Ledger, spacing: int, chain: seq<Change>)
    requires spacing > 0 && Sorted(ChangeKey(), chain) && WellFormed(chain) && Aligned(chain, spacing)
    requires Normalized(l.ticks) && BitmapMatches(l, spacing)
    requires forall t :: Clean(true, At(l.ticks, t), chain, t)
    ensures SameLedger(Replay(l, spacing, ReplayOrder(chain)), Replay(l, spacing, chain))
    ensures forall t :: Clean(true, At(l.ticks, t), ReplayOrder(chain), t)
  {
    var r := ReplayOrder(chain);
    ReplayOrderMembers(chain);
    ReplayKeepsInvariants(l, spacing, r);
    ReplayKeepsInvariants(l, spacing, chain);
    forall t
      ensures Clean(true, At(l.ticks, t), r, t)
      ensures At(Replay(l, spacing, r).ticks, t) == At(Replay(l, spacing, chain).ticks, t)
    {
      ReplayOrderClean(true, At(l.ticks, t), chain, t);
      ReplayIsSum(l, spacing, r, t);
      ReplayIsSum(l, spacing, chain, t);
    }
    SameEntries(Replay(l, spacing, r).ticks, Replay(l, spacing, chain).ticks);
    SameTicksSameLedger(Replay(l, spacing, r), Replay(l, spacing, chain), spacing);
  }

  lemma SameEntries(a: map<int, Tick>, b: map<int, Tick>)
    requires Normalized(a) && Normalized(b) && forall t :: At(a, t) == At(b, t)
    ensures a == b
  {
    forall t ensures t in a <==> t in b {
      assert At(a, t) == At(b, t);
    }
    forall t | t in a ensures a[t] == b[t] {
      assert At(a, t) == At(b, t);
    }
  }

  // ----- exactly when the two orders give the same ledger

  /** Like Dropped, but looking only where a transaction ends. */
  function BoundaryDropped(d: int, a: Tick, s: seq<Change>, t: int): int
    decreases |s|
  {
    if s == [] then d
    else
      var b := Gain(a, s[0], t);
      var ends := |s| == 1 || ChangeKey()(s[0]) != ChangeKey()(s[1]);
      BoundaryDropped(if ends && b.gross == 0 then b.net else d, b, s[1..], t)
  }

  /** What has been forgotten once the sum is a: all net liquidity, if there is no gross. */
  function Forgotten(d: int, a: Tick): int {
    if a.gross == 0 then a.net else d
  }

  lemma {:induction false} BoundaryOfGroup(d: int, a: Tick, g: seq<Change>, rest: seq<Change>, t: int, k: Key)
    requires g != [] && forall e :: e in g ==> ChangeKey()(e) == k
    requires rest == [] || ChangeKey()(rest[0]) != k
    ensures BoundaryDropped(d, a, g + rest, t) ==
            BoundaryDropped(Forgotten(d, After(a, g, t)), After(a, g, t), rest, t)
    decreases |g|
  {
    var s, b := g + rest, Gain(a, g[0], t);
    assert g[0] in g;
    assert After(a, g, t) == After(b, g[1..], t);
    assert s[1..] == g[1..] + rest;
    if |g| == 1 {
      assert g[1..] == [] && s[1..] == rest;
    } else {
      assert g[1] in g && s[1] == g[1];
      BoundaryOfGroup(d, b, g[1..], rest, t, k);
    }
  }

  /** Mints forget nothing new. */
  lemma {:induction false} MintsDrop(d: int, a: Tick, s: seq<Change>, t: int)
    requires (forall e :: e in s ==> e.delta > 0) && a.gross >= 0 && Forgotten(d, a) == d
    ensures Dropped(d, a, s, t) == d && Forgotten(d, After(a, s, t)) == d && After(a, s, t).gross >= 0
    decreases |s|
  {
    if s == [] {
    } else {
      assert s[0] in s;
      MintsDrop(d, Gain(a, s[0], t), s[1..], t);
    }
  }

  /** Burns forget what is left at their end, if anything. */
  lemma {:induction false} BurnsDrop(d: int, a: Tick, s: seq<Change>, t: int)
    requires (forall e :: e in s ==> e.delta < 0) && Forgotten(d, a) == d
    requires After(a, s, t).gross >= 0
    ensures Dropped(d, a, s, t) == Forgotten(d, After(a, s, t))
    decreases |s|
  {
    if s == [] {
    } else {
      assert s[0] in s;
      var b := Gain(a, s[0], t);
      BurnsFall(s[1..], t);
      BurnsDrop(Forgotten(d, b), b, s[1..], t);
    }
  }

  lemma GroupDrop(d: int, a: Tick, g: seq<Change>, t: int)
    requires a.gross >= 0 && After(a, g, t).gross >= 0 && Forgotten(d, a) == d
    ensures Dropped(d, a, Filter(IsMint(), g) + Filter(IsBurn(), g), t) == Forgotten(d, After(a, g, t))
  {
    var m, b := Filter(IsMint(), g), Filter(IsBurn(), g);
    PartsSum(a, g, t);
    AfterAppend(a, m, b, t);
    DroppedAppend(d, a, m, b, t);
    MintsDrop(d, a, m, t);
    BurnsDrop(d, After(a, m, t), b, t);
  }

  /** The replay order empties a tick only where a transaction of the chain ends. */
  lemma {:induction false} ReplayOrderDrops(d: int, a: Tick, chain: seq<Change>, t: int)
    requires Sorted(ChangeKey(), chain) && Clean(false, a, chain, t) && Forgotten(d, a) == d
    ensures Dropped(d, a, ReplayOrder(chain), t) == BoundaryDropped(d, a, chain, t)
    decreases |chain|
  {
    if chain == [] {
      assert ReplayOrder(chain) == [];
    } else {
      var n := LeadingGroup(chain);
      var g, rest, k := chain[..n], chain[n..], ChangeKey()(chain[0]);
      assert chain == g + rest;
      ReplayOrderSplits(g, rest);
      ReplayOrderOfGroup(g, k);
      PartsSum(a, g, t);
      CleanAppend(false, a, g, rest, t);
      EndsNonNegative(a, g, t);
      GroupDrop(d, a, g, t);
      DroppedAppend(d, a, ReplayOrder(g), ReplayOrder(rest), t);
      ReplayOrderDrops(Forgotten(d, After(a, g, t)), After(a, g, t), rest, t);
      if rest != [] {
        assert g[0] in g && rest[0] in rest;
      }
      BoundaryOfGroup(d, a, g, rest, t, k);
    }
  }

  lemma EndsNonNegative(a: Tick, s: seq<Change>, t: int)
    requires Clean(false, a, s, t)
    ensures a.gross >= 0 && After(a, s, t).gross >= 0
  {
    assert s[..0] == [] && s[..|s|] == s;
    assert Ok(false, After(a, s[..0], t)) && Ok(false, After(a, s[..|s|], t));
  }

  /** Exactly when replaying in the fetcher's order is sound, for histories that drive
      no gross liquidity negative: what the removals forget in chain order must be
      what is left where transactions end. */
  lemma SoundReorderingIff(l: Ledger, spacing: int, chain: seq<Change>)
    requires spacing > 0 && Sorted(ChangeKey(), chain) && WellFormed(chain) && Aligned(chain, spacing)
    requires Normalized(l.ticks) && BitmapMatches(l, spacing)
    requires forall t :: Clean(false, At(l.ticks, t), chain, t)
    ensures SameLedger(Replay(l, spacing, ReplayOrder(chain)), Replay(l, spacing, chain)) <==>
            forall t :: Dropped(0, At(l.ticks, t), chain, t) == BoundaryDropped(0, At(l.ticks, t), chain, t)
  {
    var x, y := Replay(l, spacing, ReplayOrder(chain)), Replay(l, spacing, chain);
    ReplayOrderMembers(chain);
    ReplayKeepsInvariants(l, spacing, ReplayOrder(chain));
    ReplayKeepsInvariants(l, spacing, chain);
    forall t
      ensures At(x.ticks, t) == At(y.ticks, t) <==>
              Dropped(0, At(l.ticks, t), chain, t) == BoundaryDropped(0, At(l.ticks, t), chain, t)
    {
      SameEntryIff(l, spacing, chain, t);
    }
    if forall t :: Dropped(0, At(l.ticks, t), chain, t) == BoundaryDropped(0, At(l.ticks, t), chain, t) {
      SameEntries(x.ticks, y.ticks);
      SameTicksSameLedger(x, y, spacing);
    }
  }

  lemma SameEntryIff(l: Ledger, spacing: int, chain: seq<Change>, t: int)
    requires spacing > 0 && Sorted(ChangeKey(), chain) && WellFormed(chain) && Normalized(l.ticks)
    requires Clean(false, At(l.ticks, t), chain, t)
    ensures At(Replay(l, spacing, ReplayOrder(chain)).ticks, t) == At(Replay(l, spacing, chain).ticks, t) <==>
            Dropped(0, At(l.ticks, t), chain, t) == BoundaryDropped(0, At(l.ticks, t), chain, t)
  {
    var a := At(l.ticks, t);
    ReplayOrderMembers(chain);
    ReplayEntry(l, spacing, ReplayOrder(chain), t);
    ReplayEntry(l, spacing, chain, t);
    FoldedDropped(0, a, ReplayOrder(chain), t);
    FoldedDropped(0, a, chain, t);
    ReplayOrderSum(a, chain, t);
    ReplayOrderDrops(0, a, chain, t);
  }

  /** The part of soundness about gross liquidity needs no net liquidity and no sums: if no
      prefix of the chain order drives a tick of the ledger negative, no prefix of the
      replay order does. */
  lemma ReplayOrderGross(l: Ledger, spacing: int, chain: seq<Change>, t: int)
    requires spacing > 0 && Sorted(ChangeKey(), chain)
    requires forall n :: 0 <= n <= |chain| ==> At(Replay(l, spacing, chain[..n]).ticks, t).gross >= 0
    ensures forall n :: 0 <= n <= |ReplayOrder(chain)| ==>
              At(Replay(l, spacing, ReplayOrder(chain)[..n]).ticks, t).gross >= 0
  {
    var a := At(l.ticks, t);
    forall n | 0 <= n <= |chain| ensures Ok(false, After(a, chain[..n], t)) {
      assert At(Replay(l, spacing, chain[..n]).ticks, t).gross >= 0;
      ReplayGross(l, spacing, chain[..n], t);
    }
    ReplayOrderClean(false, a, chain, t);
    var r := ReplayOrder(chain);
    forall n | 0 <= n <= |r| ensures At(Replay(l, spacing, r[..n]).ticks, t).gross >= 0 {
      assert Ok(false, After(a, r[..n], t));
      ReplayGross(l, spacing, r[..n], t);
    }
  }

  // ----- why nonnegative gross liquidity alone would not be enough

  lemma {:induction false} PrefixGross(s: seq<Change>, n: nat, t: int)
    requires n < |s|
    ensures GrossOver(s[..n + 1], t) == GrossOver(s[..n], t) + GrossIn(s[n], t)
  {
    assert s[..n + 1] == s[..n] + [s[n]];
    assert [s[n]][1..] == [];
    OverAppend(s[..n], [s[n]], t);
  }

  /** Event e takes the entry of tick t from a to b. */
  ghost predicate Takes(e: Change, t: int, a: Tick, b: Tick) {
    b == Trimmed(Gain(a, e, t))
  }

  lemma FourEntries(s: seq<Change>, t: int, a: Tick, b: Tick, c: Tick, d: Tick)
    requires |s| == 4 && WellFormed(s)
    requires Takes(s[0], t, Tick(0, 0), a) && Takes(s[1], t, a, b) && Takes(s[2], t, b, c) && Takes(s[3], t, c, d)
    ensures At(Replay(EMPTY, 1, s).ticks, t) == d
  {
    ReplayEntry(EMPTY, 1, s, t);
    assert Folded(Tick(0, 0), s, t) == Folded(a, s[1..], t) == Folded(b, s[1..][1..], t);
    assert s[1..][1..] == [s[2], s[3]];
    TwoFolded(b, s[2], s[3], t);
  }

  lemma TwoFolded(a: Tick, y: Change, z: Change, t: int)
    ensures Folded(a, [y, z], t) == Trimmed(Gain(Trimmed(Gain(a, y, t)), z, t))
  {
    var b := Trimmed(Gain(a, y, t));
    assert [y, z][1..] == [z] && [z][1..] == [];
    assert Folded(b, [z], t) == Folded(Trimmed(Gain(b, z, t)), [], t);
  }

  lemma WitnessGross(m: Change, h: Change, b: Change, n: nat, t: int)
    requires m == Change(1, 0, 7, 3, 4) && h == Change(1, 0, 7, 5, 6) && b == Change(1, 0, -7, 4, 5) && n <= 4
    ensures At(Replay(EMPTY, 1, [m, h, b, h][..n]).ticks, t).gross >= 0
  {
    ReplayGross(EMPTY, 1, [m, h, b, h][..n], t);
    GrossStays([m, h, b, h], n, t);
  }

  lemma GrossStays(s: seq<Change>, n: nat, t: int)
    requires n <= |s| == 4 && s[1] == s[3] && GrossIn(s[0], t) >= 0 && GrossIn(s[1], t) >= 0
    requires GrossIn(s[0], t) + GrossIn(s[1], t) + GrossIn(s[2], t) >= 0
    ensures GrossOver(s[..n], t) >= 0
  {
    assert s[..0] == [];
    PrefixGross(s, 0, t);
    PrefixGross(s, 1, t);
    PrefixGross(s, 2, t);
    PrefixGross(s, 3, t);
  }

  /** Three mints and a burn of one transaction, the burn third. */
  lemma BurnThird(m: Change, h: Change, b: Change)
    requires m.delta > 0 && h.delta > 0 && b.delta < 0
    requires ChangeKey()(m) == ChangeKey()(h) == ChangeKey()(b)
    ensures ReplayOrder([m, h, b, h]) == [m, h, h, b]
  {
    PickFirstTwo(IsMint(), m, h, b);
    PickThird(IsBurn(), m, h, b);
    ReplayOrderOfGroup([m, h, b, h], ChangeKey()(m));
  }

  lemma PickFirstTwo(p: Change -> bool, x: Change, y: Change, z: Change)
    requires p(x) && p(y) && !p(z)
    ensures Filter(p, [x, y, z, y]) == [x, y, y]
  {
    assert [x, y, z, y] == [x, y] + [z] + [y];
    FilterAppend(p, [x, y] + [z], [y]);
    FilterAppend(p, [x, y], [z]);
    FilterAll(p, [x, y]);
    FilterNone(p, [z]);
    FilterAll(p, [y]);
  }

  lemma PickThird(p: Change -> bool, x: Change, y: Change, z: Change)
    requires !p(x) && !p(y) && p(z)
    ensures Filter(p, [x, y, z, y]) == [z]
  {
    assert [x, y, z, y] == [x, y] + [z] + [y];
    FilterAppend(p, [x, y] + [z], [y]);
    FilterAppend(p, [x, y], [z]);
    FilterNone(p, [x, y]);
    FilterAll(p, [z]);
    FilterNone(p, [y]);
  }

  lemma LowerEntry(e: Change, a: Tick)
    requires e.lower < e.upper && a.gross + e.delta != 0
    ensures Takes(e, e.lower, a, Tick(a.gross + e.delta, a.net + e.delta))
  {
  }

  lemma UpperEntry(e: Change, a: Tick)
    requires e.lower < e.upper && a.gross + e.delta != 0
    ensures Takes(e, e.upper, a, Tick(a.gross + e.delta, a.net - e.delta))
  {
  }

  lemma UpperRemoved(e: Change, a: Tick)
    requires e.lower < e.upper && a.gross + e.delta == 0
    ensures Takes(e, e.upper, a, Tick(0, 0))
  {
  }

  lemma NotTouched(e: Change, t: int)
    requires e.lower != t && e.upper != t
    ensures Takes(e, t, Tick(0, 0), Tick(0, 0))
  {
  }

  lemma WitnessEntries(m: Change, h: Change, b: Change, t: int)
    requires m.lower < m.upper < t && h.lower == t < h.upper && b.lower < b.upper == t
    requires h.delta == 7 && b.delta == -7
    ensures At(Replay(EMPTY, 1, [m, h, b, h]).ticks, t) == Tick(7, 7)
    ensures At(Replay(EMPTY, 1, [m, h, h, b]).ticks, t) == Tick(7, 21)
  {
    NotTouched(m, t);
    LowerEntry(h, Tick(0, 0));
    LowerEntry(h, Tick(7, 7));
    UpperRemoved(b, Tick(7, 7));
    UpperEntry(b, Tick(14, 14));
    FourEntries([m, h, b, h], t, Tick(0, 0), Tick(7, 7), Tick(0, 0), Tick(7, 7));
    FourEntries([m, h, h, b], t, Tick(0, 0), Tick(7, 7), Tick(14, 14), Tick(7, 21));
  }

  /** A removal at zero gross forgets net liquidity, and the two orders can remove at
      different points.  Four events of one transaction, of which no prefix leaves any
      tick with negative gross liquidity, give different entries at tick 5. */
  lemma GrossAloneIsNotEnough(m: Change, h: Change, b: Change)
    requires m == Change(1, 0, 7, 3, 4) && h == Change(1, 0, 7, 5, 6) && b == Change(1, 0, -7, 4, 5)
    ensures forall n, t :: 0 <= n <= 4 ==> At(Replay(EMPTY, 1, [m, h, b, h][..n]).ticks, t).gross >= 0
    ensures At(Replay(EMPTY, 1, [m, h, b, h]).ticks, 5) == Tick(7, 7)
    ensures At(Replay(EMPTY, 1, ReplayOrder([m, h, b, h])).ticks, 5) == Tick(7, 21)
  {
    forall n, t | 0 <= n <= 4 ensures At(Replay(EMPTY, 1, [m, h, b, h][..n]).ticks, t).gross >= 0 {
      WitnessGross(m, h, b, n, t);
    }
    BurnThird(m, h, b);
    WitnessEntries(m, h, b, 5);
  }

  lemma {:induction false} PrefixRange(s: seq<Change>, n: nat, lower: int, upper: int)
    requires n < |s|
    ensures RangeSum(s[..n + 1], lower, upper) ==
            RangeSum(s[..n], lower, upper) + if s[n].lower == lower && s[n].upper == upper then s[n].delta else 0
  {
    if n == 0 {
      assert s[..1][1..] == [] && s[..0] == [];
    } else {
      PrefixRange(s[1..], n - 1, lower, upper);
      assert s[..n + 1][1..] == s[1..][..n] && s[..n][1..] == s[1..][..n - 1];
    }
  }

  lemma FiveRanges(s: seq<Change>, n: nat, lower: int, upper: int)
    requires |s| == 5 && n <= 5
    requires s[0].delta == s[1].delta == s[2].delta == s[4].delta == 7 && s[3].delta == -7
    requires s[0].lower == s[3].lower && s[0].upper == s[3].upper
    ensures RangeSum(s[..n], lower, upper) >= 0
  {
    assert s[..0] == [];
    PrefixRange(s, 0, lower, upper);
    PrefixRange(s, 1, lower, upper);
    PrefixRange(s, 2, lower, upper);
    PrefixRange(s, 3, lower, upper);
    PrefixRange(s, 4, lower, upper);
  }

  /** How such events can reach the fetcher: they are the rest of a history that the
      protocol allows, of which an earlier run has lost the mint that the burn undoes. */
  lemma WitnessIsReachable(lost: Change, m: Change, h: Change, b: Change)
    requires m == Change(1, 0, 7, 3, 4) && h == Change(1, 0, 7, 5, 6) && b == Change(1, 0, -7, 4, 5)
    requires lost == Change(0, 0, 7, 4, 5)
    ensures PositionsOk([lost] + [m, h, b, h])
  {
    var s := [lost] + [m, h, b, h];
    forall n | 0 <= n <= 5 ensures RangesOk(s[..n]) {
      forall lower, upper ensures RangeSum(s[..n], lower, upper) >= 0 {
        FiveRanges(s, n, lower, upper);
      }
    }
  }
}
