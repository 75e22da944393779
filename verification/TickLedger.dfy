/** One pool's tick ledger and the replay of liquidity changes into it.  The
    per-tick step follows sections 6.3 and 6.2.4 of the Uniswap v3 Core whitepaper;
    it stands for the library call `external_update`. */
module TickLedger {

  datatype Tick = Tick(gross: int, net: int)

  /** One accumulated event: (block, tx_index, (liquidity_delta, tick_lower, tick_upper)). */
  datatype Change = Change(block: int, tx: int, delta: int, lower: int, upper: int)

  /** Tick entries, and bitmap words as their sets of positions 0..255. */
  datatype Ledger = Ledger(ticks: map<int, Tick>, words: map<int, set<int>>)

  const EMPTY := Ledger(map[], map[])

  function At(ticks: map<int, Tick>, t: int): Tick {
    if t in ticks then ticks[t] else Tick(0, 0)
  }

  function WordAt(words: map<int, set<int>>, w: int): set<int> {
    if w in words then words[w] else {}
  }

  // ----- the trusted step

  function WordOf(t: int, spacing: int): int
    requires spacing > 0
  {
    (t / spacing) / 256
  }

  function BitOf(t: int, spacing: int): int
    requires spacing > 0
  {
    (t / spacing) % 256
  }

  function Flip(words: map<int, set<int>>, w: int, bit: int): map<int, set<int>> {
    var prior := WordAt(words, w);
    words[w := if bit in prior then prior - {bit} else prior + {bit}]
  }

  lemma FlipWord(words: map<int, set<int>>, w: int, bit: int, v: int)
    ensures WordAt(Flip(words, w, bit), v) ==
            if v != w then WordAt(words, v)
            else if bit in WordAt(words, v) then WordAt(words, v) - {bit} else WordAt(words, v) + {bit}
  {
  }

  function Touch(l: Ledger, spacing: int, t: int, gross: int, net: int): Ledger
    requires spacing > 0
  {
    var prior := At(l.ticks, t);
    var upd := Tick(prior.gross + gross, prior.net + net);
    Ledger(if upd.gross == 0 then l.ticks - {t} else l.ticks[t := upd],
           if (prior.gross == 0) != (upd.gross == 0)
           then Flip(l.words, WordOf(t, spacing), BitOf(t, spacing)) else l.words)
  }

  function Apply(l: Ledger, spacing: int, e: Change): Ledger
    requires spacing > 0
  {
    Touch(Touch(l, spacing, e.lower, e.delta, e.delta), spacing, e.upper, e.delta, -e.delta)
  }

  function Replay(l: Ledger, spacing: int, s: seq<Change>): Ledger
    requires spacing > 0
    decreases |s|
  {
    if s == [] then l else Replay(Apply(l, spacing, s[0]), spacing, s[1..])
  }

  lemma {:induction false} ReplayAppend(l: Ledger, spacing: int, a: seq<Change>, b: seq<Change>)
    requires spacing > 0
    ensures Replay(l, spacing, a + b) == Replay(Replay(l, spacing, a), spacing, b)
    decreases |a|
  {
    if a == [] {
      assert a + b == b;
    } else {
      assert (a + b)[1..] == a[1..] + b;
      ReplayAppend(Apply(l, spacing, a[0]), spacing, a[1..], b);
    }
  }

  // ----- invariants of every replay

  ghost predicate Normalized(ticks: map<int, Tick>) {
    forall t :: t in ticks ==> ticks[t].gross != 0
  }

  /** The bitmap says exactly which aligned ticks have an entry, and all are aligned. */
  ghost predicate BitmapMatches(l: Ledger, spacing: int)
    requires spacing > 0
  {
    && (forall t :: t in l.ticks ==> t % spacing == 0)
    && (forall w, b :: b in WordAt(l.words, w) ==> 0 <= b < 256)
    && (forall t :: t % spacing == 0 ==>
          (t in l.ticks <==> BitOf(t, spacing) in WordAt(l.words, WordOf(t, spacing))))
  }

  ghost predicate Aligned(s: seq<Change>, spacing: int)
    requires spacing > 0
  {
    forall e :: e in s ==> e.lower % spacing == 0 && e.upper % spacing == 0
  }

  lemma PositionUnique(t: int, u: int, spacing: int)
    requires spacing > 0 && t % spacing == 0 && u % spacing == 0
    requires WordOf(t, spacing) == WordOf(u, spacing) && BitOf(t, spacing) == BitOf(u, spacing)
    ensures t == u
  {
    assert t / spacing == u / spacing;
    assert t == (t / spacing) * spacing && u == (u / spacing) * spacing;
  }

  lemma TouchKeepsInvariants(l: Ledger, spacing: int, t: int, gross: int, net: int)
    requires spacing > 0 && t % spacing == 0 && Normalized(l.ticks) && BitmapMatches(l, spacing)
    ensures Normalized(Touch(l, spacing, t, gross, net).ticks)
    ensures BitmapMatches(Touch(l, spacing, t, gross, net), spacing)
  {
    var r := Touch(l, spacing, t, gross, net);
    forall v {
      FlipWord(l.words, WordOf(t, spacing), BitOf(t, spacing), v);
    }
    forall u | u % spacing == 0
      ensures u in r.ticks <==> BitOf(u, spacing) in WordAt(r.words, WordOf(u, spacing))
    {
      assert u in l.ticks <==> BitOf(u, spacing) in WordAt(l.words, WordOf(u, spacing));
      if WordOf(t, spacing) == WordOf(u, spacing) && BitOf(t, spacing) == BitOf(u, spacing) {
        PositionUnique(t, u, spacing);
      }
    }
  }

  lemma {:induction false} ReplayKeepsInvariants(l: Ledger, spacing: int, s: seq<Change>)
    requires spacing > 0 && Aligned(s, spacing) && Normalized(l.ticks) && BitmapMatches(l, spacing)
    ensures Normalized(Replay(l, spacing, s).ticks)
    ensures BitmapMatches(Replay(l, spacing, s), spacing)
    decreases |s|
  {
    if s == [] {
    } else {
      var e := s[0];
      TouchKeepsInvariants(l, spacing, e.lower, e.delta, e.delta);
      TouchKeepsInvariants(Touch(l, spacing, e.lower, e.delta, e.delta), spacing, e.upper, e.delta, -e.delta);
      ReplayKeepsInvariants(Apply(l, spacing, e), spacing, s[1..]);
    }
  }

  /** Ledgers that agree, with an absent bitmap word read as zero. */
  ghost predicate SameLedger(a: Ledger, b: Ledger) {
    && a.ticks == b.ticks
    && forall w :: WordAt(a.words, w) == WordAt(b.words, w)
  }

  /** The tick entries determine the bitmap. */
  lemma SameTicksSameLedger(a: Ledger, b: Ledger, spacing: int)
    requires spacing > 0 && BitmapMatches(a, spacing) && BitmapMatches(b, spacing) && a.ticks == b.ticks
    ensures SameLedger(a, b)
  {
    forall w, bit | 0 <= bit < 256 ensures bit in WordAt(a.words, w) <==> bit in WordAt(b.words, w) {
      var t := (w * 256 + bit) * spacing;
      PositionOf(w, bit, spacing);
      assert t in a.ticks <==> BitOf(t, spacing) in WordAt(a.words, WordOf(t, spacing));
      assert t in b.ticks <==> BitOf(t, spacing) in WordAt(b.words, WordOf(t, spacing));
    }
    forall w ensures WordAt(a.words, w) == WordAt(b.words, w) {
      assert forall bit :: bit in WordAt(a.words, w) <==> bit in WordAt(b.words, w);
    }
  }

  lemma PositionOf(w: int, bit: int, spacing: int)
    requires spacing > 0 && 0 <= bit < 256
    ensures ((w * 256 + bit) * spacing) % spacing == 0
    ensures WordOf((w * 256 + bit) * spacing, spacing) == w
    ensures BitOf((w * 256 + bit) * spacing, spacing) == bit
  {
    DivExact(w * 256 + bit, spacing);
  }

  lemma DivExact(c: int, spacing: int)
    requires spacing > 0
    ensures (c * spacing) / spacing == c && (c * spacing) % spacing == 0
  {
    var q, r := (c * spacing) / spacing, (c * spacing) % spacing;
    assert c * spacing == q * spacing + r;
    assert (c - q) * spacing == r;
    if c > q { MulAtLeast(c - q, spacing); }
    if c < q { MulAtLeast(q - c, spacing); }
  }

  lemma MulAtLeast(d: int, spacing: int)
    requires d >= 1 && spacing > 0
    ensures d * spacing >= spacing
  {
  }

  /** Replaying does not see whether an empty word is stored. */
  lemma {:induction false} ReplayCong(a: Ledger, b: Ledger, spacing: int, s: seq<Change>)
    requires spacing > 0 && SameLedger(a, b)
    ensures SameLedger(Replay(a, spacing, s), Replay(b, spacing, s))
    decreases |s|
  {
    if s == [] {
    } else {
      var e := s[0];
      TouchCong(a, b, spacing, e.lower, e.delta, e.delta);
      TouchCong(Touch(a, spacing, e.lower, e.delta, e.delta), Touch(b, spacing, e.lower, e.delta, e.delta),
                spacing, e.upper, e.delta, -e.delta);
      ReplayCong(Apply(a, spacing, e), Apply(b, spacing, e), spacing, s[1..]);
    }
  }

  lemma TouchCong(a: Ledger, b: Ledger, spacing: int, t: int, gross: int, net: int)
    requires spacing > 0 && SameLedger(a, b)
    ensures SameLedger(Touch(a, spacing, t, gross, net), Touch(b, spacing, t, gross, net))
  {
    var x, y := Touch(a, spacing, t, gross, net), Touch(b, spacing, t, gross, net);
    forall w ensures WordAt(x.words, w) == WordAt(y.words, w) {
      FlipWord(a.words, WordOf(t, spacing), BitOf(t, spacing), w);
      FlipWord(b.words, WordOf(t, spacing), BitOf(t, spacing), w);
      assert WordAt(a.words, w) == WordAt(b.words, w);
    }
  }

  // ----- one tick's view of a replay

  /** What event e adds to the gross and the net liquidity of tick t. */
  function GrossIn(e: Change, t: int): int {
    (if t == e.lower then e.delta else 0) + (if t == e.upper then e.delta else 0)
  }

  function NetIn(e: Change, t: int): int {
    (if t == e.lower then e.delta else 0) - (if t == e.upper then e.delta else 0)
  }

  function GrossOver(s: seq<Change>, t: int): int {
    if s == [] then 0 else GrossIn(s[0], t) + GrossOver(s[1..], t)
  }

  function NetOver(s: seq<Change>, t: int): int {
    if s == [] then 0 else NetIn(s[0], t) + NetOver(s[1..], t)
  }

  /** The entry of tick t after adding up s, with nothing ever removed. */
  function After(a: Tick, s: seq<Change>, t: int): Tick {
    Tick(a.gross + GrossOver(s, t), a.net + NetOver(s, t))
  }

  lemma {:induction false} OverAppend(x: seq<Change>, y: seq<Change>, t: int)
    ensures GrossOver(x + y, t) == GrossOver(x, t) + GrossOver(y, t)
    ensures NetOver(x + y, t) == NetOver(x, t) + NetOver(y, t)
  {
    if x == [] {
      assert x + y == y;
    } else {
      assert (x + y)[1..] == x[1..] + y;
      OverAppend(x[1..], y, t);
    }
  }

  lemma AfterAppend(a: Tick, x: seq<Change>, y: seq<Change>, t: int)
    ensures After(a, x + y, t) == After(After(a, x, t), y, t)
  {
    OverAppend(x, y, t);
  }

  function Gain(a: Tick, e: Change, t: int): Tick {
    Tick(a.gross + GrossIn(e, t), a.net + NetIn(e, t))
  }

  lemma AfterCons(a: Tick, e: Change, s: seq<Change>, t: int)
    ensures After(a, [e] + s, t) == After(Gain(a, e, t), s, t)
  {
    assert ([e] + s)[1..] == s;
  }

  /** No gross liquidity below zero and, when strict, no net left where gross is zero. */
  ghost predicate Ok(strict: bool, a: Tick) {
    a.gross >= 0 && (strict && a.gross == 0 ==> a.net == 0)
  }

  /** Every prefix of s leaves tick t in order. */
  ghost predicate Clean(strict: bool, a: Tick, s: seq<Change>, t: int) {
    forall n :: 0 <= n <= |s| ==> Ok(strict, After(a, s[..n], t))
  }

  ghost predicate WellFormed(s: seq<Change>) {
    forall e :: e in s ==> e.lower < e.upper
  }

  /** A prefix of x + y is a prefix of x, or x and a prefix of y. */
  lemma AfterPrefix(a: Tick, x: seq<Change>, y: seq<Change>, n: nat, t: int)
    requires n <= |x| + |y|
    ensures n <= |x| ==> After(a, (x + y)[..n], t) == After(a, x[..n], t)
    ensures n >= |x| ==> After(a, (x + y)[..n], t) == After(After(a, x, t), y[..n - |x|], t)
  {
    if n <= |x| {
      assert (x + y)[..n] == x[..n];
    }
    if n >= |x| {
      assert (x + y)[..n] == x + y[..n - |x|];
      AfterAppend(a, x, y[..n - |x|], t);
    }
  }

  lemma CleanSplits(strict: bool, a: Tick, x: seq<Change>, y: seq<Change>, t: int)
    requires Clean(strict, a, x + y, t)
    ensures Clean(strict, a, x, t) && Clean(strict, After(a, x, t), y, t)
  {
    forall n | 0 <= n <= |x| ensures Ok(strict, After(a, x[..n], t)) {
      AfterPrefix(a, x, y, n, t);
    }
    forall n | 0 <= n <= |y| ensures Ok(strict, After(After(a, x, t), y[..n], t)) {
      AfterPrefix(a, x, y, |x| + n, t);
    }
  }

  lemma CleanJoins(strict: bool, a: Tick, x: seq<Change>, y: seq<Change>, t: int)
    requires Clean(strict, a, x, t) && Clean(strict, After(a, x, t), y, t)
    ensures Clean(strict, a, x + y, t)
  {
    forall n | 0 <= n <= |x + y| ensures Ok(strict, After(a, (x + y)[..n], t)) {
      AfterPrefix(a, x, y, n, t);
    }
  }

  lemma CleanAppend(strict: bool, a: Tick, x: seq<Change>, y: seq<Change>, t: int)
    ensures Clean(strict, a, x + y, t) <==> Clean(strict, a, x, t) && Clean(strict, After(a, x, t), y, t)
  {
    if Clean(strict, a, x + y, t) {
      CleanSplits(strict, a, x, y, t);
    }
    if Clean(strict, a, x, t) && Clean(strict, After(a, x, t), y, t) {
      CleanJoins(strict, a, x, y, t);
    }
  }

  /** While every prefix is clean, removal at zero loses nothing. */
  lemma {:induction false} ReplayIsSum(l: Ledger, spacing: int, s: seq<Change>, t: int)
    requires spacing > 0 && WellFormed(s) && Clean(true, At(l.ticks, t), s, t)
    ensures At(Replay(l, spacing, s).ticks, t) == After(At(l.ticks, t), s, t)
    decreases |s|
  {
    if s == [] {
    } else {
      assert s[0] in s;
      CleanHead(l, spacing, s, t);
      ReplayIsSum(Apply(l, spacing, s[0]), spacing, s[1..], t);
    }
  }

  lemma ApplyTick(l: Ledger, spacing: int, e: Change, t: int)
    requires spacing > 0 && e.lower < e.upper && Ok(true, Gain(At(l.ticks, t), e, t))
    ensures At(Apply(l, spacing, e).ticks, t) == Gain(At(l.ticks, t), e, t)
  {
  }

  lemma CleanStep(a: Tick, s: seq<Change>, t: int)
    requires s != [] && Clean(true, a, s, t)
    ensures var a' := Gain(a, s[0], t);
            Ok(true, a') && Clean(true, a', s[1..], t) && After(a, s, t) == After(a', s[1..], t)
  {
    var a' := Gain(a, s[0], t);
    assert s == [s[0]] + s[1..];
    AfterCons(a, s[0], s[1..], t);
    forall n | 0 <= n <= |s[1..]| ensures Ok(true, After(a', s[1..][..n], t)) {
      assert s[..n + 1] == [s[0]] + s[1..][..n];
      AfterCons(a, s[0], s[1..][..n], t);
      assert Ok(true, After(a, s[..n + 1], t));
    }
    assert Ok(true, After(a', s[1..][..0], t));
  }

  lemma CleanHead(l: Ledger, spacing: int, s: seq<Change>, t: int)
    requires spacing > 0 && s != [] && s[0].lower < s[0].upper && Clean(true, At(l.ticks, t), s, t)
    ensures var a' := Gain(At(l.ticks, t), s[0], t); Ok(true, a') && At(Apply(l, spacing, s[0]).ticks, t) == a'
    ensures After(At(l.ticks, t), s, t) == After(At(Apply(l, spacing, s[0]).ticks, t), s[1..], t)
    ensures Clean(true, At(Apply(l, spacing, s[0]).ticks, t), s[1..], t)
  {
    CleanStep(At(l.ticks, t), s, t);
    ApplyTick(l, spacing, s[0], t);
  }

  // ----- one tick's entry, whatever the history

  lemma TouchGross(l: Ledger, spacing: int, t: int, gross: int, net: int, u: int)
    requires spacing > 0
    ensures At(Touch(l, spacing, t, gross, net).ticks, u).gross == At(l.ticks, u).gross + if u == t then gross else 0
  {
  }

  /** The gross liquidity of a tick is always the plain sum: removals forget none. */
  lemma {:induction false} ReplayGross(l: Ledger, spacing: int, s: seq<Change>, t: int)
    requires spacing > 0
    ensures At(Replay(l, spacing, s).ticks, t).gross == At(l.ticks, t).gross + GrossOver(s, t)
    decreases |s|
  {
    if s == [] {
    } else {
      var e := s[0];
      TouchGross(l, spacing, e.lower, e.delta, e.delta, t);
      TouchGross(Touch(l, spacing, e.lower, e.delta, e.delta), spacing, e.upper, e.delta, -e.delta, t);
      ReplayGross(Apply(l, spacing, e), spacing, s[1..], t);
    }
  }

  function Trimmed(a: Tick): Tick {
    if a.gross == 0 then Tick(0, 0) else a
  }

  /** The entry of tick t after replaying s from entry a: whenever its gross liquidity
      reaches zero its net liquidity is forgotten. */
  function Folded(a: Tick, s: seq<Change>, t: int): Tick
    decreases |s|
  {
    if s == [] then a else Folded(Trimmed(Gain(a, s[0], t)), s[1..], t)
  }

  lemma TouchEntry(l: Ledger, spacing: int, t: int, gross: int, net: int)
    requires spacing > 0 && Normalized(l.ticks)
    ensures var r := Touch(l, spacing, t, gross, net).ticks;
            && Normalized(r)
            && At(r, t) == Trimmed(Tick(At(l.ticks, t).gross + gross, At(l.ticks, t).net + net))
            && forall u :: u != t ==> At(r, u) == At(l.ticks, u)
  {
  }

  lemma ApplyEntry(l: Ledger, spacing: int, e: Change, t: int)
    requires spacing > 0 && e.lower < e.upper && Normalized(l.ticks)
    ensures Normalized(Apply(l, spacing, e).ticks)
    ensures At(Apply(l, spacing, e).ticks, t) == Trimmed(Gain(At(l.ticks, t), e, t))
  {
    TouchEntry(l, spacing, e.lower, e.delta, e.delta);
    TouchEntry(Touch(l, spacing, e.lower, e.delta, e.delta), spacing, e.upper, e.delta, -e.delta);
  }

  lemma {:induction false} ReplayEntry(l: Ledger, spacing: int, s: seq<Change>, t: int)
    requires spacing > 0 && WellFormed(s) && Normalized(l.ticks)
    ensures Normalized(Replay(l, spacing, s).ticks)
    ensures At(Replay(l, spacing, s).ticks, t) == Folded(At(l.ticks, t), s, t)
    decreases |s|
  {
    if s == [] {
    } else {
      assert s[0] in s && forall e :: e in s[1..] ==> e in s;
      ApplyEntry(l, spacing, s[0], t);
      ReplayEntry(Apply(l, spacing, s[0]), spacing, s[1..], t);
    }
  }

  /** From gross liquidity g, some event of s leaves tick t without any. */
  ghost predicate Emptied(g: int, s: seq<Change>, t: int) {
    exists n :: 0 < n <= |s| && g + GrossOver(s[..n], t) == 0
  }

  lemma EmptiedStep(g: int, s: seq<Change>, t: int)
    requires s != []
    ensures Emptied(g, s, t) <==> g + GrossIn(s[0], t) == 0 || Emptied(g + GrossIn(s[0], t), s[1..], t)
  {
    forall n | 0 < n <= |s| ensures GrossOver(s[..n], t) == GrossIn(s[0], t) + GrossOver(s[1..][..n - 1], t) {
      assert s[..n][1..] == s[1..][..n - 1];
    }
    if n :| 0 < n <= |s| && g + GrossOver(s[..n], t) == 0 {
      assert n == 1 || (0 < n - 1 <= |s[1..]| && g + GrossIn(s[0], t) + GrossOver(s[1..][..n - 1], t) == 0);
    }
    if n :| 0 < n <= |s[1..]| && g + GrossIn(s[0], t) + GrossOver(s[1..][..n], t) == 0 {
      assert 0 < n + 1 <= |s| && g + GrossOver(s[..n + 1], t) == 0;
    }
    if g + GrossIn(s[0], t) == 0 {
      assert g + GrossOver(s[..1], t) == 0;
    }
  }

  /** Two entries of equal gross liquidity: a replay keeps their difference in net
      liquidity, unless it empties the tick, and then forgets it. */
  lemma {:induction false} FoldedCompare(a: Tick, b: Tick, s: seq<Change>, t: int)
    requires a.gross == b.gross
    ensures var x, y := Folded(a, s, t), Folded(b, s, t);
            x.gross == y.gross && (if Emptied(a.gross, s, t) then x == y else x.net - a.net == y.net - b.net)
    decreases |s|
  {
    if s == [] {
    } else {
      EmptiedStep(a.gross, s, t);
      FoldedCompare(Trimmed(Gain(a, s[0], t)), Trimmed(Gain(b, s[0], t)), s[1..], t);
    }
  }

  lemma {:induction false} FoldedGross(a: Tick, s: seq<Change>, t: int)
    ensures Folded(a, s, t).gross == a.gross + GrossOver(s, t)
    decreases |s|
  {
    if s == [] {
    } else {
      FoldedGross(Trimmed(Gain(a, s[0], t)), s[1..], t);
    }
  }

  /** The net liquidity that removals have forgotten: the plain net sum at the last
      point of s where tick t has no gross liquidity, d if there is none.  a is the
      plain sum before s. */
  function Dropped(d: int, a: Tick, s: seq<Change>, t: int): int
    decreases |s|
  {
    if s == [] then d
    else
      var b := Gain(a, s[0], t);
      Dropped(if b.gross == 0 then b.net else d, b, s[1..], t)
  }

  /** An entry is the plain sum less the net liquidity forgotten so far, and stays so. */
  lemma {:induction false} FoldedDropped(d: int, a: Tick, s: seq<Change>, t: int)
    ensures Folded(Tick(a.gross, a.net - d), s, t) ==
            Tick(After(a, s, t).gross, After(a, s, t).net - Dropped(d, a, s, t))
    decreases |s|
  {
    if s == [] {
    } else {
      var b := Gain(a, s[0], t);
      FoldedDropped(if b.gross == 0 then b.net else d, b, s[1..], t);
    }
  }

  lemma {:induction false} DroppedAppend(d: int, a: Tick, x: seq<Change>, y: seq<Change>, t: int)
    ensures Dropped(d, a, x + y, t) == Dropped(Dropped(d, a, x, t), After(a, x, t), y, t)
    decreases |x|
  {
    if x == [] {
      assert x + y == y;
    } else {
      assert (x + y)[1..] == x[1..] + y;
      var b := Gain(a, x[0], t);
      assert After(a, x, t) == After(b, x[1..], t);
      DroppedAppend(if b.gross == 0 then b.net else d, b, x[1..], y, t);
    }
  }

  /** While every prefix is in order nothing is forgotten. */
  lemma {:induction false} CleanDropsNothing(a: Tick, s: seq<Change>, t: int)
    requires Clean(true, a, s, t)
    ensures Dropped(0, a, s, t) == 0
    decreases |s|
  {
    if s == [] {
    } else {
      CleanStep(a, s, t);
      CleanDropsNothing(Gain(a, s[0], t), s[1..], t);
    }
  }

  // ----- conservation

  ghost function NetSum(ticks: map<int, Tick>): int
    decreases |ticks|
  {
    if t :| t in ticks then ticks[t].net + NetSum(ticks - {t}) else 0
  }

  lemma {:induction false} NetSumRemove(ticks: map<int, Tick>, t: int)
    requires t in ticks
    ensures NetSum(ticks) == ticks[t].net + NetSum(ticks - {t})
    decreases |ticks|
  {
    var u :| u in ticks && NetSum(ticks) == ticks[u].net + NetSum(ticks - {u});
    if u != t {
      NetSumRemove(ticks - {u}, t);
      NetSumRemove(ticks - {t}, u);
      assert ticks - {u} - {t} == ticks - {t} - {u};
    }
  }

  lemma NetSumWithout(ticks: map<int, Tick>, t: int)
    ensures NetSum(ticks) == At(ticks, t).net + NetSum(ticks - {t})
  {
    if t in ticks {
      NetSumRemove(ticks, t);
    } else {
      assert ticks - {t} == ticks;
    }
  }

  lemma TouchNetSum(l: Ledger, spacing: int, t: int, gross: int, net: int)
    requires spacing > 0
    requires Ok(true, Tick(At(l.ticks, t).gross + gross, At(l.ticks, t).net + net))
    ensures NetSum(Touch(l, spacing, t, gross, net).ticks) == NetSum(l.ticks) + net
  {
    var r := Touch(l, spacing, t, gross, net);
    NetSumWithout(l.ticks, t);
    NetSumWithout(r.ticks, t);
    assert r.ticks - {t} == l.ticks - {t};
  }

  /** Net liquidity over all ticks is conserved by every clean replay. */
  lemma {:induction false} NetConserved(l: Ledger, spacing: int, s: seq<Change>)
    requires spacing > 0 && WellFormed(s) && forall t :: Clean(true, At(l.ticks, t), s, t)
    ensures NetSum(Replay(l, spacing, s).ticks) == NetSum(l.ticks)
    decreases |s|
  {
    if s == [] {
    } else {
      var e := s[0];
      assert e in s;
      forall t ensures Clean(true, At(Apply(l, spacing, e).ticks, t), s[1..], t) {
        assert Clean(true, At(l.ticks, t), s, t);
        CleanHead(l, spacing, s, t);
      }
      ApplyNetSum(l, spacing, s);
      NetConserved(Apply(l, spacing, e), spacing, s[1..]);
    }
  }

  lemma ApplyNetSum(l: Ledger, spacing: int, s: seq<Change>)
    requires spacing > 0 && s != [] && s[0].lower < s[0].upper && forall t :: Clean(true, At(l.ticks, t), s, t)
    ensures NetSum(Apply(l, spacing, s[0]).ticks) == NetSum(l.ticks)
  {
    var e := s[0];
    assert Clean(true, At(l.ticks, e.lower), s, e.lower) && Clean(true, At(l.ticks, e.upper), s, e.upper);
    CleanHead(l, spacing, s, e.lower);
    CleanHead(l, spacing, s, e.upper);
    TouchNetSum(l, spacing, e.lower, e.delta, e.delta);
    var m := Touch(l, spacing, e.lower, e.delta, e.delta);
    assert At(m.ticks, e.upper) == At(l.ticks, e.upper);
    TouchNetSum(m, spacing, e.upper, e.delta, -e.delta);
  }

  // ----- what the protocol guarantees: no position goes below zero

  function RangeSum(s: seq<Change>, lower: int, upper: int): int {
    if s == [] then 0
    else (if s[0].lower == lower && s[0].upper == upper then s[0].delta else 0) + RangeSum(s[1..], lower, upper)
  }

  /** The liquidity of every (lower, upper) range is nonnegative after s. */
  ghost predicate RangesOk(s: seq<Change>) {
    forall lower, upper :: RangeSum(s, lower, upper) >= 0
  }

  ghost predicate PositionsOk(s: seq<Change>) {
    WellFormed(s) && forall n :: 0 <= n <= |s| ==> RangesOk(s[..n])
  }

  function Without(s: seq<Change>, lower: int, upper: int): (r: seq<Change>)
    ensures |r| <= |s|
    ensures forall e :: e in r ==> e in s
  {
    if s == [] then []
    else if s[0].lower == lower && s[0].upper == upper then Without(s[1..], lower, upper)
    else [s[0]] + Without(s[1..], lower, upper)
  }

  /** The events of one range act on a tick like one event of their sum. */
  lemma {:induction false} WithoutSums(s: seq<Change>, lower: int, upper: int, t: int)
    ensures var e := Change(0, 0, RangeSum(s, lower, upper), lower, upper);
            && GrossOver(s, t) == GrossIn(e, t) + GrossOver(Without(s, lower, upper), t)
            && NetOver(s, t) == NetIn(e, t) + NetOver(Without(s, lower, upper), t)
  {
    if s == [] {
    } else {
      WithoutSums(s[1..], lower, upper, t);
      var rest := Without(s[1..], lower, upper);
      assert ([s[0]] + rest)[1..] == rest;
    }
  }

  lemma {:induction false} WithoutRange(s: seq<Change>, lower: int, upper: int, l: int, u: int)
    ensures RangeSum(Without(s, lower, upper), l, u) == if l == lower && u == upper then 0 else RangeSum(s, l, u)
  {
    if s == [] {
    } else {
      WithoutRange(s[1..], lower, upper, l, u);
      var rest := Without(s[1..], lower, upper);
      assert ([s[0]] + rest)[1..] == rest;
    }
  }

  /** With nonnegative ranges, gross bounds the net of every tick. */
  lemma {:induction false} GrossBoundsNet(s: seq<Change>, t: int)
    requires WellFormed(s) && RangesOk(s)
    ensures var a := After(Tick(0, 0), s, t); -a.gross <= a.net <= a.gross
    decreases |s|
  {
    if s == [] {
    } else {
      var l, u := s[0].lower, s[0].upper;
      assert s[0] in s;
      var rest := Without(s, l, u);
      WithoutSums(s, l, u, t);
      forall x, y ensures RangeSum(rest, x, y) >= 0 {
        WithoutRange(s, l, u, x, y);
        assert RangeSum(s, x, y) >= 0;
      }
      assert RangeSum(s, l, u) >= 0;
      assert |Without(s[1..], l, u)| <= |s[1..]|;
      GrossBoundsNet(rest, t);
    }
  }

  /** The protocol's position guarantee makes every history clean at every tick. */
  lemma PositionsOkIsClean(s: seq<Change>, t: int)
    requires PositionsOk(s)
    ensures Clean(true, Tick(0, 0), s, t)
  {
    forall n | 0 <= n <= |s| ensures Ok(true, After(Tick(0, 0), s[..n], t)) {
      assert RangesOk(s[..n]);
      assert forall e :: e in s[..n] ==> e in s;
      GrossBoundsNet(s[..n], t);
    }
  }

  /** Net liquidity sums to zero, gross is positive and bounds net, and the bitmap says
      exactly which ticks have an entry. */
  ghost predicate SoundLedger(l: Ledger, spacing: int)
    requires spacing > 0
  {
    && NetSum(l.ticks) == 0
    && (forall t :: t in l.ticks ==> l.ticks[t].gross > 0 && -l.ticks[t].gross <= l.ticks[t].net <= l.ticks[t].gross)
    && BitmapMatches(l, spacing)
  }

  /** All ledger invariants after replaying any protocol history into an empty ledger. */
  lemma LedgerInvariants(spacing: int, s: seq<Change>)
    requires spacing > 0 && Aligned(s, spacing) && PositionsOk(s)
    ensures SoundLedger(Replay(EMPTY, spacing, s), spacing)
  {
    forall t ensures Clean(true, At(EMPTY.ticks, t), s, t) {
      PositionsOkIsClean(s, t);
    }
    NetConserved(EMPTY, spacing, s);
    ReplayKeepsInvariants(EMPTY, spacing, s);
    var l := Replay(EMPTY, spacing, s);
    forall t | t in l.ticks ensures l.ticks[t].gross > 0 && -l.ticks[t].gross <= l.ticks[t].net <= l.ticks[t].gross {
      ReplayIsSum(EMPTY, spacing, s, t);
      assert s[..|s|] == s;
      assert RangesOk(s[..|s|]);
      GrossBoundsNet(s, t);
    }
  }

  // ----- the helper's in-range liquidity

  const TWO_TO_128 := 0x1_0000_0000_0000_0000_0000_0000_0000_0000
  const TWO_TO_256 := TWO_TO_128 * TWO_TO_128

  /** The helper sits at tick 0; a change is in range iff lower <= 0 < upper. */
  function LiquidityAfter(start: int, s: seq<Change>): int
    decreases |s|
  {
    if s == [] then start
    else LiquidityAfter(if s[0].lower <= 0 < s[0].upper then start + s[0].delta else start, s[1..])
  }

  lemma {:induction false} LiquidityFalls(start: int, s: seq<Change>)
    requires forall e :: e in s ==> -TWO_TO_128 < e.delta < TWO_TO_128
    ensures LiquidityAfter(start, s) >= start - |s| * (TWO_TO_128 - 1)
    decreases |s|
  {
    if s == [] {
    } else {
      assert s[0] in s;
      LiquidityFalls(if s[0].lower <= 0 < s[0].upper then start + s[0].delta else start, s[1..]);
    }
  }

  /** Starting at 2^256 the helper's `liquidity >= 0` check cannot fail. */
  lemma LiquidityHeadroom(s: seq<Change>, n: nat)
    requires n <= |s| < TWO_TO_128 && forall e :: e in s ==> -TWO_TO_128 < e.delta < TWO_TO_128
    ensures LiquidityAfter(TWO_TO_256, s[..n]) >= 0
  {
    LiquidityFalls(TWO_TO_256, s[..n]);
  }
}
