/** The adaptive window loop of the liquidity fetcher: it shrinks the window after
    a failed query and grows it after a successful one. */
module WindowScan {
  import opened Seqs
  import opened TickLedger

  datatype Kind = Mint | Burn

  /** A decoded Mint or Burn log. */
  datatype Log = Log(pool: string, kind: Kind, block: int, tx: int, amount: nat, lower: int, upper: int)

  /** Whether query number q over blocks from..to succeeds. */
  type Provider = (nat, int, int) -> bool

  const UNISWAPV3_START_BLOCK := 1000
  const BLOCK_SPAN := 10_000

  // ----- the loop's control state

  datatype State = State(start: int, span: int, done: bool, windows: seq<(int, int)>, queries: nat)

  function Initial(start: int): State {
    State(start, BLOCK_SPAN, false, [], 0)
  }

  function EndBlock(s: State, newest: int): int {
    if newest < s.start + s.span then newest else s.start + s.span
  }

  function Step(s: State, newest: int, ok: bool): State {
    var end := EndBlock(s, newest);
    if !ok then s.(span := 3 * s.span / 4, queries := s.queries + 1)
    else if end == newest then s.(done := true, windows := s.windows + [(s.start, end)], queries := s.queries + 1)
    else State(end + 1, 21 * s.span / 20, false, s.windows + [(s.start, end)], s.queries + 1)
  }

  /** At most budget queries from s on. */
  function Run(s: State, newest: int, provider: Provider, budget: nat): State
    decreases budget
  {
    if s.done || budget == 0 then s
    else Run(Step(s, newest, provider(s.queries, s.start, EndBlock(s, newest))), newest, provider, budget - 1)
  }

  lemma {:induction false} RunSnoc(s: State, newest: int, provider: Provider, budget: nat)
    ensures var r := Run(s, newest, provider, budget);
            Run(s, newest, provider, budget + 1) ==
              if r.done then r else Step(r, newest, provider(r.queries, r.start, EndBlock(r, newest)))
    decreases budget
  {
    if s.done || budget == 0 {
    } else {
      RunSnoc(Step(s, newest, provider(s.queries, s.start, EndBlock(s, newest))), newest, provider, budget - 1);
    }
  }

  /** A failed query takes the span to floor(0.75 span), a success that does not end the
      loop to floor(1.05 span). */
  lemma SpanAfterQuery(s: State, newest: int, ok: bool)
    requires s.span >= 0 && !Step(s, newest, ok).done
    ensures var r := Step(s, newest, ok).span;
            var percent := if ok then 105 else 75;
            100 * r <= percent * s.span < 100 * (r + 1)
  {
  }

  // ----- exact coverage, for every pattern of failures

  /** The windows are nonempty and follow one another from lo up to just before next. */
  ghost predicate Tiles(windows: seq<(int, int)>, lo: int, next: int)
    decreases |windows|
  {
    if windows == [] then lo == next
    else
      var n := |windows| - 1;
      windows[n].0 <= windows[n].1 && windows[n].1 + 1 == next && Tiles(windows[..n], lo, windows[n].0)
  }

  /** The first block not yet covered. */
  function Reached(s: State, newest: int): int {
    if s.done then newest + 1 else s.start
  }

  /** The windows tile what has been reached.  On a chain that has not reached the
      start the range is inverted, and one accepted query of no blocks ends the loop. */
  ghost predicate Inv(s: State, start: int, newest: int) {
    && s.span >= 0
    && (start <= newest ==> (s.done || s.start <= newest) && Tiles(s.windows, start, Reached(s, newest)))
    && (start > newest && !s.done ==> s.start == start)
  }

  lemma StepInv(s: State, start: int, newest: int, ok: bool)
    requires Inv(s, start, newest) && !s.done
    ensures Inv(Step(s, newest, ok), start, newest)
  {
    var r := Step(s, newest, ok);
    if ok {
      assert r.windows[..|s.windows|] == s.windows;
    }
  }

  lemma {:induction false} WindowsTile(s: State, start: int, newest: int, provider: Provider, budget: nat)
    requires Inv(s, start, newest)
    ensures Inv(Run(s, newest, provider, budget), start, newest)
    decreases budget
  {
    if s.done || budget == 0 {
    } else {
      var ok := provider(s.queries, s.start, EndBlock(s, newest));
      StepInv(s, start, newest, ok);
      WindowsTile(Step(s, newest, ok), start, newest, provider, budget - 1);
    }
  }

  lemma NextWindow(s: State, start: int, newest: int)
    requires Inv(s, start, newest) && !s.done
    ensures start <= s.start && (s.start <= EndBlock(s, newest) + 1 || s.start == start)
  {
    if start <= newest {
      TilesBelow(s.windows, start, s.start);
    }
  }

  /** Every block of start..newest lies in exactly one window of a completed scan. */
  lemma ExactCover(start: int, newest: int, provider: Provider, budget: nat, block: int)
    requires start <= block <= newest
    requires Run(Initial(start), newest, provider, budget).done
    ensures var w := Run(Initial(start), newest, provider, budget).windows;
            exists i :: 0 <= i < |w| && w[i].0 <= block <= w[i].1 &&
                        forall j :: 0 <= j < |w| && w[j].0 <= block <= w[j].1 ==> j == i
  {
    WindowsTile(Initial(start), start, newest, provider, budget);
    var w := Run(Initial(start), newest, provider, budget).windows;
    var i := TileOf(w, start, newest + 1, block);
  }

  lemma {:induction false} TileOf(w: seq<(int, int)>, lo: int, next: int, block: int) returns (i: nat)
    requires Tiles(w, lo, next) && lo <= block < next
    ensures i < |w| && w[i].0 <= block <= w[i].1
    ensures forall j :: 0 <= j < |w| && w[j].0 <= block <= w[j].1 ==> j == i
    decreases |w|
  {
    var n := |w| - 1;
    if w[n].0 <= block {
      i := n;
      TilesBelow(w[..n], lo, w[n].0);
      assert forall j :: 0 <= j < n ==> w[j] == w[..n][j];
    } else {
      i := TileOf(w[..n], lo, w[n].0, block);
      assert forall j :: 0 <= j < n ==> w[j] == w[..n][j];
    }
  }

  lemma {:induction false} TilesBelow(w: seq<(int, int)>, lo: int, next: int)
    requires Tiles(w, lo, next)
    ensures lo <= next
    ensures forall j :: 0 <= j < |w| ==> w[j].1 < next
    decreases |w|
  {
    if w == [] {
    } else {
      var n := |w| - 1;
      TilesBelow(w[..n], lo, w[n].0);
      assert forall j :: 0 <= j < n ==> w[j] == w[..n][j];
    }
  }

  // ----- the query bound

  /** A provider that accepts exactly the windows of width at most limit. */
  ghost predicate Limited(provider: Provider, limit: nat) {
    forall q: nat, a: int, b: int :: provider(q, a, b) <==> b - a <= limit
  }

  /** A provider that accepts at least the windows of width at most limit. */
  ghost predicate Accepts(provider: Provider, limit: nat) {
    forall q: nat, a: int, b: int :: b - a <= limit ==> provider(q, a, b)
  }

  function SpanFloor(limit: nat): nat {
    var m := 3 * (limit + 1) / 4;
    if m < BLOCK_SPAN then m else BLOCK_SPAN
  }

  /** Failures before a span is accepted for sure. */
  function Shrinks(span: nat, limit: nat): nat {
    if span <= limit then 0 else 1 + Shrinks(3 * span / 4, limit)
  }

  /** n shrinks suffice for every span up to top. */
  ghost predicate ShrinksAtMost(top: nat, limit: nat, n: nat) {
    forall span: nat :: span <= top ==> Shrinks(span, limit) <= n
  }

  lemma OneShrink(top: nat, wider: nat, limit: nat, n: nat)
    requires ShrinksAtMost(top, limit, n) && 3 * wider <= 4 * top + 3
    ensures ShrinksAtMost(wider, limit, n + 1)
  {
    forall span: nat | span <= wider ensures Shrinks(span, limit) <= n + 1 {
      assert 3 * span / 4 <= top;
      assert Shrinks(3 * span / 4, limit) <= n;
    }
  }

  lemma ThreeShrinks(top: nat, a: nat, b: nat, c: nat, limit: nat, n: nat)
    requires ShrinksAtMost(top, limit, n)
    requires 3 * a <= 4 * top + 3 && 3 * b <= 4 * a + 3 && 3 * c <= 4 * b + 3
    ensures ShrinksAtMost(c, limit, n + 3)
  {
    OneShrink(top, a, limit, n);
    OneShrink(a, b, limit, n + 1);
    OneShrink(b, c, limit, n + 2);
  }

  lemma ShrinksFromInitialSpan(limit: nat)
    ensures ShrinksAtMost(BLOCK_SPAN, limit, 30)
  {
    ThreeShrinks(0, 1, 2, 3, limit, 0);
    ThreeShrinks(3, 5, 7, 10, limit, 3);
    ThreeShrinks(10, 14, 19, 26, limit, 6);
    ThreeShrinks(26, 35, 47, 63, limit, 9);
    ThreeShrinks(63, 85, 114, 153, limit, 12);
    ThreeShrinks(153, 205, 274, 366, limit, 15);
    ThreeShrinks(366, 489, 653, 871, limit, 18);
    ThreeShrinks(871, 1162, 1550, 2067, limit, 21);
    ThreeShrinks(2067, 2757, 3677, 4903, limit, 24);
    ThreeShrinks(4903, 6538, 8718, BLOCK_SPAN, limit, 27);
  }

  lemma {:induction false} ShrinksMono(a: nat, b: nat, limit: nat)
    requires a <= b
    ensures Shrinks(a, limit) <= Shrinks(b, limit)
    decreases b
  {
    if a > limit {
      ShrinksMono(3 * a / 4, 3 * b / 4, limit);
    }
  }

  /** A grown span needs at most one shrink more. */
  lemma GrowthCostsOne(span: nat, limit: nat)
    ensures Shrinks(21 * span / 20, limit) <= 1 + Shrinks(span, limit)
  {
    var grown := 21 * span / 20;
    assert 3 * grown / 4 <= span;
    ShrinksMono(3 * grown / 4, span, limit);
  }

  function Ahead(start: int, newest: int): nat {
    if start <= newest then newest - start else 0
  }

  function QueryBound(s: State, newest: int, limit: nat): nat
    requires s.span >= 0
  {
    Shrinks(s.span, limit) + 2 * (Ahead(s.start, newest) / (SpanFloor(limit) + 1) + 1)
  }

  lemma DivideStep(ahead: nat, covered: nat, unit: nat)
    requires 1 <= unit <= covered <= ahead
    ensures (ahead - covered) / unit + 1 <= ahead / unit
  {
    DivMono(ahead - covered, ahead - unit, unit);
    DivMinusOne(ahead, unit);
  }

  lemma DivMinusOne(a: nat, d: nat)
    requires 1 <= d <= a
    ensures (a - d) / d == a / d - 1
  {
    var q, p := a / d, (a - d) / d;
    assert a == d * q + a % d && a - d == d * p + (a - d) % d;
    assert (q - 1 - p) * d == (a - d) % d - a % d;
    if q - 1 > p { MulAtLeast(q - 1 - p, d); }
    if q - 1 < p { MulAtLeast(p - q + 1, d); }
  }

  lemma DivMono(a: nat, b: nat, d: nat)
    requires a <= b && 1 <= d
    ensures a / d <= b / d
  {
    if b / d < a / d {
      QuotientOrder(b, a, d);
    }
  }

  lemma QuotientOrder(a: nat, b: nat, d: nat)
    requires 1 <= d && a / d < b / d
    ensures a < b
  {
    var q, r := a / d, b / d;
    assert a == d * q + a % d && b == d * r + b % d;
    MulAtLeast(r - q, d);
    assert d * r == d * q + (r - q) * d;
  }

  /** Every query uses up at least one unit of the bound. */
  lemma StepUsesBound(s: State, newest: int, provider: Provider, limit: nat)
    requires Accepts(provider, limit) && !s.done && s.span >= SpanFloor(limit)
    ensures var r := Step(s, newest, provider(s.queries, s.start, EndBlock(s, newest)));
            r.span >= SpanFloor(limit) && (r.done || QueryBound(r, newest, limit) < QueryBound(s, newest, limit))
  {
    var end := EndBlock(s, newest);
    var ok := provider(s.queries, s.start, end);
    assert !ok ==> end - s.start > limit;
    if ok && end != newest {
      GrowthCostsOne(s.span, limit);
      if end + 1 <= newest {
        DivideStep(newest - s.start, s.span + 1, SpanFloor(limit) + 1);
      }
    }
  }

  /** The span never falls below the floor. */
  lemma {:induction false} SpanStays(s: State, newest: int, provider: Provider, limit: nat, budget: nat)
    requires Accepts(provider, limit) && s.span >= SpanFloor(limit)
    ensures Run(s, newest, provider, budget).span >= SpanFloor(limit)
    decreases budget
  {
    if s.done || budget == 0 {
    } else {
      StepUsesBound(s, newest, provider, limit);
      SpanStays(Step(s, newest, provider(s.queries, s.start, EndBlock(s, newest))), newest, provider,
                limit, budget - 1);
    }
  }

  /** The loop ends within QueryBound queries, whatever the provider's limit. */
  lemma {:induction false} RunWithinBound(s: State, newest: int, provider: Provider, limit: nat, bound: nat,
                                          budget: nat)
    requires Accepts(provider, limit) && s.span >= SpanFloor(limit)
    requires QueryBound(s, newest, limit) <= bound <= budget
    ensures Run(s, newest, provider, budget).done
    decreases budget
  {
    QueryBoundPositive(s, newest, limit);
    if !s.done {
      StepUsesBound(s, newest, provider, limit);
      var r := Step(s, newest, provider(s.queries, s.start, EndBlock(s, newest)));
      if !r.done {
        RunWithinBound(r, newest, provider, limit, bound - 1, budget - 1);
      }
    }
  }

  lemma QueryBoundPositive(s: State, newest: int, limit: nat)
    requires s.span >= 0
    ensures QueryBound(s, newest, limit) > 0
  {
  }

  /** A span of at least 20 recovers: every success widens it by at least one block, so
      that enough successes in a row take it beyond any width. */
  lemma {:induction false} SpanRecovers(s: State, newest: int, provider: Provider, n: nat)
    requires s.span >= 20 && forall q: nat, a: int, b: int :: provider(q, a, b)
    ensures var r := Run(s, newest, provider, n); r.done || r.span >= s.span + n
    decreases n
  {
    if s.done || n == 0 {
    } else {
      var r := Step(s, newest, true);
      assert r.done || r.span >= s.span + 1;
      SpanRecovers(r, newest, provider, n - 1);
    }
  }

  /** A smaller one never widens again, since the growth rounds down to nothing. */
  lemma {:induction false} SpanStuck(s: State, newest: int, provider: Provider, n: nat)
    requires 0 <= s.span < 20
    ensures var r := Run(s, newest, provider, n); 0 <= r.span <= s.span
    decreases n
  {
    if s.done || n == 0 {
    } else {
      SpanStuck(Step(s, newest, provider(s.queries, s.start, EndBlock(s, newest))), newest, provider, n - 1);
    }
  }

  /** The explicit bound: 30 initial failures at worst, then two queries for each
      stretch of floor + 1 blocks. */
  lemma ScanTerminates(start: int, newest: int, provider: Provider, limit: nat, budget: nat)
    requires Accepts(provider, limit)
    requires budget >= 32 + 2 * (Ahead(start, newest) / (SpanFloor(limit) + 1))
    ensures Run(Initial(start), newest, provider, budget).done
    ensures Run(Initial(start), newest, provider, budget).span >= SpanFloor(limit)
  {
    ShrinksFromInitialSpan(limit);
    RunWithinBound(Initial(start), newest, provider, limit, QueryBound(Initial(start), newest, limit), budget);
    SpanStays(Initial(start), newest, provider, limit, budget);
  }

  /** Without the assumption the loop need not end: when every query fails, it never does. */
  lemma {:induction false} NeverEnds(s: State, newest: int, provider: Provider, budget: nat)
    requires !s.done && forall q: nat, a: int, b: int :: !provider(q, a, b)
    ensures !Run(s, newest, provider, budget).done
    decreases budget
  {
    if budget == 0 {
    } else {
      NeverEnds(Step(s, newest, false), newest, provider, budget - 1);
    }
  }

  /** Between two successes at most one query fails. */
  lemma AtMostOneFailure(s: State, newest: int, provider: Provider, limit: nat)
    requires Limited(provider, limit) && !s.done && s.span >= 0
    requires provider(s.queries, s.start, EndBlock(s, newest))
    ensures var s1 := Step(s, newest, true);
            var s2 := Step(s1, newest, false);
            s1.done || provider(s1.queries, s1.start, EndBlock(s1, newest)) ||
            provider(s2.queries, s2.start, EndBlock(s2, newest))
  {
    var s1 := Step(s, newest, true);
    if !s1.done {
      assert s.span <= limit;
      GrowthCostsOne(s.span, limit);
      var s2 := Step(s1, newest, false);
      assert s2.span <= limit;
    }
  }

  // ----- the logs that are accumulated

  function InWindow(kind: Kind, from: int, to: int): Log -> bool {
    (e: Log) => e.kind == kind && from <= e.block <= to
  }

  /** `get_logs` for one event kind and an inclusive block range. */
  function GetLogs(chain: seq<Log>, kind: Kind, from: int, to: int): seq<Log> {
    Filter(InWindow(kind, from, to), chain)
  }

  ghost predicate BlocksAscend(chain: seq<Log>) {
    forall i, j :: 0 <= i < j < |chain| ==> chain[i].block <= chain[j].block
  }

  lemma {:induction false} LogsJoin(chain: seq<Log>, kind: Kind, lo: int, mid: int, hi: int)
    requires BlocksAscend(chain) && lo <= mid <= hi + 1
    ensures GetLogs(chain, kind, lo, mid - 1) + GetLogs(chain, kind, mid, hi) == GetLogs(chain, kind, lo, hi)
  {
    if chain == [] {
    } else {
      LogsJoin(chain[1..], kind, lo, mid, hi);
      if chain[0].block >= mid {
        NoneBefore(chain, kind, lo, mid);
      }
    }
  }

  lemma NoneBefore(chain: seq<Log>, kind: Kind, lo: int, mid: int)
    requires BlocksAscend(chain) && chain != [] && chain[0].block >= mid
    ensures GetLogs(chain, kind, lo, mid - 1) == [] && GetLogs(chain[1..], kind, lo, mid - 1) == []
  {
    forall e | e in chain ensures e.block >= mid {
      var i :| 0 <= i < |chain| && chain[i] == e;
      if i > 0 { assert chain[0].block <= chain[i].block; }
    }
    FilterNone(InWindow(kind, lo, mid - 1), chain);
    FilterNone(InWindow(kind, lo, mid - 1), chain[1..]);
  }

  lemma InvertedRange(chain: seq<Log>, kind: Kind, from: int, to: int)
    requires from > to
    ensures GetLogs(chain, kind, from, to) == []
  {
    FilterNone(InWindow(kind, from, to), chain);
  }

  lemma LogsJoinOrEmpty(chain: seq<Log>, kind: Kind, lo: int, mid: int, hi: int)
    requires BlocksAscend(chain) && lo <= mid && (mid <= hi + 1 || mid == lo)
    ensures GetLogs(chain, kind, lo, mid - 1) + GetLogs(chain, kind, mid, hi) == GetLogs(chain, kind, lo, hi)
  {
    if mid <= hi + 1 {
      LogsJoin(chain, kind, lo, mid, hi);
    } else {
      InvertedRange(chain, kind, lo, lo - 1);
      InvertedRange(chain, kind, lo, hi);
    }
  }

  function ChangeOf(e: Log): Change {
    Change(e.block, e.tx, e.amount * (if e.kind == Burn then -1 else 1), e.lower, e.upper)
  }

  /** The accumulated entries of one pool: zero amounts are skipped. */
  function Entries(logs: seq<Log>, pool: string): seq<Change> {
    if logs == [] then []
    else if logs[0].pool == pool && logs[0].amount != 0 then [ChangeOf(logs[0])] + Entries(logs[1..], pool)
    else Entries(logs[1..], pool)
  }

  lemma {:induction false} EntriesAppend(a: seq<Log>, b: seq<Log>, pool: string)
    ensures Entries(a + b, pool) == Entries(a, pool) + Entries(b, pool)
  {
    if a == [] {
      assert a + b == b;
    } else {
      assert (a + b)[1..] == a[1..] + b;
      EntriesAppend(a[1..], b, pool);
    }
  }

  function EntriesOf(events: map<string, seq<Change>>, pool: string): seq<Change> {
    if pool in events then events[pool] else []
  }

  /** after is before with the entries of logs appended, pool by pool. */
  ghost predicate Appended(before: map<string, seq<Change>>, after: map<string, seq<Change>>, logs: seq<Log>) {
    forall pool ::
      && EntriesOf(after, pool) == EntriesOf(before, pool) + Entries(logs, pool)
      && (pool in after <==> pool in before || Entries(logs, pool) != [])
  }

  /** Appending one event's entry, unless its amount is zero, to its pool's entries. */
  lemma OneAppended(before: map<string, seq<Change>>, e: Log)
    ensures e.amount == 0 ==> Appended(before, before, [e])
    ensures e.amount != 0 ==> Appended(before, before[e.pool := EntriesOf(before, e.pool) + [ChangeOf(e)]], [e])
  {
    assert [e][1..] == [];
    assert forall pool :: Entries([e], pool) == if pool == e.pool && e.amount != 0 then [ChangeOf(e)] else [];
  }

  lemma AppendedJoin(e0: map<string, seq<Change>>, e1: map<string, seq<Change>>, e2: map<string, seq<Change>>,
                     a: seq<Log>, b: seq<Log>)
    requires Appended(e0, e1, a) && Appended(e1, e2, b)
    ensures Appended(e0, e2, a + b)
  {
    forall pool
      ensures EntriesOf(e2, pool) == EntriesOf(e0, pool) + Entries(a + b, pool)
      ensures pool in e2 <==> pool in e0 || Entries(a + b, pool) != []
    {
      EntriesAppend(a, b, pool);
      var x, y := Entries(a, pool), Entries(b, pool);
      assert EntriesOf(e1, pool) == EntriesOf(e0, pool) + x && (pool in e1 <==> pool in e0 || x != []);
      assert EntriesOf(e2, pool) == EntriesOf(e1, pool) + y && (pool in e2 <==> pool in e1 || y != []);
      Concat(EntriesOf(e0, pool), x, y);
    }
  }

  lemma Concat<T>(s: seq<T>, x: seq<T>, y: seq<T>)
    ensures s + x + y == s + (x + y)
    ensures x + y != [] <==> x != [] || y != []
  {
  }

  /** What has been accumulated since before is exactly the range s has covered. */
  ghost predicate Covered(before: map<string, seq<Change>>, events: map<string, seq<Change>>,
                          chain: seq<Log>, kind: Kind, start: int, newest: int, s: State) {
    Appended(before, events, GetLogs(chain, kind, start, Reached(s, newest) - 1))
  }

  /** `liquidity_events`, which grows while the windows of both kinds are scanned. */
  class EventStore {
    var liquidityEvents: map<string, seq<Change>>

    constructor ()
      ensures liquidityEvents == map[]
    {
      liquidityEvents := map[];
    }

    method AccumulateOne(e: Log)
      modifies this
      ensures Appended(old(liquidityEvents), liquidityEvents, [e])
      ensures liquidityEvents.Keys == old(liquidityEvents).Keys + (if e.amount == 0 then {} else {e.pool})
      ensures e.amount != 0 ==>
                var signed := if e.kind == Mint then e.amount else 0 - e.amount;
                EntriesOf(liquidityEvents, e.pool) ==
                  EntriesOf(old(liquidityEvents), e.pool) + [Change(e.block, e.tx, signed, e.lower, e.upper)]
    {
      OneAppended(liquidityEvents, e);
      ghost var entries := EntriesOf(liquidityEvents, e.pool);
      var liquidity := e.amount * (if e.kind == Burn then -1 else 1);
      if liquidity == 0 {
        return;
      }
      if e.pool !in liquidityEvents {
        liquidityEvents := liquidityEvents[e.pool := []];
      }
      liquidityEvents := liquidityEvents[
        e.pool := liquidityEvents[e.pool] + [Change(e.block, e.tx, liquidity, e.lower, e.upper)]];
      assert liquidityEvents == old(liquidityEvents)[e.pool := entries + [ChangeOf(e)]];
    }

    method Accumulate(logs: seq<Log>)
      modifies this
      ensures Appended(old(liquidityEvents), liquidityEvents, logs)
    {
      for i := 0 to |logs|
        invariant Appended(old(liquidityEvents), liquidityEvents, logs[..i])
      {
        ghost var before := liquidityEvents;
        AccumulateOne(logs[i]);
        AppendedJoin(old(liquidityEvents), before, liquidityEvents, logs[..i], [logs[i]]);
        assert logs[..i + 1] == logs[..i] + [logs[i]];
      }
      assert logs[..|logs|] == logs;
    }

    /** A successful query: its logs are accumulated. */
    method FetchWindow(chain: seq<Log>, kind: Kind, endBlock: int,
                       ghost s: State, startBlock: int, ghost newest: int, ghost start: int,
                       ghost before: map<string, seq<Change>>)
      requires BlocksAscend(chain) && start <= s.start && !s.done
      requires startBlock == s.start && endBlock == EndBlock(s, newest)
      requires s.start <= endBlock + 1 || s.start == start
      requires Covered(before, liquidityEvents, chain, kind, start, newest, s)
      modifies this
      ensures Covered(before, liquidityEvents, chain, kind, start, newest, Step(s, newest, true))
    {
      ghost var middle := liquidityEvents;
      var logs := GetLogs(chain, kind, startBlock, endBlock);
      Accumulate(logs);
      LogsJoinOrEmpty(chain, kind, start, startBlock, endBlock);
      AppendedJoin(before, middle, liquidityEvents, GetLogs(chain, kind, start, startBlock - 1), logs);
      assert Reached(Step(s, newest, true), newest) - 1 == endBlock;
    }

    /** One turn of the loop. */
    method Query(chain: seq<Log>, kind: Kind, newest: int, provider: Provider, s: State,
                 ghost start: int, ghost before: map<string, seq<Change>>)
      returns (r: State)
      requires BlocksAscend(chain) && !s.done && Inv(s, start, newest)
      requires Covered(before, liquidityEvents, chain, kind, start, newest, s)
      modifies this
      ensures r == Step(s, newest, provider(s.queries, s.start, EndBlock(s, newest)))
      ensures Covered(before, liquidityEvents, chain, kind, start, newest, r)
    {
      NextWindow(s, start, newest);
      var startBlock, blockSpan, done, windows := s.start, s.span, s.done, s.windows;
      var endBlock := if newest < startBlock + blockSpan then newest else startBlock + blockSpan;
      if !provider(s.queries, startBlock, endBlock) {
        blockSpan := 3 * blockSpan / 4;
      } else {
        FetchWindow(chain, kind, endBlock, s, startBlock, newest, start, before);
        windows := windows + [(startBlock, endBlock)];
        if endBlock == newest {
          done := true;
        } else {
          startBlock := endBlock + 1;
          blockSpan := 21 * blockSpan / 20;
        }
      }
      r := State(startBlock, blockSpan, done, windows, s.queries + 1);
    }

    /** The `while not done` loop for one event kind, cut off after budget queries.
        Whatever fails, what has been accumulated is exactly the range covered. */
    method FetchKind(chain: seq<Log>, kind: Kind, start: int, newest: int, provider: Provider, budget: nat)
      returns (s: State)
      requires BlocksAscend(chain)
      modifies this
      ensures s == Run(Initial(start), newest, provider, budget)
      ensures Inv(s, start, newest)
      ensures Covered(old(liquidityEvents), liquidityEvents, chain, kind, start, newest, s)
    {
      s := Initial(start);
      InvertedRange(chain, kind, start, start - 1);
      ghost var n := 0;
      while !s.done && s.queries < budget
        invariant s.queries == n <= budget || (s.done && n <= budget)
        invariant s == Run(Initial(start), newest, provider, n)
        invariant Inv(s, start, newest)
        invariant Covered(old(liquidityEvents), liquidityEvents, chain, kind, start, newest, s)
        decreases budget - n
      {
        RunSnoc(Initial(start), newest, provider, n);
        StepInv(s, start, newest, provider(s.queries, s.start, EndBlock(s, newest)));
        s := Query(chain, kind, newest, provider, s, start, old(liquidityEvents));
        n := n + 1;
      }
      if s.done {
        RunDone(Initial(start), newest, provider, n, budget);
      }
    }
  }

  lemma {:induction false} RunDone(s: State, newest: int, provider: Provider, a: nat, b: nat)
    requires a <= b && Run(s, newest, provider, a).done
    ensures Run(s, newest, provider, b) == Run(s, newest, provider, a)
    decreases a
  {
    if !s.done && a > 0 {
      RunDone(Step(s, newest, provider(s.queries, s.start, EndBlock(s, newest))), newest, provider, a - 1, b - 1);
    }
  }
}
