/** `ArbitrageService`: from a changed pool to the arbs that are reported. */
module Arbitrage {
  import opened Seqs
  import opened StableSort
  import opened Reduction

  /** ArbitrageCalculationResult, reduced to what the reduction reads. */
  datatype CalcResult = CalcResult(id: string, profit: int)

  /** What processing ends with: the strict `zip` raises, nothing is profitable, or
      each surviving arb is reported with its result. */
  datatype Outcome =
    | ZipLengthMismatch
    | NothingProfitable
    | Reported(reports: map<Arb, CalcResult>)

  function NonNegative(): CalcResult -> bool {
    (r: CalcResult) => r.profit >= 0
  }

  function ProfitKey(): CalcResult -> Key {
    (r: CalcResult) => (-r.profit, 0)
  }

  function ProfitableResults(results: seq<CalcResult>): seq<CalcResult> {
    Sort(ProfitKey(), Filter(NonNegative(), results))
  }

  /** The helpers found for the results; a result without a helper is skipped. */
  function ArbsOf(results: seq<CalcResult>, allArbs: map<string, Arb>): (arbs: seq<Arb>)
    ensures |arbs| <= |results|
  {
    if results == [] then []
    else (if results[0].id in allArbs then [allArbs[results[0].id]] else []) + ArbsOf(results[1..], allArbs)
  }

  lemma {:induction false} ArbsOfComplete(results: seq<CalcResult>, allArbs: map<string, Arb>)
    ensures |ArbsOf(results, allArbs)| == |results| <==> forall r :: r in results ==> r.id in allArbs
    ensures |ArbsOf(results, allArbs)| == |results| ==>
              forall k :: 0 <= k < |results| ==>
                results[k].id in allArbs && ArbsOf(results, allArbs)[k] == allArbs[results[k].id]
  {
    if results == [] {
    } else {
      ArbsOfComplete(results[1..], allArbs);
      assert results == [results[0]] + results[1..];
    }
  }

  // ----- affected arbs

  /** The asymmetric test of `find_affected_arbs`: either pool of a 2-pool arb, only
      the middle pool of a 3-pool arb. */
  function AffectedBy(pool: string): Arb -> bool {
    (a: Arb) => (|a.pools| == 2 && (a.pools[0] == pool || a.pools[1] == pool)) || (|a.pools| == 3 && a.pools[1] == pool)
  }

  method FindAffectedArbs(arbs: seq<Arb>, pool: string) returns (affected: seq<Arb>)
    ensures affected == Filter(AffectedBy(pool), arbs)
  {
    affected := [];
    for i := 0 to |arbs|
      invariant affected == Filter(AffectedBy(pool), arbs[..i])
    {
      var arb := arbs[i];
      FilterPrefix(AffectedBy(pool), arbs, i);
      if |arb.pools| == 2 {
        if arb.pools[0] == pool || arb.pools[1] == pool {
          affected := affected + [arb];
        }
      } else if |arb.pools| == 3 {
        if arb.pools[1] == pool {
          affected := affected + [arb];
        }
      }
    }
    assert arbs[..|arbs|] == arbs;
  }

  // ----- processing calculation results

  /** r is the last of the first n results whose helper has this id. */
  ghost predicate LastResultFor(results: seq<CalcResult>, arbs: seq<Arb>, n: nat, id: string, r: CalcResult) {
    exists k :: 0 <= k < n <= |arbs| && n <= |results| && arbs[k].id == id && results[k] == r &&
                (forall l :: k < l < n ==> arbs[l].id != id)
  }

  method IndexResults(results: seq<CalcResult>, arbs: seq<Arb>) returns (byId: map<string, CalcResult>)
    requires |results| == |arbs|
    ensures forall a :: a in arbs ==> a.id in byId
    ensures forall id :: id in byId ==> LastResultFor(results, arbs, |arbs|, id, byId[id])
  {
    byId := map[];
    for n := 0 to |arbs|
      invariant forall i :: 0 <= i < n ==> arbs[i].id in byId
      invariant forall id :: id in byId ==> LastResultFor(results, arbs, n, id, byId[id])
    {
      ghost var before := byId;
      byId := byId[arbs[n].id := results[n]];
      forall id | id in byId ensures LastResultFor(results, arbs, n + 1, id, byId[id]) {
        if id != arbs[n].id {
          assert LastResultFor(results, arbs, n, id, before[id]);
        }
      }
    }
  }

  method CollectReports(withoutOverlap: set<Arb>, byId: map<string, CalcResult>) returns (reports: map<Arb, CalcResult>)
    requires forall a :: a in withoutOverlap ==> a.id in byId
    ensures reports == map a | a in withoutOverlap :: byId[a.id]
  {
    reports := map[];
    var left := withoutOverlap;
    while left != {}
      invariant left <= withoutOverlap
      invariant reports == map a | a in withoutOverlap - left :: byId[a.id]
    {
      var arb :| arb in left;
      reports := reports[arb := byId[arb.id]];
      left := left - {arb};
    }
  }

  method ProcessOnchainArbs(calculationResults: seq<CalcResult>, allArbs: map<string, Arb>) returns (out: Outcome)
    ensures out.ZipLengthMismatch? <==> exists r :: r in calculationResults && r.profit >= 0 && r.id !in allArbs
    ensures out.NothingProfitable? <==> forall r :: r in calculationResults ==> r.profit < 0
    ensures var results := ProfitableResults(calculationResults);
            var arbs := ArbsOf(results, allArbs);
            out.Reported? ==>
              && out.reports.Keys == Elements(Greedy(arbs))
              && forall a :: a in out.reports ==> LastResultFor(results, arbs, |arbs|, a.id, out.reports[a])
  {
    var results := ProfitableResults(calculationResults);
    ProfitableMembers(calculationResults);
    var arbs := ArbsOf(results, allArbs);
    ArbsOfComplete(results, allArbs);
    if |arbs| != |results| {
      return ZipLengthMismatch;
    }
    var resultsByArbId := IndexResults(results, arbs);
    if arbs == [] {
      return NothingProfitable;
    }
    assert results[0] in results;
    var withoutOverlap := RemoveOverlap(arbs);
    GreedyDisjoint(arbs);
    var reports := CollectReports(withoutOverlap, resultsByArbId);
    return Reported(reports);
  }

  lemma ProfitableMembers(results: seq<CalcResult>)
    ensures forall r :: r in ProfitableResults(results) <==> r in results && r.profit >= 0
  {
    SortPerm(ProfitKey(), Filter(NonNegative(), results));
  }

  // ----- what a run of the loaded bot can rely on

  /** `all_arbs` files every helper under its own id. */
  ghost predicate KeyedByOwnId(allArbs: map<string, Arb>) {
    forall id :: id in allArbs ==> allArbs[id].id == id
  }

  /** Results as the service collects them: at most one per helper of `all_arbs`. */
  ghost predicate ResultsOf(results: seq<CalcResult>, allArbs: map<string, Arb>) {
    && KeyedByOwnId(allArbs)
    && (forall r :: r in results ==> r.id in allArbs)
    && (forall i, j :: 0 <= i < j < |results| ==> results[i].id != results[j].id)
  }

  function ProfitOf(results: seq<CalcResult>, id: string): int {
    if results == [] then -1 else if results[0].id == id then results[0].profit else ProfitOf(results[1..], id)
  }

  /** The worth of an arb is the profit calculated for it. */
  function Worth(results: seq<CalcResult>): Arb -> int {
    (a: Arb) => ProfitOf(results, a.id)
  }

  lemma {:induction false} ProfitOfOwn(results: seq<CalcResult>, i: nat)
    requires i < |results| && forall i, j :: 0 <= i < j < |results| ==> results[i].id != results[j].id
    ensures ProfitOf(results, results[i].id) == results[i].profit
  {
    if i > 0 {
      ProfitOfOwn(results[1..], i - 1);
    }
  }

  lemma {:induction false} ArbsOfFilter(results: seq<CalcResult>, allArbs: map<string, Arb>, worth: Arb -> int)
    requires forall r :: r in results ==> r.id in allArbs && worth(allArbs[r.id]) == r.profit
    ensures ArbsOf(Filter(NonNegative(), results), allArbs) == Filter(Profitable(worth), ArbsOf(results, allArbs))
  {
    if results == [] {
    } else {
      ArbsOfFilter(results[1..], allArbs, worth);
      var f := Filter(NonNegative(), results[1..]);
      assert ([results[0]] + f)[1..] == f;
      FilterCons(Profitable(worth), allArbs[results[0].id], ArbsOf(results[1..], allArbs));
    }
  }

  lemma {:induction false} ArbsOfInsert(x: CalcResult, results: seq<CalcResult>, allArbs: map<string, Arb>,
                                        worth: Arb -> int)
    requires forall r :: r in [x] + results ==> r.id in allArbs && worth(allArbs[r.id]) == r.profit
    ensures ArbsOf(Insert(ProfitKey(), x, results), allArbs) ==
            Insert(WorthKey(worth), allArbs[x.id], ArbsOf(results, allArbs))
  {
    assert x in [x] + results;
    if results == [] {
    } else {
      assert results[0] in [x] + results;
      var tail := ArbsOf(results[1..], allArbs);
      assert ArbsOf(results, allArbs) == [allArbs[results[0].id]] + tail;
      if Le(ProfitKey()(x), ProfitKey()(results[0])) {
        assert ([x] + results)[1..] == results;
      } else {
        forall r | r in [x] + results[1..] ensures r in [x] + results {}
        ArbsOfInsert(x, results[1..], allArbs, worth);
        var ins := Insert(ProfitKey(), x, results[1..]);
        assert ([results[0]] + ins)[1..] == ins;
        assert ([allArbs[results[0].id]] + tail)[1..] == tail;
      }
    }
  }

  lemma {:induction false} ArbsOfSort(results: seq<CalcResult>, allArbs: map<string, Arb>, worth: Arb -> int)
    requires forall r :: r in results ==> r.id in allArbs && worth(allArbs[r.id]) == r.profit
    ensures ArbsOf(Sort(ProfitKey(), results), allArbs) == Sort(WorthKey(worth), ArbsOf(results, allArbs))
  {
    if results == [] {
    } else {
      ArbsOfSort(results[1..], allArbs, worth);
      SortPerm(ProfitKey(), results[1..]);
      var sorted := Sort(ProfitKey(), results[1..]);
      forall r | r in [results[0]] + sorted ensures r in results {}
      ArbsOfInsert(results[0], sorted, allArbs, worth);
      var tail := ArbsOf(results[1..], allArbs);
      assert ArbsOf(results, allArbs) == [allArbs[results[0].id]] + tail;
      assert ([allArbs[results[0].id]] + tail)[1..] == tail;
    }
  }

  /** For results of loaded helpers the zipped lists are the helpers in completion
      order, ranked by their calculated worth; so every theorem about Selection
      applies to what is reported. */
  lemma ProcessingIsSelection(results: seq<CalcResult>, allArbs: map<string, Arb>)
    requires ResultsOf(results, allArbs)
    ensures var completed := ArbsOf(results, allArbs);
            && ArbsOf(ProfitableResults(results), allArbs) == Ranked(Worth(results), completed)
            && Distinct(completed)
            && |completed| == |results|
            && forall i :: 0 <= i < |results| ==>
                  completed[i] == allArbs[results[i].id] && Worth(results)(completed[i]) == results[i].profit
  {
    var worth := Worth(results);
    ArbsOfComplete(results, allArbs);
    forall i | 0 <= i < |results| ensures worth(allArbs[results[i].id]) == results[i].profit {
      ProfitOfOwn(results, i);
    }
    ArbsOfFilter(results, allArbs, worth);
    ArbsOfSort(Filter(NonNegative(), results), allArbs, worth);
  }

  /** Under the load invariant the strict zip never raises and each reported result
      is the reported arb's own. */
  lemma ReportsAreOwn(results: seq<CalcResult>, allArbs: map<string, Arb>, a: Arb, r: CalcResult)
    requires ResultsOf(results, allArbs)
    requires var ranked := ProfitableResults(results);
             var arbs := ArbsOf(ranked, allArbs);
             LastResultFor(ranked, arbs, |arbs|, a.id, r)
    ensures r in results && r.id == a.id && r.profit == Worth(results)(a) >= 0
  {
    var ranked := ProfitableResults(results);
    var arbs := ArbsOf(ranked, allArbs);
    SortPerm(ProfitKey(), Filter(NonNegative(), results));
    ArbsOfComplete(ranked, allArbs);
    var k :| 0 <= k < |arbs| && k < |ranked| && arbs[k].id == a.id && ranked[k] == r;
    assert ranked[k] in ranked;
    var i :| 0 <= i < |results| && results[i] == r;
    ProfitOfOwn(results, i);
  }

  /** One changed pool yields at most one reported arb, and one of maximal profit
      exactly when some affected arb has a nonnegative profit. */
  lemma OneTriggerOneReport(results: seq<CalcResult>, allArbs: map<string, Arb>, pool: string)
    requires ResultsOf(results, allArbs)
    requires forall r :: r in results ==> AffectedBy(pool)(allArbs[r.id])
    ensures var selected := Greedy(ArbsOf(ProfitableResults(results), allArbs));
            && (selected == [] <==> forall r :: r in results ==> r.profit < 0)
            && (selected != [] ==> |selected| == 1)
            && (selected != [] ==> forall r :: r in results ==> r.profit <= Worth(results)(selected[0]))
  {
    var ranked := ProfitableResults(results);
    ProfitableMembers(results);
    ArbsOfComplete(ranked, allArbs);
    var arbs := ArbsOf(ranked, allArbs);
    if ranked != [] {
      forall a | a in arbs ensures pool in a.pools {
        var k :| 0 <= k < |arbs| && arbs[k] == a;
        assert ranked[k] in ranked;
      }
      OneTriggerOneWinner(pool, arbs);
      BestFirst(results);
      assert ranked[0] in ranked && arbs[0] == allArbs[ranked[0].id];
      var i :| 0 <= i < |results| && results[i] == ranked[0];
      ProfitOfOwn(results, i);
    }
  }

  lemma BestFirst(results: seq<CalcResult>)
    requires ProfitableResults(results) != []
    ensures forall r :: r in results ==> r.profit <= ProfitableResults(results)[0].profit
  {
    var ranked := ProfitableResults(results);
    ProfitableMembers(results);
    SortIsStable(ProfitKey(), Filter(NonNegative(), results));
    assert ranked[0] in ranked;
    forall r | r in results && r.profit >= 0 ensures r.profit <= ranked[0].profit {
      var j :| 0 <= j < |ranked| && ranked[j] == r;
      if j > 0 { assert Le(ProfitKey()(ranked[0]), ProfitKey()(ranked[j])); }
    }
  }
}
