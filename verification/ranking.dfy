/** Ordering of scan results by ATR percentage, highest first, as Python's
    stable `sort(key=..., reverse=True)` produces it. */
module Ranking {
  import opened Scanner

  predicate SortedDesc(results: seq<ScanResult>) {
    forall i, j :: 0 <= i < j < |results| ==> results[i].atrPercentage >= results[j].atrPercentage
  }

  /** Places `x` before the first element whose percentage does not exceed its
      own, so `x` precedes every element with an equal key. */
  function Insert(x: ScanResult, sorted: seq<ScanResult>): (r: seq<ScanResult>)
    ensures |r| == |sorted| + 1
    ensures multiset(r) == multiset(sorted) + multiset{x}
  {
    if |sorted| == 0 || x.atrPercentage >= sorted[0].atrPercentage then [x] + sorted
    else
      assert sorted == [sorted[0]] + sorted[1..];
      [sorted[0]] + Insert(x, sorted[1..])
  }

  lemma {:induction false} InsertSorted(x: ScanResult, sorted: seq<ScanResult>)
    requires SortedDesc(sorted)
    ensures SortedDesc(Insert(x, sorted))
  {
    if |sorted| > 0 && x.atrPercentage < sorted[0].atrPercentage {
      var rest := Insert(x, sorted[1..]);
      InsertSorted(x, sorted[1..]);
      forall k | 0 <= k < |rest|
        ensures sorted[0].atrPercentage >= rest[k].atrPercentage
      {
        assert rest[k] in multiset(sorted[1..]) + multiset{x};
        if rest[k] != x {
          assert rest[k] in sorted[1..];
        }
      }
    }
  }

  /** Insertion sort, descending by percentage. */
  function SortDesc(results: seq<ScanResult>): (r: seq<ScanResult>)
    ensures |r| == |results|
    ensures SortedDesc(r)
    ensures multiset(r) == multiset(results)
  {
    if |results| == 0 then []
    else
      var rest := SortDesc(results[1..]);
      InsertSorted(results[0], rest);
      assert results == [results[0]] + results[1..];
      Insert(results[0], rest)
  }

  /** The elements whose percentage is exactly `key`, in order. */
  function WithKey(results: seq<ScanResult>, key: real): seq<ScanResult> {
    if |results| == 0 then []
    else (if results[0].atrPercentage == key then [results[0]] else []) + WithKey(results[1..], key)
  }

  lemma {:induction false} InsertWithKey(x: ScanResult, sorted: seq<ScanResult>, key: real)
    ensures WithKey(Insert(x, sorted), key)
         == (if x.atrPercentage == key then [x] else []) + WithKey(sorted, key)
  {
    if |sorted| == 0 || x.atrPercentage >= sorted[0].atrPercentage {
      assert ([x] + sorted)[1..] == sorted;
    } else {
      var rest := Insert(x, sorted[1..]);
      InsertWithKey(x, sorted[1..], key);
      assert ([sorted[0]] + rest)[1..] == rest;
    }
  }

  /** The sort is stable: results with equal percentages keep their relative order. */
  lemma {:induction false} SortDescStable(results: seq<ScanResult>, key: real)
    ensures WithKey(SortDesc(results), key) == WithKey(results, key)
  {
    if |results| > 0 {
      SortDescStable(results[1..], key);
      InsertWithKey(results[0], SortDesc(results[1..]), key);
    }
  }

  /** Sorting a list that is already in descending order changes nothing. */
  lemma {:induction false} SortDescOfSorted(results: seq<ScanResult>)
    requires SortedDesc(results)
    ensures SortDesc(results) == results
  {
    if |results| > 0 {
      SortDescOfSorted(results[1..]);
      assert results == [results[0]] + results[1..];
    }
  }

  /** Sorting twice is sorting once. */
  lemma SortDescIdempotent(results: seq<ScanResult>)
    ensures SortDesc(SortDesc(results)) == SortDesc(results)
  {
    SortDescOfSorted(SortDesc(results));
  }
}
