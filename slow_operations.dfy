/**
 * The slow-operations analysis (DisplaySlowOperationsAnalysis): the ten
 * longest metrics by a stable descending sort on duration, the maximum
 * duration, the number of operations over one second, and the row colours.
 */
module SlowOperations {
  import opened Metrics

  const SHOWN: nat := 10
  const SLOW_MS: real := 1000.0
  const WARN_MS: real := 500.0

  /** Durations never increase along `s`. */
  ghost predicate NonIncreasing(s: seq<OperationMetric>)
  {
    forall i, j | 0 <= i < j < |s| :: s[j].durationMs <= s[i].durationMs
  }

  /** The metrics of `s` whose duration is exactly `d`, in their order in `s`. */
  function WithDuration(s: seq<OperationMetric>, d: real): seq<OperationMetric>
  {
    if s == [] then []
    else (if s[0].durationMs == d then [s[0]] else []) + WithDuration(s[1..], d)
  }

  /** Inserts `m` before the first element that is not longer than it. */
  function InsertByDuration(m: OperationMetric, s: seq<OperationMetric>): seq<OperationMetric>
  {
    if s == [] then [m]
    else if s[0].durationMs > m.durationMs then [s[0]] + InsertByDuration(m, s[1..])
    else [m] + s
  }

  /** OrderByDescending(m => m.DurationMs): longest first, equal durations in list order. */
  function OrderByDurationDescending(s: seq<OperationMetric>): seq<OperationMetric>
  {
    if s == [] then [] else InsertByDuration(s[0], OrderByDurationDescending(s[1..]))
  }

  /** The rows of the table: OrderByDescending(...).Take(10). */
  function SlowestOperations(ms: seq<OperationMetric>): seq<OperationMetric>
  {
    var sorted := OrderByDurationDescending(ms);
    if |sorted| <= SHOWN then sorted else sorted[..SHOWN]
  }

  /** Max(m => m.DurationMs) over a non-empty list. */
  function MaxDuration(ms: seq<OperationMetric>): (r: real)
    requires ms != []
    ensures forall i | 0 <= i < |ms| :: ms[i].durationMs <= r
    ensures exists i | 0 <= i < |ms| :: ms[i].durationMs == r
  {
    if |ms| == 1 then ms[0].durationMs
    else
      var rest := MaxDuration(ms[1..]);
      assert forall i | 1 <= i < |ms| :: ms[i] == ms[1..][i - 1];
      if ms[0].durationMs >= rest then ms[0].durationMs else rest
  }

  /** Where(m => m.DurationMs > 1000). */
  function SlowOnes(ms: seq<OperationMetric>): seq<OperationMetric>
  {
    if ms == [] then []
    else (if ms[0].durationMs > SLOW_MS then [ms[0]] else []) + SlowOnes(ms[1..])
  }

  /** Count(m => m.DurationMs > 1000). */
  function SlowCount(ms: seq<OperationMetric>): nat
  {
    if ms == [] then 0
    else (if ms[0].durationMs > SLOW_MS then 1 else 0) + SlowCount(ms[1..])
  }

  /** The colour of a row of the table. */
  function DurationColor(durationMs: real): ConsoleColor
  {
    if durationMs > SLOW_MS then Red else if durationMs > WARN_MS then Yellow else Green
  }

  /** What the analysis reports: nothing for an empty list, else the rows and the statistics. */
  datatype SlowOperationsReport =
    | NoMetrics
    | Report(rows: seq<OperationMetric>, maxDurationMs: real, slowCount: nat)

  function Analyse(ms: seq<OperationMetric>): SlowOperationsReport
  {
    var rows := SlowestOperations(ms);
    if rows == [] then NoMetrics else Report(rows, MaxDuration(ms), SlowCount(ms))
  }

  // ---- the sort ----

  lemma {:induction false} InsertMultiset(m: OperationMetric, s: seq<OperationMetric>)
    ensures multiset(InsertByDuration(m, s)) == multiset(s) + multiset{m}
  {
    if s != [] && s[0].durationMs > m.durationMs {
      InsertMultiset(m, s[1..]);
      assert s == [s[0]] + s[1..];
    }
  }

  lemma {:induction false} InsertNonIncreasing(m: OperationMetric, s: seq<OperationMetric>)
    requires NonIncreasing(s)
    ensures NonIncreasing(InsertByDuration(m, s))
  {
    if s != [] && s[0].durationMs > m.durationMs {
      var t := s[1..];
      assert NonIncreasing(t) by {
        forall i, j | 0 <= i < j < |t| ensures t[j].durationMs <= t[i].durationMs {
          assert t[i] == s[i + 1] && t[j] == s[j + 1];
        }
      }
      InsertNonIncreasing(m, t);
      var r := InsertByDuration(m, t);
      InsertMultiset(m, t);
      forall k | 0 <= k < |r| ensures r[k].durationMs <= s[0].durationMs {
        assert r[k] in multiset(r);
        assert r[k] == m || r[k] in multiset(t);
        if r[k] != m {
          var q :| 0 <= q < |t| && t[q] == r[k];
          assert t[q] == s[q + 1];
        }
      }
      assert InsertByDuration(m, s) == [s[0]] + r;
    }
  }

  lemma {:induction false} InsertWithDuration(m: OperationMetric, s: seq<OperationMetric>, d: real)
    ensures WithDuration(InsertByDuration(m, s), d)
      == (if m.durationMs == d then [m] else []) + WithDuration(s, d)
  {
    if s == [] {
    } else if s[0].durationMs > m.durationMs {
      var t := s[1..];
      var inserted := InsertByDuration(m, t);
      InsertWithDuration(m, t, d);
      assert InsertByDuration(m, s) == [s[0]] + inserted;
      assert ([s[0]] + inserted)[1..] == inserted;
      if s[0].durationMs == d {
        // m is shorter than s[0], so it is not of duration d
        assert WithDuration([s[0]] + inserted, d) == [s[0]] + WithDuration(inserted, d);
        assert WithDuration(s, d) == [s[0]] + WithDuration(t, d);
      } else {
        assert WithDuration([s[0]] + inserted, d) == WithDuration(inserted, d);
        assert WithDuration(s, d) == WithDuration(t, d);
      }
    } else {
      assert ([m] + s)[1..] == s;
    }
  }

  /**
   * OrderByDescending is a stable sort: its result is a permutation of the
   * input, non-increasing in duration, and keeps equal durations in list order.
   */
  lemma {:induction false} OrderByDurationDescendingCorrect(s: seq<OperationMetric>)
    ensures multiset(OrderByDurationDescending(s)) == multiset(s)
    ensures NonIncreasing(OrderByDurationDescending(s))
    ensures forall d :: WithDuration(OrderByDurationDescending(s), d) == WithDuration(s, d)
  {
    if s != [] {
      var rest := OrderByDurationDescending(s[1..]);
      OrderByDurationDescendingCorrect(s[1..]);
      InsertMultiset(s[0], rest);
      InsertNonIncreasing(s[0], rest);
      assert s == [s[0]] + s[1..];
      forall d ensures WithDuration(OrderByDurationDescending(s), d) == WithDuration(s, d) {
        InsertWithDuration(s[0], rest, d);
      }
    }
  }

  lemma {:induction false} OrderByDurationDescendingLength(s: seq<OperationMetric>)
    ensures |OrderByDurationDescending(s)| == |s|
  {
    OrderByDurationDescendingCorrect(s);
    assert |multiset(OrderByDurationDescending(s))| == |multiset(s)|;
  }

  // ---- the selection ----

  /** The metrics the table leaves out: the rest of the descending order. */
  function LeftOut(ms: seq<OperationMetric>): seq<OperationMetric>
  {
    var sorted := OrderByDurationDescending(ms);
    if |sorted| <= SHOWN then [] else sorted[SHOWN..]
  }

  lemma {:induction false} SplitNonIncreasing(s: seq<OperationMetric>, k: nat)
    requires NonIncreasing(s) && k <= |s|
    ensures NonIncreasing(s[..k])
    ensures forall i, j | 0 <= i < k && 0 <= j < |s| - k :: s[k..][j].durationMs <= s[..k][i].durationMs
  {
    assert forall i | 0 <= i < k :: s[..k][i] == s[i];
    assert forall j | 0 <= j < |s| - k :: s[k..][j] == s[k + j];
  }

  /**
   * The table rows: min(10, |ms|) metrics, longest first. Together with the
   * metrics left out they are exactly the metrics recorded, and no metric
   * left out is longer than any row kept.
   */
  lemma SlowestOperationsCorrect(ms: seq<OperationMetric>)
    ensures var rows := SlowestOperations(ms); var dropped := LeftOut(ms);
      && |rows| == (if |ms| < SHOWN then |ms| else SHOWN)
      && NonIncreasing(rows)
      && multiset(rows) <= multiset(ms)
      && multiset(rows) + multiset(dropped) == multiset(ms)
      && (forall i, j | 0 <= i < |rows| && 0 <= j < |dropped| :: dropped[j].durationMs <= rows[i].durationMs)
  {
    var sorted := OrderByDurationDescending(ms);
    OrderByDurationDescendingCorrect(ms);
    OrderByDurationDescendingLength(ms);
    var k := if |sorted| <= SHOWN then |sorted| else SHOWN;
    SplitNonIncreasing(sorted, k);
    assert sorted == sorted[..k] + sorted[k..];
    assert SlowestOperations(ms) == sorted[..k] && LeftOut(ms) == sorted[k..];
  }

  /** A kept row is never shorter than a metric that is not kept. */
  lemma SlowestOperationsOmitNothingLonger(ms: seq<OperationMetric>, x: OperationMetric)
    requires x in ms && x !in SlowestOperations(ms)
    ensures forall i | 0 <= i < |SlowestOperations(ms)| :: x.durationMs <= SlowestOperations(ms)[i].durationMs
  {
    var sorted := OrderByDurationDescending(ms);
    OrderByDurationDescendingCorrect(ms);
    var rows := SlowestOperations(ms);
    assert x in multiset(sorted);
    var q :| 0 <= q < |sorted| && sorted[q] == x;
    assert forall p | 0 <= p < |rows| :: rows[p] == sorted[p];
    assert q >= |rows|;
    forall i | 0 <= i < |rows| ensures x.durationMs <= rows[i].durationMs {
      assert rows[i] == sorted[i];
    }
  }

  /** The rows are a prefix of the stable order, so equal durations appear among them in list order. */
  lemma SlowestOperationsStable(ms: seq<OperationMetric>, d: real)
    ensures var rows := SlowestOperations(ms);
      exists suffix: seq<OperationMetric> :: WithDuration(rows, d) + suffix == WithDuration(ms, d)
  {
    var sorted := OrderByDurationDescending(ms);
    OrderByDurationDescendingCorrect(ms);
    var rows := SlowestOperations(ms);
    var k := |rows|;
    assert sorted == rows + sorted[k..];
    WithDurationConcat(rows, sorted[k..], d);
  }

  lemma {:induction false} WithDurationConcat(a: seq<OperationMetric>, b: seq<OperationMetric>, d: real)
    ensures WithDuration(a + b, d) == WithDuration(a, d) + WithDuration(b, d)
  {
    if a != [] {
      assert (a + b)[0] == a[0] && (a + b)[1..] == a[1..] + b;
      assert WithDuration(a + b, d) == (if a[0].durationMs == d then [a[0]] else []) + WithDuration(a[1..] + b, d);
      WithDurationConcat(a[1..], b, d);
    } else {
      assert a + b == b;
    }
  }

  // ---- the statistics ----

  /** The early return: the report is empty exactly when no metric was recorded. */
  lemma AnalyseEmptyIff(ms: seq<OperationMetric>)
    ensures Analyse(ms).NoMetrics? <==> ms == []
    ensures Analyse(ms).Report? ==> Analyse(ms).rows == SlowestOperations(ms)
  {
    OrderByDurationDescendingLength(ms);
  }

  /** The slow count is the number of metrics strictly over one second. */
  lemma {:induction false} SlowCountIsSlowOnes(ms: seq<OperationMetric>)
    ensures SlowCount(ms) == |SlowOnes(ms)|
    ensures forall x :: x in SlowOnes(ms) <==> x in ms && x.durationMs > SLOW_MS
    ensures forall x :: multiset(SlowOnes(ms))[x] == (if x.durationMs > SLOW_MS then multiset(ms)[x] else 0)
  {
    if ms != [] {
      SlowCountIsSlowOnes(ms[1..]);
      assert ms == [ms[0]] + ms[1..];
    }
  }

  /** The worst slow operation is the worst operation overall, whenever there is a slow one. */
  lemma SlowOnesMax(ms: seq<OperationMetric>)
    requires SlowCount(ms) > 0
    ensures ms != [] && SlowOnes(ms) != []
    ensures MaxDuration(SlowOnes(ms)) == MaxDuration(ms) && MaxDuration(ms) > SLOW_MS
  {
    SlowCountIsSlowOnes(ms);
    var slow := SlowOnes(ms);
    var top := MaxDuration(ms);
    var a :| 0 <= a < |slow| && slow[a].durationMs == MaxDuration(slow);
    assert slow[a] in ms;
    var b :| 0 <= b < |ms| && ms[b].durationMs == top;
    assert slow[0] in ms && slow[0].durationMs > SLOW_MS;
    assert ms[b] in slow;
  }

  /** The colour bands: red above 1000 ms, yellow above 500 ms up to 1000, green otherwise. */
  lemma DurationColorBands(durationMs: real)
    ensures DurationColor(durationMs) == Red <==> durationMs > 1000.0
    ensures DurationColor(durationMs) == Yellow <==> 500.0 < durationMs <= 1000.0
    ensures DurationColor(durationMs) == Green <==> durationMs <= 500.0
  {
  }

  function Severity(c: ConsoleColor): nat
  {
    match c
    case Green => 0
    case Yellow => 1
    case Red => 2
  }

  /** A longer operation is never shown in a milder colour. */
  lemma DurationColorMonotone(a: real, b: real)
    requires a <= b
    ensures Severity(DurationColor(a)) <= Severity(DurationColor(b))
  {
  }

  // ---- a worked example ----

  lemma SortCons(x: OperationMetric, s: seq<OperationMetric>)
    ensures OrderByDurationDescending([x] + s) == InsertByDuration(x, OrderByDurationDescending(s))
  {
    assert ([x] + s)[1..] == s;
  }

  lemma InsertPast(x: OperationMetric, y: OperationMetric, s: seq<OperationMetric>)
    requires y.durationMs > x.durationMs
    ensures InsertByDuration(x, [y] + s) == [y] + InsertByDuration(x, s)
  {
    assert ([y] + s)[1..] == s;
  }

  lemma InsertStops(x: OperationMetric, s: seq<OperationMetric>)
    requires s == [] || s[0].durationMs <= x.durationMs
    ensures InsertByDuration(x, s) == [x] + s
  {
  }

  /** Operations of one and the same duration stay in list order. */
  lemma {:induction false} EqualDurationsKeepOrder(s: seq<OperationMetric>, d: real)
    requires forall i | 0 <= i < |s| :: s[i].durationMs == d
    ensures OrderByDurationDescending(s) == s
  {
    if s != [] {
      var t := s[1..];
      EqualDurationsKeepOrder(t, d);
      assert s == [s[0]] + t;
      InsertStops(s[0], t);
    }
  }

  /** Durations 50, 1200, 30, 900, 5, 1500, then six times 1 ms. */
  ghost predicate ExampleDurations(ms: seq<OperationMetric>)
  {
    && |ms| == 12
    && ms[0].durationMs == 50.0 && ms[1].durationMs == 1200.0 && ms[2].durationMs == 30.0
    && ms[3].durationMs == 900.0 && ms[4].durationMs == 5.0 && ms[5].durationMs == 1500.0
    && forall i | 6 <= i < 12 :: ms[i].durationMs == 1.0
  }

  lemma ExampleFrom5(ms: seq<OperationMetric>)
    requires ExampleDurations(ms)
    ensures OrderByDurationDescending(ms[5..]) == [ms[5]] + ms[6..]
  {
    var t := ms[6..];
    assert forall i | 0 <= i < |t| :: t[i] == ms[6 + i];
    EqualDurationsKeepOrder(t, 1.0);
    assert ms[5..] == [ms[5]] + t;
    SortCons(ms[5], t);
    InsertStops(ms[5], t);
  }

  lemma ExampleFrom4(ms: seq<OperationMetric>)
    requires ExampleDurations(ms)
    ensures OrderByDurationDescending(ms[4..]) == [ms[5]] + ([ms[4]] + ms[6..])
  {
    ExampleFrom5(ms);
    assert ms[4..] == [ms[4]] + ms[5..];
    SortCons(ms[4], ms[5..]);
    InsertPast(ms[4], ms[5], ms[6..]);
    assert ms[6..][0] == ms[6];
    InsertStops(ms[4], ms[6..]);
  }

  lemma ExampleFrom3(ms: seq<OperationMetric>)
    requires ExampleDurations(ms)
    ensures OrderByDurationDescending(ms[3..]) == [ms[5]] + ([ms[3]] + ([ms[4]] + ms[6..]))
  {
    ExampleFrom4(ms);
    assert ms[3..] == [ms[3]] + ms[4..];
    SortCons(ms[3], ms[4..]);
    InsertPast(ms[3], ms[5], [ms[4]] + ms[6..]);
    InsertStops(ms[3], [ms[4]] + ms[6..]);
  }

  lemma ExampleFrom2(ms: seq<OperationMetric>)
    requires ExampleDurations(ms)
    ensures OrderByDurationDescending(ms[2..]) == [ms[5]] + ([ms[3]] + ([ms[2]] + ([ms[4]] + ms[6..])))
  {
    ExampleFrom3(ms);
    assert ms[2..] == [ms[2]] + ms[3..];
    SortCons(ms[2], ms[3..]);
    InsertPast(ms[2], ms[5], [ms[3]] + ([ms[4]] + ms[6..]));
    InsertPast(ms[2], ms[3], [ms[4]] + ms[6..]);
    InsertStops(ms[2], [ms[4]] + ms[6..]);
  }

  lemma ExampleFrom1(ms: seq<OperationMetric>)
    requires ExampleDurations(ms)
    ensures OrderByDurationDescending(ms[1..])
      == [ms[5]] + ([ms[1]] + ([ms[3]] + ([ms[2]] + ([ms[4]] + ms[6..]))))
  {
    ExampleFrom2(ms);
    assert ms[1..] == [ms[1]] + ms[2..];
    SortCons(ms[1], ms[2..]);
    InsertPast(ms[1], ms[5], [ms[3]] + ([ms[2]] + ([ms[4]] + ms[6..])));
    InsertStops(ms[1], [ms[3]] + ([ms[2]] + ([ms[4]] + ms[6..])));
  }

  /** The example's order: 1500, 1200, 900, 50, 30, 5, then the six 1 ms operations as listed. */
  lemma ExampleSorted(ms: seq<OperationMetric>)
    requires ExampleDurations(ms)
    ensures OrderByDurationDescending(ms)
      == [ms[5]] + ([ms[1]] + ([ms[3]] + ([ms[0]] + ([ms[2]] + ([ms[4]] + ms[6..])))))
  {
    ExampleFrom1(ms);
    assert ms == [ms[0]] + ms[1..];
    SortCons(ms[0], ms[1..]);
    InsertPast(ms[0], ms[5], [ms[1]] + ([ms[3]] + ([ms[2]] + ([ms[4]] + ms[6..]))));
    InsertPast(ms[0], ms[1], [ms[3]] + ([ms[2]] + ([ms[4]] + ms[6..])));
    InsertPast(ms[0], ms[3], [ms[2]] + ([ms[4]] + ms[6..]));
    InsertStops(ms[0], [ms[2]] + ([ms[4]] + ms[6..]));
  }

  /**
   * Twelve operations of 50, 1200, 30, 900, 5, 1500 and six times 1 ms:
   * the table shows ten rows, the first three of 1500, 1200 and 900 ms.
   */
  lemma SlowestOperationsExample(ms: seq<OperationMetric>)
    requires |ms| == 12
    requires ms[0].durationMs == 50.0 && ms[1].durationMs == 1200.0 && ms[2].durationMs == 30.0
    requires ms[3].durationMs == 900.0 && ms[4].durationMs == 5.0 && ms[5].durationMs == 1500.0
    requires forall i | 6 <= i < 12 :: ms[i].durationMs == 1.0
    ensures var rows := SlowestOperations(ms);
      |rows| == 10 && rows[0] == ms[5] && rows[1] == ms[1] && rows[2] == ms[3]
      && rows[0].durationMs == 1500.0 && rows[1].durationMs == 1200.0 && rows[2].durationMs == 900.0
  {
    ExampleSorted(ms);
  }
}
