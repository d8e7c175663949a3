/**
 * The analytics page's helpers: the month-over-month trend of the monthly
 * spending series, month names and the colour of a category bar.
 */
module TransactionAnalytics {
  import opened Wrappers
  import Sequences
  import TwoFactor

  /** One month of the spending series; amounts in cents. */
  datatype MonthlyData = MonthlyData(year: int, month: int, amount: int)

  /**
   * The comparator `a.year - b.year || a.month - b.month` as an ordering:
   * `a` may come before `b`.
   */
  function NoLaterThan(a: MonthlyData, b: MonthlyData): bool
  {
    a.year < b.year || (a.year == b.year && a.month <= b.month)
  }

  lemma NoLaterThanOrders()
    ensures Sequences.TotalPreorder(NoLaterThan)
  {
  }

  /** The series sorted, as the stable `sort` of a copy orders it. */
  function Chronological(series: seq<MonthlyData>): (r: seq<MonthlyData>)
    ensures |r| == |series| && multiset(r) == multiset(series)
    ensures forall i, j :: 0 <= i < j < |r| ==> NoLaterThan(r[i], r[j])
  {
    NoLaterThanOrders();
    Sequences.SortBy(series, NoLaterThan)
  }

  /** The trend shown on the page; the percentage is not modelled. */
  datatype Trend = Trend(change: int, isIncrease: bool)

  /** `calculateTrend()`: `analytics` is None before the analytics have loaded. */
  function CalculateTrend(analytics: Option<seq<MonthlyData>>): Option<Trend>
  {
    if analytics.None? || |analytics.value| < 2 then None
    else
      var sorted := Chronological(analytics.value);
      var recent := sorted[|sorted| - 2..];
      var change := recent[1].amount - recent[0].amount;
      Some(Trend(change, change > 0))
  }

  /**
   * There is no trend before the analytics load or with fewer than two
   * months. Otherwise the change is the latest month's amount less the one
   * before it, both taken from the series: no month of the series is later
   * than the latest, the one before it is no later than the latest, and no
   * other month of the series is later than the one before. A month equal
   * to the one before is not an increase.
   */
  lemma TrendMeaning(analytics: Option<seq<MonthlyData>>)
    ensures CalculateTrend(analytics).None? <==> analytics.None? || |analytics.value| < 2
    ensures CalculateTrend(analytics).Some? ==>
              var series := analytics.value;
              var t := CalculateTrend(analytics).value;
              exists latest, previous ::
                LatestTwo(series, latest, previous)
                && t.change == latest.amount - previous.amount
                && (t.isIncrease <==> latest.amount > previous.amount)
  {
    if CalculateTrend(analytics).Some? {
      var sorted := Chronological(analytics.value);
      LastTwoOfSorted(analytics.value);
      var series, t := analytics.value, CalculateTrend(analytics).value;
      var latest, previous := sorted[|sorted| - 1], sorted[|sorted| - 2];
      assert t.change == latest.amount - previous.amount;
      assert LatestTwo(series, latest, previous);
    }
  }

  /**
   * `latest` and `previous` are two entries of the series: no entry is later
   * than `latest`, and no entry other than that one is later than `previous`.
   */
  ghost predicate LatestTwo(series: seq<MonthlyData>, latest: MonthlyData, previous: MonthlyData)
  {
    multiset{latest, previous} <= multiset(series)
    && NoLaterThan(previous, latest)
    && (forall m :: m in multiset(series) ==> NoLaterThan(m, latest))
    && forall m :: multiset(series)[m] > (if m == latest then 1 else 0) ==> NoLaterThan(m, previous)
  }

  /** In a chronologically sorted series the last two entries are the latest two. */
  lemma SortedLatestTwo(sorted: seq<MonthlyData>)
    requires |sorted| >= 2
    requires forall i, j :: 0 <= i < j < |sorted| ==> NoLaterThan(sorted[i], sorted[j])
    ensures LatestTwo(sorted, sorted[|sorted| - 1], sorted[|sorted| - 2])
  {
    var n := |sorted|;
    var latest, previous := sorted[n - 1], sorted[n - 2];
    assert sorted == sorted[..n - 2] + [previous, latest];
    assert multiset(sorted) == multiset(sorted[..n - 2]) + multiset{previous, latest};
    forall m | multiset(sorted)[m] > (if m == latest then 1 else 0) ensures NoLaterThan(m, previous) {
      assert m in multiset(sorted[..n - 2]) + multiset{previous};
      if m != previous {
        assert m in sorted[..n - 2];
      }
    }
    forall m | m in multiset(sorted) ensures NoLaterThan(m, latest) {
      var i :| 0 <= i < n && sorted[i] == m;
      if i < n - 1 {
        assert NoLaterThan(sorted[i], latest);
      }
    }
  }

  /** The last two entries of the sorted series are its latest two. */
  lemma LastTwoOfSorted(series: seq<MonthlyData>)
    requires |series| >= 2
    ensures var sorted := Chronological(series);
            var n := |sorted|;
            LatestTwo(series, sorted[n - 1], sorted[n - 2])
  {
    SortedLatestTwo(Chronological(series));
  }

  /** The only chronological order of two different months is earlier first. */
  lemma TwoInOrder(s: seq<MonthlyData>, a: MonthlyData, b: MonthlyData)
    requires a.year < b.year || (a.year == b.year && a.month < b.month)
    requires |s| == 2 && multiset(s) == multiset{a, b} && NoLaterThan(s[0], s[1])
    ensures s == [a, b]
  {
    assert s == [s[0], s[1]];
    assert multiset(s) == multiset{s[0], s[1]};
    assert s[0] in multiset{a, b} && s[1] in multiset{a, b};
    if s[0] == b {
      assert false;
    }
    if s[1] == a {
      assert false;
    }
  }

  /** The input order does not matter: two months give the same trend either way round. */
  lemma TrendOfTwoMonths(a: MonthlyData, b: MonthlyData)
    requires a.year < b.year || (a.year == b.year && a.month < b.month)
    ensures CalculateTrend(Some([a, b])) == CalculateTrend(Some([b, a]))
    ensures CalculateTrend(Some([a, b])) == Some(Trend(b.amount - a.amount, b.amount > a.amount))
  {
    TwoInOrder(Chronological([a, b]), a, b);
    assert multiset([b, a]) == multiset{a, b};
    TwoInOrder(Chronological([b, a]), a, b);
  }

  const MONTHS: seq<string> := ["Jan", "Feb", "Mar", "Apr", "May", "Jun", "Jul", "Aug", "Sep", "Oct", "Nov", "Dec"]

  /** `months[monthNum - 1]`: None stands for `undefined`, outside 1..12. */
  function MonthName(monthNum: int): (r: Option<string>)
    ensures r.Some? <==> 1 <= monthNum <= 12
  {
    if 1 <= monthNum <= 12 then Some(MONTHS[monthNum - 1]) else None
  }

  /** January to December get "Jan" to "Dec", and no two months share a name. */
  lemma MonthNames(m: int, n: int)
    ensures MonthName(1) == Some("Jan") && MonthName(6) == Some("Jun") && MonthName(12) == Some("Dec")
    ensures 1 <= m <= 12 && 1 <= n <= 12 && m != n ==> MonthName(m) != MonthName(n)
    ensures 1 <= m <= 12 ==> |MonthName(m).value| == 3
  {
  }

  const BAR_COLORS: seq<string> :=
    ["bg-blue-500", "bg-green-500", "bg-yellow-500", "bg-red-500",
     "bg-purple-500", "bg-pink-500", "bg-indigo-500", "bg-gray-500"]

  /**
   * `colors[index % colors.length]`; JavaScript's `%` keeps the sign of the
   * index, so a negative index can reach no colour (None, `undefined`).
   */
  function CategoryColor(index: int): (r: Option<string>)
    ensures index >= 0 ==> r.Some?
    ensures r.Some? ==> r.value in BAR_COLORS
  {
    var k := TwoFactor.JavaRem(index, |BAR_COLORS|);
    if k < 0 then None else Some(BAR_COLORS[k])
  }

  /**
   * The colours repeat every eight bars; the first eight are all different;
   * a negative index that is not a multiple of eight has none.
   */
  lemma CategoryColorPeriodic(index: int)
    ensures index >= 0 ==> CategoryColor(index) == CategoryColor(index + 8)
    ensures 0 <= index < 8 ==> CategoryColor(index) == Some(BAR_COLORS[index])
    ensures index < 0 && index % 8 != 0 ==> CategoryColor(index).None?
  {
    if index >= 0 {
      assert (index + 8) % 8 == index % 8;
    }
  }
}
