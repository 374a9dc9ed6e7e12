/**
  js/financial.js: the financial page's month filter, totals and balance, and
  the monthly bar chart that js/dashboard.js draws. Amounts are integer cents.
  The chart is rendered by `renderChart` of js/dashboard.js, which
  fetchDashboardData calls; js/financial.js keeps an identical copy of that
  function that nothing calls.
*/
module Financial {
  import opened JsStrings

  /** A financial entry or exit as listed by the server. */
  datatype Txn = Txn(description: string, date: string, value: int)

  /** `reduce((sum, t) => sum + t.value, 0)` */
  function Sum(txns: seq<Txn>): int {
    if txns == [] then 0 else Sum(txns[..|txns| - 1]) + txns[|txns| - 1].value
  }

  lemma {:induction false} SumAppend(a: seq<Txn>, b: seq<Txn>)
    ensures Sum(a + b) == Sum(a) + Sum(b)
  {
    if b == [] {
      assert a + b == a;
    } else {
      var n := |b| - 1;
      assert (a + b)[..|a + b| - 1] == a + b[..n];
      SumAppend(a, b[..n]);
    }
  }

  /** `filter(t => t.date.startsWith(monthYear))` */
  function KeepMonth(txns: seq<Txn>, monthYear: string): (r: seq<Txn>)
    ensures |r| <= |txns|
    ensures forall k :: 0 <= k < |r| ==> StartsWith(r[k].date, monthYear) && r[k] in txns
    ensures forall k :: 0 <= k < |txns| && StartsWith(txns[k].date, monthYear) ==> txns[k] in r
  {
    if txns == [] then []
    else
      var n := |txns| - 1;
      var prev := KeepMonth(txns[..n], monthYear);
      assert forall k :: 0 <= k < n ==> txns[..n][k] == txns[k];
      prev + (if StartsWith(txns[n].date, monthYear) then [txns[n]] else [])
  }

  /** Filtering keeps the order: it distributes over concatenation. */
  lemma {:induction false} KeepMonthAppend(a: seq<Txn>, b: seq<Txn>, monthYear: string)
    ensures KeepMonth(a + b, monthYear) == KeepMonth(a, monthYear) + KeepMonth(b, monthYear)
  {
    if b == [] {
      assert a + b == a;
    } else {
      var n := |b| - 1;
      assert (a + b)[..|a + b| - 1] == a + b[..n];
      KeepMonthAppend(a, b[..n], monthYear);
    }
  }

  /** fetchFinancialData's `if (monthYear)`: a falsy filter keeps every row. */
  function Filter(txns: seq<Txn>, monthYear: string): (r: seq<Txn>)
    ensures !Truthy(monthYear) ==> r == txns
    ensures Truthy(monthYear) ==> r == KeepMonth(txns, monthYear)
  {
    if Truthy(monthYear) then KeepMonth(txns, monthYear) else txns
  }

  /** The filter value after "Mostrar Todos". */
  const ResetFilter: string := ""

  /** resetFinancialFilter shows every row. */
  lemma ResetShowsAll(txns: seq<Txn>)
    ensures Filter(txns, ResetFilter) == txns
  {
  }

  /** `${year}-${String(month0 + 1).padStart(2, "0")}` for `getFullYear()`
      and `getMonth()`. */
  function DefaultFilter(year: nat, month0: nat): string
    requires month0 < 12
  {
    Decimal(year) + "-" + PadStart(Decimal(month0 + 1), 2, '0')
  }

  /** The default filter is the year's numeral, a dash and the two-digit
      one-based month, whose parts read back as the year and the month; it
      is truthy, so the page opens filtered, and it is labelled `MM/YYYY`. */
  lemma DefaultFilterIsCurrentMonth(year: nat, month0: nat)
    requires month0 < 12
    ensures var mm := PadStart(Decimal(month0 + 1), 2, '0');
      && DefaultFilter(year, month0) == Decimal(year) + "-" + mm
      && |mm| == 2 && ParseDecimal(mm) == month0 + 1 && ParseDecimal(Decimal(year)) == year
      && Truthy(DefaultFilter(year, month0))
      && MonthLabel(DefaultFilter(year, month0)) == mm + "/" + Decimal(year)
  {
    var mm := PadStart(Decimal(month0 + 1), 2, '0');
    ParseDecimalInverts(year);
    PaddedDecimalInverts(month0 + 1, 2);
    assert |Decimal(month0 + 1)| <= 2 by {
      if month0 + 1 >= 10 {
        assert Decimal(month0 + 1) == Decimal((month0 + 1) / 10) + [DigitChar((month0 + 1) % 10)];
      }
    }
    assert '-' !in Decimal(year);
    assert '-' !in mm;
    MonthLabelSwaps(Decimal(year), mm);
  }

  /** The three cards of the financial page. */
  datatype Totals = Totals(entries: int, exits: int, balance: int, entryCount: nat, exitCount: nat)

  /** The three cards of the financial page: the sums and counts of the
      filtered entries and exits, and their difference. */
  function PageTotals(entries: seq<Txn>, exits: seq<Txn>, monthYear: string): (t: Totals)
    ensures t.entries == Sum(Filter(entries, monthYear)) && t.exits == Sum(Filter(exits, monthYear))
    ensures t.entryCount == |Filter(entries, monthYear)| && t.exitCount == |Filter(exits, monthYear)|
    ensures t.balance == t.entries - t.exits
  {
    var e, x := Filter(entries, monthYear), Filter(exits, monthYear);
    Totals(Sum(e), Sum(x), Sum(e) - Sum(x), |e|, |x|)
  }

  /** `saldo >= 0`: the sign test behind every colour and caption of a balance. */
  predicate NonNegativeBalance(balance: int) {
    balance >= 0
  }

  /** The balance card's background gradient and its caption. */
  datatype BalanceCard = BalanceCard(gradient: string, caption: string)

  /** The balance card: blue and "Positivo" for a non-negative balance, grey
      and "Negativo" for a negative one. */
  function BalanceCardOf(balance: int): (c: BalanceCard)
    ensures c.gradient == "from-blue-400 to-blue-600" <==> NonNegativeBalance(balance)
    ensures c.caption == "Positivo" <==> NonNegativeBalance(balance)
    ensures c.gradient in {"from-blue-400 to-blue-600", "from-gray-400 to-gray-600"}
    ensures c.caption in {"Positivo", "Negativo"}
  {
    if NonNegativeBalance(balance) then BalanceCard("from-blue-400 to-blue-600", "Positivo")
    else BalanceCard("from-gray-400 to-gray-600", "Negativo")
  }

  /** `date.substring(0, 7)`: the `YYYY-MM` part of an ISO date. */
  function MonthKey(date: string): string {
    Prefix(date, 7)
  }

  /** The total of the rows that fall in one month key. */
  function MonthSum(txns: seq<Txn>, month: string): int {
    if txns == [] then 0
    else
      var n := |txns| - 1;
      MonthSum(txns[..n], month) + (if MonthKey(txns[n].date) == month then txns[n].value else 0)
  }

  predicate HasMonth(txns: seq<Txn>, month: string) {
    exists k :: 0 <= k < |txns| && MonthKey(txns[k].date) == month
  }

  /** A month in which no row falls sums to zero, so a month seen only among
      the exits has zero entries, and the other way round. */
  lemma {:induction false} MonthSumAbsent(txns: seq<Txn>, month: string)
    requires !HasMonth(txns, month)
    ensures MonthSum(txns, month) == 0
  {
    if txns != [] {
      var n := |txns| - 1;
      assert !HasMonth(txns[..n], month) by {
        forall k | 0 <= k < n ensures MonthKey(txns[..n][k].date) != month {
          assert txns[..n][k] == txns[k];
        }
      }
      MonthSumAbsent(txns[..n], month);
    }
  }

  lemma MonthKeyIsPrefixTest(date: string, month: string)
    requires |month| == 7
    ensures MonthKey(date) == month <==> StartsWith(date, month)
  {
  }

  /** For a full `YYYY-MM` key, a chart bucket holds exactly the total the
      financial page shows with that key as its month filter. */
  lemma {:induction false} MonthSumIsFilteredSum(txns: seq<Txn>, month: string)
    requires |month| == 7
    ensures MonthSum(txns, month) == Sum(Filter(txns, month))
  {
    if txns != [] {
      var n := |txns| - 1;
      var t := txns[n];
      var prev := KeepMonth(txns[..n], month);
      MonthSumIsFilteredSum(txns[..n], month);
      MonthKeyIsPrefixTest(t.date, month);
      if StartsWith(t.date, month) {
        assert KeepMonth(txns, month) == prev + [t];
        assert (prev + [t])[..|prev|] == prev;
      } else {
        assert KeepMonth(txns, month) == prev;
      }
    }
  }

  /** With a full `YYYY-MM` filter the page's cards show the same totals as
      that month's chart bucket. */
  lemma PageTotalsMatchMonth(entries: seq<Txn>, exits: seq<Txn>, month: string)
    requires |month| == 7
    ensures var t := PageTotals(entries, exits, month);
      && t.entries == MonthSum(entries, month) && t.exits == MonthSum(exits, month)
      && t.balance == MonthSum(entries, month) - MonthSum(exits, month)
  {
    MonthSumIsFilteredSum(entries, month);
    MonthSumIsFilteredSum(exits, month);
  }

  /** Object.keys(monthlyData) after the two forEach loops: the month keys in
      the order first seen, starting from `keys`. */
  function AddMonths(keys: seq<string>, txns: seq<Txn>): (r: seq<string>)
  {
    if txns == [] then keys
    else
      var n := |txns| - 1;
      var prev := AddMonths(keys, txns[..n]);
      var m := MonthKey(txns[n].date);
      if m in prev then prev else prev + [m]
  }

  /** The keys are those given and the months of the rows, each once. */
  lemma {:induction false} AddMonthsMembers(keys: seq<string>, txns: seq<Txn>)
    ensures NoDuplicates(keys) ==> NoDuplicates(AddMonths(keys, txns))
    ensures forall m :: m in AddMonths(keys, txns) <==> m in keys || HasMonth(txns, m)
  {
    if txns != [] {
      var n := |txns| - 1;
      AddMonthsMembers(keys, txns[..n]);
      var m := MonthKey(txns[n].date);
      forall x ensures HasMonth(txns, x) <==> HasMonth(txns[..n], x) || x == m {
        if HasMonth(txns[..n], x) {
          var k :| 0 <= k < n && MonthKey(txns[..n][k].date) == x;
          assert txns[k] == txns[..n][k];
        }
        if HasMonth(txns, x) && x != m {
          var k :| 0 <= k < |txns| && MonthKey(txns[k].date) == x;
          assert txns[..n][k] == txns[k];
        }
      }
    }
  }

  function AllMonths(entries: seq<Txn>, exits: seq<Txn>): (r: seq<string>)
    ensures NoDuplicates(r)
    ensures forall m :: m in r <==> HasMonth(entries, m) || HasMonth(exits, m)
  {
    AddMonthsMembers([], entries);
    AddMonthsMembers(AddMonths([], entries), exits);
    AddMonths(AddMonths([], entries), exits)
  }

  /** One `monthlyData[month]` object. */
  datatype Bucket = Bucket(entries: int, exits: int)

  /** Which counter of a bucket a forEach loop adds to. */
  datatype Side = EntrySide | ExitSide

  function Credit(b: Bucket, side: Side, v: int): Bucket {
    match side
    case EntrySide => b.(entries := b.entries + v)
    case ExitSide => b.(exits := b.exits + v)
  }

  /** The bucket a month starts from: the one already there, or zeros. */
  function Base(data0: map<string, Bucket>, m: string): Bucket {
    if m in data0 then data0[m] else Bucket(0, 0)
  }

  lemma MonthSumStep(txns: seq<Txn>, i: nat, m: string)
    requires i < |txns|
    ensures MonthSum(txns[..i + 1], m) == MonthSum(txns[..i], m) + (if MonthKey(txns[i].date) == m then txns[i].value else 0)
  {
    assert txns[..i + 1][..i] == txns[..i];
  }

  lemma AddMonthsStep(keys: seq<string>, txns: seq<Txn>, i: nat)
    requires i < |txns|
    ensures AddMonths(keys, txns[..i + 1]) ==
      (var prev := AddMonths(keys, txns[..i]); var m := MonthKey(txns[i].date);
       if m in prev then prev else prev + [m])
  {
    assert txns[..i + 1][..i] == txns[..i];
  }

  /** The loop state of AddToBuckets after the first `i` rows. */
  ghost predicate BucketsAfter(data0: map<string, Bucket>, months0: seq<string>, txns: seq<Txn>, i: nat, side: Side,
                               data: map<string, Bucket>, months: seq<string>)
    requires i <= |txns|
  {
    && months == AddMonths(months0, txns[..i])
    && (forall m :: m in data <==> m in months)
    && (forall m :: m in data0 ==> m in data)
    && (forall m :: m in data ==> data[m] == Credit(Base(data0, m), side, MonthSum(txns[..i], m)))
  }

  /** One pass of the loop body keeps the loop state. */
  lemma BucketsStep(data0: map<string, Bucket>, months0: seq<string>, txns: seq<Txn>, i: nat, side: Side,
                    data: map<string, Bucket>, months: seq<string>)
    requires i < |txns|
    requires BucketsAfter(data0, months0, txns, i, side, data, months)
    ensures var month := MonthKey(txns[i].date);
      var ready := if month in data then data else data[month := Bucket(0, 0)];
      BucketsAfter(data0, months0, txns, i + 1, side,
                   ready[month := Credit(ready[month], side, txns[i].value)],
                   if month in data then months else months + [month])
  {
    var month := MonthKey(txns[i].date);
    var ready := if month in data then data else data[month := Bucket(0, 0)];
    var next := ready[month := Credit(ready[month], side, txns[i].value)];
    AddMonthsStep(months0, txns, i);
    if month !in data {
      AddMonthsMembers(months0, txns[..i]);
      MonthSumAbsent(txns[..i], month);
    }
    forall m | m in next ensures next[m] == Credit(Base(data0, m), side, MonthSum(txns[..i + 1], m)) {
      MonthSumStep(txns, i, m);
    }
  }

  /** One forEach loop of renderChart: each row's month gets a zero bucket
      when first seen, then the row's value is added to the chosen counter. */
  method AddToBuckets(data0: map<string, Bucket>, months0: seq<string>, txns: seq<Txn>, side: Side)
    returns (data: map<string, Bucket>, months: seq<string>)
    requires forall m :: m in data0 <==> m in months0
    ensures months == AddMonths(months0, txns)
    ensures forall m :: m in data <==> m in months
    ensures forall m :: m in data ==> data[m] == Credit(Base(data0, m), side, MonthSum(txns, m))
  {
    data, months := data0, months0;
    var i := 0;
    assert txns[..0] == [];
    while i < |txns|
      invariant 0 <= i <= |txns|
      invariant BucketsAfter(data0, months0, txns, i, side, data, months)
    {
      var month := Prefix(txns[i].date, 7);
      BucketsStep(data0, months0, txns, i, side, data, months);
      if month !in data {
        data := data[month := Bucket(0, 0)];
        months := months + [month];
      }
      data := data[month := Credit(data[month], side, txns[i].value)];
      i := i + 1;
    }
    assert txns[..i] == txns;
  }

  /** Both forEach loops of renderChart. */
  method BuildMonthlyData(entries: seq<Txn>, exits: seq<Txn>) returns (data: map<string, Bucket>, months: seq<string>)
    ensures months == AllMonths(entries, exits)
    ensures forall m :: m in data <==> m in months
    ensures forall m :: m in data ==> data[m] == Bucket(MonthSum(entries, m), MonthSum(exits, m))
  {
    var afterEntries, firstMonths := AddToBuckets(map[], [], entries, EntrySide);
    data, months := AddToBuckets(afterEntries, firstMonths, exits, ExitSide);
    forall m | m in data ensures data[m] == Bucket(MonthSum(entries, m), MonthSum(exits, m)) {
      if m !in afterEntries {
        AddMonthsMembers([], entries);
        MonthSumAbsent(entries, m);
      }
    }
  }

  /** `const [year, mon] = month.split("-"); return `${mon}/${year}``; a key
      without a dash leaves `mon` undefined. */
  function MonthLabel(month: string): string {
    var parts := Split(month, '-');
    (if |parts| > 1 then parts[1] else "undefined") + "/" + parts[0]
  }

  /** A `YYYY-MM` key is relabelled `MM/YYYY`. */
  lemma MonthLabelSwaps(year: string, mon: string)
    requires '-' !in year && '-' !in mon
    ensures MonthLabel(year + "-" + mon) == mon + "/" + year
  {
    SplitAt(year, '-', mon);
  }

  /** The chart series: one value per month key. */
  function Series(months: seq<string>, txns: seq<Txn>): (r: seq<int>)
    ensures |r| == |months|
    ensures forall i :: 0 <= i < |months| ==> r[i] == MonthSum(txns, months[i])
  {
    if months == [] then [] else [MonthSum(txns, months[0])] + Series(months[1..], txns)
  }

  function Labels(months: seq<string>): (r: seq<string>)
    ensures |r| == |months|
    ensures forall i :: 0 <= i < |months| ==> r[i] == MonthLabel(months[i])
  {
    seq(|months|, i requires 0 <= i < |months| => MonthLabel(months[i]))
  }

  function SeqSum(s: seq<int>): int {
    if s == [] then 0 else s[0] + SeqSum(s[1..])
  }

  datatype ChartData = ChartData(labels: seq<string>, entrySeries: seq<int>, exitSeries: seq<int>)

  /** The sorted month keys of the chart. */
  function ChartMonths(entries: seq<Txn>, exits: seq<Txn>): (months: seq<string>)
    ensures StrictlySorted(months)
    ensures forall m :: m in months <==> HasMonth(entries, m) || HasMonth(exits, m)
  {
    var keys := AllMonths(entries, exits);
    var months := SortDistinct(keys);
    assert forall m :: m in months <==> m in keys by {
      forall m ensures m in months <==> m in keys {
        assert m in months <==> m in multiset(months);
        assert m in keys <==> m in multiset(keys);
      }
    }
    months
  }

  /** What renderChart draws. */
  function ChartOf(entries: seq<Txn>, exits: seq<Txn>): ChartData {
    var months := ChartMonths(entries, exits);
    ChartData(Labels(months), Series(months, entries), Series(months, exits))
  }

  lemma SortedDistinct(s: seq<string>)
    requires StrictlySorted(s)
    ensures NoDuplicates(s)
  {
    forall i, j | 0 <= i < j < |s| ensures s[i] != s[j] {
      if s[i] == s[j] { LessIrreflexive(s[i]); }
    }
  }

  lemma {:induction false} SeriesOfNothing(months: seq<string>)
    ensures SeqSum(Series(months, [])) == 0
  {
    if months != [] { SeriesOfNothing(months[1..]); }
  }

  /** Adding one row raises the series total by its value when its month has a key. */
  lemma {:induction false} SeriesStep(months: seq<string>, txns: seq<Txn>, t: Txn)
    requires NoDuplicates(months)
    ensures SeqSum(Series(months, txns + [t])) ==
      SeqSum(Series(months, txns)) + (if MonthKey(t.date) in months then t.value else 0)
  {
    if months != [] {
      var p := txns + [t];
      assert p[..|p| - 1] == txns;
      assert NoDuplicates(months[1..]) by {
        forall i, j | 0 <= i < j < |months[1..]| ensures months[1..][i] != months[1..][j] {
          assert months[1..][i] == months[i + 1] && months[1..][j] == months[j + 1];
        }
      }
      SeriesStep(months[1..], txns, t);
      if MonthKey(t.date) == months[0] {
        assert MonthKey(t.date) !in months[1..] by {
          forall i | 0 <= i < |months[1..]| ensures months[1..][i] != months[0] {
            assert months[1..][i] == months[i + 1];
          }
        }
      }
      assert MonthKey(t.date) in months <==> MonthKey(t.date) == months[0] || MonthKey(t.date) in months[1..] by {
        assert months == [months[0]] + months[1..];
      }
    }
  }

  /** Conservation: over distinct keys that cover every row's month, the series
      adds up to the total of the rows. */
  lemma {:induction false} SeriesConserves(months: seq<string>, txns: seq<Txn>)
    requires NoDuplicates(months)
    requires forall k :: 0 <= k < |txns| ==> MonthKey(txns[k].date) in months
    ensures SeqSum(Series(months, txns)) == Sum(txns)
  {
    if txns == [] {
      SeriesOfNothing(months);
    } else {
      var n := |txns| - 1;
      assert txns == txns[..n] + [txns[n]];
      assert forall k :: 0 <= k < n ==> txns[..n][k] == txns[k];
      SeriesConserves(months, txns[..n]);
      SeriesStep(months, txns[..n], txns[n]);
    }
  }

  /** Keys that include every month some row falls in cover each row. */
  lemma MonthsCover(txns: seq<Txn>, months: seq<string>)
    requires forall m :: HasMonth(txns, m) ==> m in months
    ensures forall k :: 0 <= k < |txns| ==> MonthKey(txns[k].date) in months
  {
    forall k | 0 <= k < |txns| ensures MonthKey(txns[k].date) in months {
      assert HasMonth(txns, MonthKey(txns[k].date));
    }
  }

  /** The chart's three sequences are index-aligned with the ascending month
      keys, every key is a month of some row, and the two series add up to the
      totals of all entries and of all exits. */
  lemma ChartAlignedAndConserving(entries: seq<Txn>, exits: seq<Txn>)
    ensures var c := ChartOf(entries, exits); var months := ChartMonths(entries, exits);
      && |c.labels| == |c.entrySeries| == |c.exitSeries| == |months|
      && StrictlySorted(months)
      && (forall i :: 0 <= i < |months| ==>
            && c.labels[i] == MonthLabel(months[i])
            && c.entrySeries[i] == MonthSum(entries, months[i])
            && c.exitSeries[i] == MonthSum(exits, months[i])
            && (HasMonth(entries, months[i]) || HasMonth(exits, months[i])))
      && SeqSum(c.entrySeries) == Sum(entries)
      && SeqSum(c.exitSeries) == Sum(exits)
  {
    var months := ChartMonths(entries, exits);
    SortedDistinct(months);
    MonthsCover(entries, months);
    MonthsCover(exits, months);
    SeriesConserves(months, entries);
    SeriesConserves(months, exits);
  }

  /** Reading the buckets in key order gives the two series. */
  lemma SeriesFromBuckets(months: seq<string>, data: map<string, Bucket>, entries: seq<Txn>, exits: seq<Txn>,
                          entrySeries: seq<int>, exitSeries: seq<int>)
    requires forall i :: 0 <= i < |months| ==> months[i] in data
    requires forall m :: m in data ==> data[m] == Bucket(MonthSum(entries, m), MonthSum(exits, m))
    requires |entrySeries| == |exitSeries| == |months|
    requires forall i :: 0 <= i < |months| ==> entrySeries[i] == data[months[i]].entries && exitSeries[i] == data[months[i]].exits
    ensures entrySeries == Series(months, entries) && exitSeries == Series(months, exits)
  {
  }

  /** The module-level `salesChartInstance` of js/dashboard.js. */
  class SalesChart {
    var instance: Option<ChartData>

    constructor ()
      ensures instance == None
    {
      instance := None;
    }

    /** renderChart: nothing happens without the canvas; otherwise the
        previous chart is replaced by the monthly bar chart of the rows. */
    method Render(canvasPresent: bool, entries: seq<Txn>, exits: seq<Txn>)
      modifies this
      ensures canvasPresent ==> instance == Some(ChartOf(entries, exits))
      ensures !canvasPresent ==> instance == old(instance)
    {
      if !canvasPresent {
        return;
      }
      var data, keys := BuildMonthlyData(entries, exits);
      var months := SortDistinct(keys);
      assert forall i :: 0 <= i < |months| ==> months[i] in data by {
        forall i | 0 <= i < |months| ensures months[i] in data {
          assert months[i] in multiset(months);
        }
      }
      var labels := seq(|months|, i requires 0 <= i < |months| => MonthLabel(months[i]));
      var entrySeries := seq(|months|, i requires 0 <= i < |months| => data[months[i]].entries);
      var exitSeries := seq(|months|, i requires 0 <= i < |months| => data[months[i]].exits);
      SeriesFromBuckets(months, data, entries, exits, entrySeries, exitSeries);
      instance := Some(ChartData(labels, entrySeries, exitSeries));
    }
  }
}
