/** The dashboard route: the selected year's income and expense rows are
    bucketed by month key "YYYY-MM", each bucket gets a balance, the buckets
    are listed in key order, and three twelve-slot chart series are read
    out of them. Rows come in as the lists of cell strings the spreadsheet
    returns, `[date, item, category, amount]`. */
module Dashboard {

  import opened Wrappers
  import opened Text
  import opened Dates
  import opened Amounts
  import opened Sorting

  type Row = seq<string>

  /** The `tipe` argument of process_data: which field of a bucket a sheet feeds. */
  datatype Stream = Income | Expenses

  /** A monthly_summary bucket as process_data leaves it. */
  datatype Totals = Totals(income: int, expenses: int)

  /** A monthly_summary bucket after the balance loop. */
  datatype Bucket = Bucket(income: int, expenses: int, balance: int)

  function Field(t: Totals, s: Stream): int {
    if s == Income then t.income else t.expenses
  }

  function Other(s: Stream): Stream {
    if s == Income then Expenses else Income
  }

  /** A field of a bucket, 0 for a key the defaultdict has not created. */
  function FieldOr0(m: map<string, Totals>, k: string, s: Stream): int {
    if k in m then Field(m[k], s) else 0
  }

  /** The key of a month: `strftime("%Y-%m")` of a date in process_data, and
      `f"{selected_year}-{m:02d}"` in the chart loop. */
  function MonthKey(year: int, month: nat): (k: string)
    requires 1 <= month <= 12
    ensures |k| >= 4 && k[|k| - 2..] == Pad2(month)
  {
    IntToString(year) + "-" + Pad2(month)
  }

  lemma MonthKeyInjective(year: int, m1: nat, m2: nat)
    requires 1 <= m1 <= 12 && 1 <= m2 <= 12
    requires MonthKey(year, m1) == MonthKey(year, m2)
    ensures m1 == m2
  {
    assert Pad2(m1) == Pad2(m2);
  }

  lemma Pad2Order(a: nat, b: nat)
    requires a < 100 && b < 100
    ensures Less(Pad2(a), Pad2(b)) <==> a < b
  {
    var pa, pb := Pad2(a), Pad2(b);
    assert pa[1..][1..] == [] && pb[1..][1..] == [];
    assert Less(pa[1..], pb[1..]) <==> pa[1] < pb[1];
  }

  /** Within one year, key order is calendar order: `sorted()` lists the
      months January to December. */
  lemma MonthKeyOrder(year: int, m1: nat, m2: nat)
    requires 1 <= m1 <= 12 && 1 <= m2 <= 12
    ensures Less(MonthKey(year, m1), MonthKey(year, m2)) <==> m1 < m2
  {
    LessCommonPrefix(IntToString(year) + "-", Pad2(m1), Pad2(m2));
    Pad2Order(m1, m2);
  }

  /** What one row adds to monthly_summary when the selected year is `year`:
      its month key and its amount. None when the row is skipped (too short,
      date or amount unreadable) or dated in another year. */
  function Entry(row: Row, year: int): (e: Option<(string, int)>)
    ensures e.Some? <==>
      |row| >= 4 && ParseDate(row[0]).Some? && ParseDate(row[0]).value.year == year && ParseAmount(row[3]).Some?
    ensures e.Some? ==> e.value == (MonthKey(year, ParseDate(row[0]).value.month), ParseAmount(row[3]).value)
  {
    if |row| == 0 then None
    else
      var date := ParseDate(row[0]);
      if date.None? || date.value.year != year || |row| < 4 then None
      else
        var amount := ParseAmount(row[3]);
        if amount.None? then None
        else Some((MonthKey(date.value.year, date.value.month), amount.value))
  }

  function AmountFor(e: Option<(string, int)>, key: string): int {
    if e.Some? && e.value.0 == key then e.value.1 else 0
  }

  /** The sum of the amounts that the rows add under `key`. */
  function Total(rows: seq<Row>, year: int, key: string): int {
    if rows == [] then 0
    else Total(rows[..|rows| - 1], year, key) + AmountFor(Entry(rows[|rows| - 1], year), key)
  }

  /** The month keys that at least one row adds to. */
  function Keys(rows: seq<Row>, year: int): set<string> {
    if rows == [] then {}
    else
      var e := Entry(rows[|rows| - 1], year);
      Keys(rows[..|rows| - 1], year) + (if e.Some? then {e.value.0} else {})
  }

  /** The sum of every amount the rows contribute to the year. */
  function GrandTotal(rows: seq<Row>, year: int): int {
    if rows == [] then 0
    else
      var e := Entry(rows[|rows| - 1], year);
      GrandTotal(rows[..|rows| - 1], year) + (if e.Some? then e.value.1 else 0)
  }

  /** A key no row adds to has total 0. */
  lemma {:induction false} TotalOutsideKeys(rows: seq<Row>, year: int, key: string)
    requires key !in Keys(rows, year)
    ensures Total(rows, year, key) == 0
    decreases |rows|
  {
    if rows != [] {
      TotalOutsideKeys(rows[..|rows| - 1], year, key);
    }
  }

  /** Appending one row to a list of rows, seen through the last-row recursion. */
  lemma Snoc(rows: seq<Row>, r: Row, year: int, key: string)
    ensures Total(rows + [r], year, key) == Total(rows, year, key) + AmountFor(Entry(r, year), key)
    ensures Keys(rows + [r], year) == Keys(rows, year) + (if Entry(r, year).Some? then {Entry(r, year).value.0} else {})
    ensures GrandTotal(rows + [r], year) == GrandTotal(rows, year) + (if Entry(r, year).Some? then Entry(r, year).value.1 else 0)
  {
    var rows' := rows + [r];
    assert rows'[..|rows'| - 1] == rows;
  }

  /** The skip policy: a row that is too short, whose date or amount does not
      read, or that is dated in another year adds nothing to any bucket, and
      the rows after it still count exactly as they would without it. */
  lemma {:induction false} SkippedRowInert(pre: seq<Row>, bad: Row, post: seq<Row>, year: int, key: string)
    requires |bad| < 4 || ParseDate(bad[0]).None? || ParseDate(bad[0]).value.year != year || ParseAmount(bad[3]).None?
    ensures Total(pre + [bad] + post, year, key) == Total(pre + post, year, key)
    ensures Keys(pre + [bad] + post, year) == Keys(pre + post, year)
    ensures GrandTotal(pre + [bad] + post, year) == GrandTotal(pre + post, year)
    decreases |post|
  {
    assert Entry(bad, year).None?;
    if post == [] {
      assert pre + [bad] + post == pre + [bad] && pre + post == pre;
      Snoc(pre, bad, year, key);
    } else {
      var post', last := post[..|post| - 1], post[|post| - 1];
      SkippedRowInert(pre, bad, post', year, key);
      assert pre + [bad] + post == (pre + [bad] + post') + [last];
      assert pre + post == (pre + post') + [last];
      Snoc(pre + [bad] + post', last, year, key);
      Snoc(pre + post', last, year, key);
    }
  }

  /** Every key is the key of a month of the selected year. */
  lemma {:induction false} KeysAreMonthKeys(rows: seq<Row>, year: int, key: string)
    requires key in Keys(rows, year)
    ensures exists m :: 1 <= m <= 12 && key == MonthKey(year, m)
    decreases |rows|
  {
    var e := Entry(rows[|rows| - 1], year);
    if key in Keys(rows[..|rows| - 1], year) {
      KeysAreMonthKeys(rows[..|rows| - 1], year, key);
    } else {
      var m := ParseDate(rows[|rows| - 1][0]).value.month;
      assert key == MonthKey(year, m);
    }
  }

  /** What process_data has built after reading `rows` into `summary`. */
  ghost predicate Accumulated(summary: map<string, Totals>, out: map<string, Totals>, rows: seq<Row>, stream: Stream, year: int) {
    && out.Keys == summary.Keys + Keys(rows, year)
    && (forall k :: k in out ==> Field(out[k], stream) == FieldOr0(summary, k, stream) + Total(rows, year, k))
    && (forall k :: k in out ==> Field(out[k], Other(stream)) == FieldOr0(summary, k, Other(stream)))
  }

  /** `bucket[tipe] += amount`: the amount added to the stream's field. */
  function Added(t: Totals, stream: Stream, amount: int): (r: Totals)
    ensures Field(r, stream) == Field(t, stream) + amount
    ensures Field(r, Other(stream)) == Field(t, Other(stream))
  {
    if stream == Income then t.(income := t.income + amount) else t.(expenses := t.expenses + amount)
  }

  /** `monthly_summary[key][tipe] += amount` on a defaultdict. */
  function Bump(m: map<string, Totals>, key: string, stream: Stream, amount: int): (r: map<string, Totals>)
    ensures r.Keys == m.Keys + {key}
    ensures Field(r[key], stream) == FieldOr0(m, key, stream) + amount
    ensures Field(r[key], Other(stream)) == FieldOr0(m, key, Other(stream))
    ensures forall k :: k in m && k != key ==> r[k] == m[k]
  {
    m[key := Added(if key in m then m[key] else Totals(0, 0), stream, amount)]
  }

  /** Bumping one bucket keeps the accumulation in step with a row that contributes. */
  lemma AccumulateRow(summary: map<string, Totals>, out: map<string, Totals>, rows: seq<Row>, row: Row,
                      stream: Stream, year: int, key: string, amount: int)
    requires Accumulated(summary, out, rows, stream, year)
    requires Entry(row, year) == Some((key, amount))
    ensures Accumulated(summary, Bump(out, key, stream, amount), rows + [row], stream, year)
  {
    var rows' := rows + [row];
    if key !in out {
      TotalOutsideKeys(rows, year, key);
    }
    var out' := Bump(out, key, stream, amount);
    Snoc(rows, row, year, key);
    assert out'.Keys == summary.Keys + Keys(rows', year);
    forall k | k in out'
      ensures Field(out'[k], stream) == FieldOr0(summary, k, stream) + Total(rows', year, k)
      ensures Field(out'[k], Other(stream)) == FieldOr0(summary, k, Other(stream))
    {
      Snoc(rows, row, year, k);
    }
  }

  /** A row that contributes nothing leaves the accumulation in step. */
  lemma SkipRow(summary: map<string, Totals>, out: map<string, Totals>, rows: seq<Row>, row: Row,
                stream: Stream, year: int)
    requires Accumulated(summary, out, rows, stream, year)
    requires Entry(row, year).None?
    ensures Accumulated(summary, out, rows + [row], stream, year)
  {
    forall k {
      Snoc(rows, row, year, k);
    }
  }

  /** The body of process_data's loop for one row: parse the date, keep only
      the selected year, parse the amount, add it to the month's bucket; an
      IndexError or ValueError on the way leaves the summary as it was. */
  method ProcessRow(summary: map<string, Totals>, row: Row, stream: Stream, year: int)
    returns (out: map<string, Totals>)
    ensures Entry(row, year).None? ==> out == summary
    ensures Entry(row, year).Some? ==>
      out == Bump(summary, Entry(row, year).value.0, stream, Entry(row, year).value.1)
  {
    out := summary;
    if |row| >= 1 {
      var date := ParseDate(row[0]);
      if date.Some? && date.value.year == year {
        var key := MonthKey(date.value.year, date.value.month);
        if |row| >= 4 {
          var amount := ParseAmount(row[3]);
          if amount.Some? {
            assert Entry(row, year) == Some((key, amount.value));
            var bucket := if key in out then out[key] else Totals(0, 0);
            out := out[key := Added(bucket, stream, amount.value)];
          } else {
            assert Entry(row, year).None?;
          }
        } else {
          assert Entry(row, year).None?;
        }
      } else {
        assert Entry(row, year).None?;
      }
    }
  }

  /** process_data: every row whose date falls in the selected year and whose
      amount reads adds that amount to its month's bucket, in the field of
      `stream`; a bucket is created on first use, like the defaultdict does;
      every other row is passed over. */
  method ProcessData(summary: map<string, Totals>, rows: seq<Row>, stream: Stream, year: int)
    returns (out: map<string, Totals>)
    ensures out.Keys == summary.Keys + Keys(rows, year)
    ensures forall k :: k in out ==> Field(out[k], stream) == FieldOr0(summary, k, stream) + Total(rows, year, k)
    ensures forall k :: k in out ==> Field(out[k], Other(stream)) == FieldOr0(summary, k, Other(stream))
  {
    out := summary;
    var i := 0;
    while i < |rows|
      invariant 0 <= i <= |rows|
      invariant Accumulated(summary, out, rows[..i], stream, year)
    {
      assert rows[..i + 1] == rows[..i] + [rows[i]];
      var e := Entry(rows[i], year);
      if e.Some? {
        AccumulateRow(summary, out, rows[..i], rows[i], stream, year, e.value.0, e.value.1);
      } else {
        SkipRow(summary, out, rows[..i], rows[i], stream, year);
      }
      out := ProcessRow(out, rows[i], stream, year);
      i := i + 1;
    }
    assert rows[..|rows|] == rows;
  }

  /** The balance loop: every bucket gets `balance = income - expenses`. */
  method AddBalances(summary: map<string, Totals>) returns (buckets: map<string, Bucket>)
    ensures buckets.Keys == summary.Keys
    ensures forall k :: k in buckets ==>
      && buckets[k].income == summary[k].income
      && buckets[k].expenses == summary[k].expenses
      && buckets[k].balance == buckets[k].income - buckets[k].expenses
  {
    buckets := map[];
    var todo := summary.Keys;
    while todo != {}
      invariant todo <= summary.Keys
      invariant buckets.Keys == summary.Keys - todo
      invariant forall k :: k in buckets ==>
        && buckets[k].income == summary[k].income
        && buckets[k].expenses == summary[k].expenses
        && buckets[k].balance == buckets[k].income - buckets[k].expenses
      decreases |todo|
    {
      var k :| k in todo;
      var t := summary[k];
      buckets := buckets[k := Bucket(t.income, t.expenses, t.income - t.expenses)];
      todo := todo - {k};
    }
  }

  /** The keys of summary_data, in order. */
  function MonthsOf(data: seq<(string, Bucket)>): (ks: seq<string>)
    ensures |ks| == |data| && forall i :: 0 <= i < |data| ==> ks[i] == data[i].0
  {
    seq(|data|, i requires 0 <= i < |data| => data[i].0)
  }

  /** summary_data: every bucket paired with its key, keys ascending. */
  method SummaryData(buckets: map<string, Bucket>) returns (data: seq<(string, Bucket)>)
    ensures StrictlySorted(MonthsOf(data))
    ensures forall k :: k in MonthsOf(data) <==> k in buckets
    ensures forall i :: 0 <= i < |data| ==> data[i].0 in buckets && data[i].1 == buckets[data[i].0]
  {
    var months := SortedKeys(buckets.Keys);
    data := seq(|months|, i requires 0 <= i < |months| => (months[i], buckets[months[i]]));
    assert MonthsOf(data) == months;
  }

  /** The chart loop: for each month of the selected year, the bucket's three
      fields, or 0 where the month has no bucket. */
  method ChartSeries(buckets: map<string, Bucket>, year: int)
    returns (income: seq<int>, expenses: seq<int>, balance: seq<int>)
    ensures |income| == 12 && |expenses| == 12 && |balance| == 12
    ensures forall i :: 0 <= i < 12 ==>
      var key := MonthKey(year, i + 1);
      && income[i] == (if key in buckets then buckets[key].income else 0)
      && expenses[i] == (if key in buckets then buckets[key].expenses else 0)
      && balance[i] == (if key in buckets then buckets[key].balance else 0)
  {
    income, expenses, balance := [], [], [];
    var m := 1;
    while m < 13
      invariant 1 <= m <= 13
      invariant |income| == m - 1 && |expenses| == m - 1 && |balance| == m - 1
      invariant forall i :: 0 <= i < m - 1 ==>
        var key := MonthKey(year, i + 1);
        && income[i] == (if key in buckets then buckets[key].income else 0)
        && expenses[i] == (if key in buckets then buckets[key].expenses else 0)
        && balance[i] == (if key in buckets then buckets[key].balance else 0)
    {
      var key := MonthKey(year, m);
      var data := if key in buckets then buckets[key] else Bucket(0, 0, 0);
      income := income + [data.income];
      expenses := expenses + [data.expenses];
      balance := balance + [data.balance];
      m := m + 1;
    }
  }

  /** Totals of the first n months of the selected year. */
  function SumMonths(rows: seq<Row>, year: int, n: nat): int
    requires n <= 12
  {
    if n == 0 then 0 else SumMonths(rows, year, n - 1) + Total(rows, year, MonthKey(year, n))
  }

  /** What a row adds to the first n months. */
  function ContributionUpTo(row: Row, year: int, n: nat): int {
    var e := Entry(row, year);
    if e.Some? && ParseDate(row[0]).value.month <= n then e.value.1 else 0
  }

  lemma {:induction false} SumMonthsEmpty(year: int, n: nat)
    requires n <= 12
    ensures SumMonths([], year, n) == 0
  {
    if n > 0 {
      SumMonthsEmpty(year, n - 1);
    }
  }

  /** A row dated in month m lands in slot m and in no other. */
  lemma ContributionStep(r: Row, year: int, n: nat)
    requires 1 <= n <= 12
    ensures ContributionUpTo(r, year, n) == ContributionUpTo(r, year, n - 1) + AmountFor(Entry(r, year), MonthKey(year, n))
  {
    var e := Entry(r, year);
    if e.Some? {
      var m := ParseDate(r[0]).value.month;
      assert e.value.0 == MonthKey(year, m);
      if e.value.0 == MonthKey(year, n) {
        MonthKeyInjective(year, m, n);
      }
    }
  }

  lemma {:induction false} SumMonthsSnoc(pre: seq<Row>, r: Row, year: int, n: nat)
    requires n <= 12
    ensures SumMonths(pre + [r], year, n) == SumMonths(pre, year, n) + ContributionUpTo(r, year, n)
  {
    if n > 0 {
      SumMonthsSnoc(pre, r, year, n - 1);
      var rows := pre + [r];
      assert rows[..|rows| - 1] == pre && rows[|rows| - 1] == r;
      var key := MonthKey(year, n);
      assert Total(rows, year, key) == Total(pre, year, key) + AmountFor(Entry(r, year), key);
      ContributionStep(r, year, n);
    }
  }

  /** The twelve months together hold every amount the year's rows contribute. */
  lemma {:induction false} SumMonthsIsGrandTotal(rows: seq<Row>, year: int)
    ensures SumMonths(rows, year, 12) == GrandTotal(rows, year)
    decreases |rows|
  {
    if rows == [] {
      SumMonthsEmpty(year, 12);
    } else {
      var pre, r := rows[..|rows| - 1], rows[|rows| - 1];
      assert rows == pre + [r];
      SumMonthsSnoc(pre, r, year, 12);
      SumMonthsIsGrandTotal(pre, year);
    }
  }

  lemma {:induction false} ChartPrefixSum(chart: seq<int>, rows: seq<Row>, year: int, n: nat)
    requires |chart| == 12 && n <= 12
    requires forall i :: 0 <= i < 12 ==> chart[i] == Total(rows, year, MonthKey(year, i + 1))
    ensures Sum(chart[..n]) == SumMonths(rows, year, n)
  {
    if n > 0 {
      ChartPrefixSum(chart, rows, year, n - 1);
      assert chart[..n][..n - 1] == chart[..n - 1];
    }
  }

  /** A twelve-slot series of month totals sums to the year's total. */
  lemma ChartSum(chart: seq<int>, rows: seq<Row>, year: int)
    requires |chart| == 12
    requires forall i :: 0 <= i < 12 ==> chart[i] == Total(rows, year, MonthKey(year, i + 1))
    ensures Sum(chart) == GrandTotal(rows, year)
  {
    ChartPrefixSum(chart, rows, year, 12);
    assert chart[..12] == chart;
    SumMonthsIsGrandTotal(rows, year);
  }

  /** The bucket a month key ends up with. */
  function BucketFor(incomeRows: seq<Row>, expenseRows: seq<Row>, year: int, key: string): (b: Bucket)
    ensures b.balance == b.income - b.expenses
  {
    var inc := Total(incomeRows, year, key);
    var exp := Total(expenseRows, year, key);
    Bucket(inc, exp, inc - exp)
  }

  /** The buckets after both sheets are read and balances added: one per
      month key with data, holding that key's totals. */
  ghost predicate BucketsOf(buckets: map<string, Bucket>, incomeRows: seq<Row>, expenseRows: seq<Row>, year: int) {
    && buckets.Keys == Keys(incomeRows, year) + Keys(expenseRows, year)
    && (forall k :: k in buckets ==> buckets[k] == BucketFor(incomeRows, expenseRows, year, k))
  }

  lemma BucketsFromPasses(incomeRows: seq<Row>, expenseRows: seq<Row>, year: int,
                          first: map<string, Totals>, summary: map<string, Totals>, buckets: map<string, Bucket>)
    requires first.Keys == Keys(incomeRows, year)
    requires forall k :: k in first ==> first[k].income == Total(incomeRows, year, k) && first[k].expenses == 0
    requires summary.Keys == first.Keys + Keys(expenseRows, year)
    requires forall k :: k in summary ==> summary[k].expenses == FieldOr0(first, k, Expenses) + Total(expenseRows, year, k)
    requires forall k :: k in summary ==> summary[k].income == FieldOr0(first, k, Income)
    requires buckets.Keys == summary.Keys
    requires forall k :: k in buckets ==>
      && buckets[k].income == summary[k].income
      && buckets[k].expenses == summary[k].expenses
      && buckets[k].balance == buckets[k].income - buckets[k].expenses
    ensures BucketsOf(buckets, incomeRows, expenseRows, year)
  {
    forall k | k in buckets
      ensures buckets[k] == BucketFor(incomeRows, expenseRows, year, k)
    {
      if k !in first {
        TotalOutsideKeys(incomeRows, year, k);
      }
    }
  }

  /** Reading a month's slot out of the buckets gives that month's totals,
      0 for a month without a bucket. */
  lemma SlotTotals(buckets: map<string, Bucket>, incomeRows: seq<Row>, expenseRows: seq<Row>, year: int, key: string)
    requires BucketsOf(buckets, incomeRows, expenseRows, year)
    ensures (if key in buckets then buckets[key].income else 0) == Total(incomeRows, year, key)
    ensures (if key in buckets then buckets[key].expenses else 0) == Total(expenseRows, year, key)
  {
    if key !in buckets {
      TotalOutsideKeys(incomeRows, year, key);
      TotalOutsideKeys(expenseRows, year, key);
    }
  }

  /** The dashboard's aggregation, from the two sheets' rows and the selected
      year to summary_data and the three chart series. */
  method Aggregate(incomeRows: seq<Row>, expenseRows: seq<Row>, year: int)
    returns (summaryData: seq<(string, Bucket)>, chartIncome: seq<int>, chartExpenses: seq<int>, chartBalance: seq<int>)
    ensures forall k :: k in MonthsOf(summaryData) <==> k in Keys(incomeRows, year) + Keys(expenseRows, year)
    ensures StrictlySorted(MonthsOf(summaryData))
    ensures forall i :: 0 <= i < |summaryData| ==>
      summaryData[i].1 == BucketFor(incomeRows, expenseRows, year, summaryData[i].0)
    ensures |chartIncome| == 12 && |chartExpenses| == 12 && |chartBalance| == 12
    ensures forall i :: 0 <= i < 12 ==>
      && chartIncome[i] == Total(incomeRows, year, MonthKey(year, i + 1))
      && chartExpenses[i] == Total(expenseRows, year, MonthKey(year, i + 1))
      && chartBalance[i] == chartIncome[i] - chartExpenses[i]
    ensures Sum(chartIncome) == GrandTotal(incomeRows, year)
    ensures Sum(chartExpenses) == GrandTotal(expenseRows, year)
  {
    var first := ProcessData(map[], incomeRows, Income, year);
    var summary := ProcessData(first, expenseRows, Expenses, year);
    var buckets := AddBalances(summary);
    BucketsFromPasses(incomeRows, expenseRows, year, first, summary, buckets);
    summaryData := SummaryData(buckets);
    chartIncome, chartExpenses, chartBalance := ChartSeries(buckets, year);
    forall i | 0 <= i < 12
      ensures chartIncome[i] == Total(incomeRows, year, MonthKey(year, i + 1))
      ensures chartExpenses[i] == Total(expenseRows, year, MonthKey(year, i + 1))
    {
      SlotTotals(buckets, incomeRows, expenseRows, year, MonthKey(year, i + 1));
    }
    ChartSum(chartIncome, incomeRows, year);
    ChartSum(chartExpenses, expenseRows, year);
  }
}
