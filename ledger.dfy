/** The income and expenses pages (the two routes run the same code on
    different sheets): the rows of the selected month and year are listed,
    and their amounts are summed per category into two parallel chart
    sequences, labels in the order the categories first appear. */
module Ledger {

  import opened Wrappers
  import opened Text
  import opened Dates
  import opened Amounts

  type Row = seq<string>

  /** The page's filter test: the date cell reads, and str() of its month and
      of its year equal the `month` and `year` query strings. */
  predicate InPeriod(row: Row, month: string, year: string)
    ensures InPeriod(row, month, year) ==>
      && |row| >= 1 && ParseDate(row[0]).Some?
      && ParseInt(month) == Some(ParseDate(row[0]).value.month as int)
      && ParseInt(year) == Some(ParseDate(row[0]).value.year as int)
  {
    if |row| >= 1 && ParseDate(row[0]).Some? then
      var d := ParseDate(row[0]).value;
      ParseIntToString(d.month);
      ParseIntToString(d.year);
      NatToString(d.month) == month && NatToString(d.year) == year
    else false
  }

  /** The rows the page keeps, in sheet order. */
  function Filtered(rows: seq<Row>, month: string, year: string): seq<Row> {
    if rows == [] then []
    else
      var last := rows[|rows| - 1];
      Filtered(rows[..|rows| - 1], month, year) + (if InPeriod(last, month, year) then [last] else [])
  }

  /** The filter loop: rows whose date does not read are passed over, the
      others are appended when their month and year match. */
  method FilterByPeriod(rows: seq<Row>, month: string, year: string) returns (filtered: seq<Row>)
    ensures filtered == Filtered(rows, month, year)
  {
    filtered := [];
    var i := 0;
    while i < |rows|
      invariant 0 <= i <= |rows|
      invariant filtered == Filtered(rows[..i], month, year)
    {
      var row := rows[i];
      FilteredSnoc(rows, i, month, year);
      if |row| >= 1 {
        var rowDate := ParseDate(row[0]);
        if rowDate.Some? {
          if NatToString(rowDate.value.month) == month && NatToString(rowDate.value.year) == year {
            filtered := filtered + [row];
          }
        }
      }
      i := i + 1;
    }
    assert rows[..|rows|] == rows;
  }

  lemma FilteredSnoc(rows: seq<Row>, i: nat, month: string, year: string)
    requires i < |rows|
    ensures Filtered(rows[..i + 1], month, year)
            == Filtered(rows[..i], month, year) + (if InPeriod(rows[i], month, year) then [rows[i]] else [])
  {
    assert rows[..i + 1][..i] == rows[..i];
  }

  /** Exactly the matching rows are kept. */
  lemma {:induction false} FilteredMembers(rows: seq<Row>, month: string, year: string)
    ensures forall r :: r in Filtered(rows, month, year) <==> r in rows && InPeriod(r, month, year)
    decreases |rows|
  {
    if rows != [] {
      var pre := rows[..|rows| - 1];
      FilteredMembers(pre, month, year);
      assert rows == pre + [rows[|rows| - 1]];
    }
  }

  /** Filtering a sheet split in two filters each part and keeps them in
      order: the page lists matching rows in their sheet order. */
  lemma {:induction false} FilteredConcat(a: seq<Row>, b: seq<Row>, month: string, year: string)
    ensures Filtered(a + b, month, year) == Filtered(a, month, year) + Filtered(b, month, year)
    decreases |b|
  {
    if b == [] {
      assert a + b == a;
    } else {
      var b' := b[..|b| - 1];
      var last := b[|b| - 1];
      var kept := if InPeriod(last, month, year) then [last] else [];
      FilteredConcat(a, b', month, year);
      assert (a + b)[..|a + b| - 1] == a + b' && (a + b)[|a + b| - 1] == last;
      assert Filtered(a + b, month, year) == Filtered(a + b', month, year) + kept;
      assert Filtered(b, month, year) == Filtered(b', month, year) + kept;
    }
  }

  /** A zero-padded selector such as "07" (or a year such as "02024")
      matches no row, because str() never writes a leading zero. */
  lemma {:induction false} PaddedSelectorMatchesNothing(rows: seq<Row>, month: string, year: string)
    requires (|month| >= 1 && month[0] == '0') || (|year| >= 1 && year[0] == '0')
    ensures Filtered(rows, month, year) == []
    decreases |rows|
  {
    if rows != [] {
      PaddedSelectorMatchesNothing(rows[..|rows| - 1], month, year);
      var last := rows[|rows| - 1];
      if |last| >= 1 && ParseDate(last[0]).Some? {
        var d := ParseDate(last[0]).value;
        assert NatToString(d.month)[0] != '0' && NatToString(d.year)[0] != '0';
      }
    }
  }

  /** The amount of a category row: `float(row[3].replace(",", "").replace(".", ""))`,
      read here as an integer. */
  function CategoryAmount(s: string): (r: Option<int>)
    ensures r == ParseAmount(s)
  {
    StripOrderIrrelevant(s);
    ParseInt(RemoveAll(RemoveAll(s, ','), '.'))
  }

  /** What a filtered row adds to category_totals: its category and amount;
      None when row[2] or row[3] is missing or the amount does not read. */
  function CategoryEntry(row: Row): (e: Option<(string, int)>)
    ensures e.Some? <==> |row| >= 4 && ParseAmount(row[3]).Some?
    ensures e.Some? ==> e.value == (row[2], ParseAmount(row[3]).value)
  {
    if |row| < 4 then None
    else
      var amount := CategoryAmount(row[3]);
      if amount.None? then None else Some((row[2], amount.value))
  }

  /** The keys of category_totals in insertion order: each category once, at
      the row where it first contributes. */
  function Labels(rows: seq<Row>): seq<string> {
    if rows == [] then []
    else
      var pre := Labels(rows[..|rows| - 1]);
      var e := CategoryEntry(rows[|rows| - 1]);
      pre + (if e.Some? && e.value.0 !in pre then [e.value.0] else [])
  }

  /** Two rows of one category f: one label, their amounts added. */
  lemma SameCategoryTwice(r1: Row, r2: Row, f: string, t: string, a: int, b: int)
    requires f != t
    requires CategoryEntry(r1) == Some((f, a))
    requires CategoryEntry(r2) == Some((f, b))
    ensures Labels([r1, r2]) == [f]
    ensures CategoryTotal([r1, r2], f) == a + b
    ensures CategoryTotal([r1, r2], t) == 0
  {
    var s0: seq<Row> := [];
    var s1: seq<Row> := [r1];
    assert Labels(s1) == [f] && CategoryTotal(s1, f) == a && CategoryTotal(s1, t) == 0 by {
      CategorySnoc(s0, r1, f, a);
      assert s0 + [r1] == s1;
      assert Labels(s0) == [] && CategoryTotal(s0, f) == 0 && CategoryTotal(s0, t) == 0;
    }
    var s2 := s1 + [r2];
    assert Labels(s2) == [f] && CategoryTotal(s2, f) == a + b && CategoryTotal(s2, t) == 0 by {
      CategorySnoc(s1, r2, f, b);
      assert f in Labels(s1);
    }
    assert s2 == [r1, r2];
  }

  /** Rows of categories f, f, t (say Food, Food, Transport), in that order,
      chart as [f, t], with the two amounts of f added together. */
  lemma RepeatedCategoryChartedOnce(r1: Row, r2: Row, r3: Row, f: string, t: string, a: int, b: int, c: int)
    requires f != t
    requires CategoryEntry(r1) == Some((f, a))
    requires CategoryEntry(r2) == Some((f, b))
    requires CategoryEntry(r3) == Some((t, c))
    ensures Labels([r1, r2, r3]) == [f, t]
    ensures CategoryTotal([r1, r2, r3], f) == a + b
    ensures CategoryTotal([r1, r2, r3], t) == c
  {
    SameCategoryTwice(r1, r2, f, t, a, b);
    CategorySnoc([r1, r2], r3, t, c);
    assert [r1, r2] + [r3] == [r1, r2, r3];
  }

  /** The categories that at least one row contributes to. */
  function Categories(rows: seq<Row>): set<string> {
    if rows == [] then {}
    else
      var e := CategoryEntry(rows[|rows| - 1]);
      Categories(rows[..|rows| - 1]) + (if e.Some? then {e.value.0} else {})
  }

  /** The sum of one category's amounts. */
  function CategoryTotal(rows: seq<Row>, category: string): int {
    if rows == [] then 0
    else
      var e := CategoryEntry(rows[|rows| - 1]);
      CategoryTotal(rows[..|rows| - 1], category) + (if e.Some? && e.value.0 == category then e.value.1 else 0)
  }

  predicate Distinct(s: seq<string>) {
    forall i, j :: 0 <= i < j < |s| ==> s[i] != s[j]
  }

  /** The labels are the contributing categories, each once. */
  lemma {:induction false} LabelsAreCategories(rows: seq<Row>)
    ensures Distinct(Labels(rows))
    ensures forall c :: c in Labels(rows) <==> c in Categories(rows)
    decreases |rows|
  {
    if rows != [] {
      LabelsAreCategories(rows[..|rows| - 1]);
    }
  }

  lemma {:induction false} CategoryTotalOutside(rows: seq<Row>, category: string)
    requires category !in Categories(rows)
    ensures CategoryTotal(rows, category) == 0
    decreases |rows|
  {
    if rows != [] {
      CategoryTotalOutside(rows[..|rows| - 1], category);
    }
  }

  /** Reading more rows only appends labels: the labels of a prefix of the
      rows are a prefix of the labels of all of them. */
  lemma {:induction false} LabelsPrefix(rows: seq<Row>, n: nat)
    requires n <= |rows|
    ensures |Labels(rows[..n])| <= |Labels(rows)|
    ensures Labels(rows[..n]) == Labels(rows)[..|Labels(rows[..n])|]
    decreases |rows| - n
  {
    if n == |rows| {
      assert rows[..n] == rows;
    } else {
      var pre := rows[..|rows| - 1];
      assert pre[..n] == rows[..n];
      LabelsPrefix(pre, n);
    }
  }

  /** First-seen order: whenever the first n rows have brought in a label,
      they have brought in every label listed before it. */
  lemma FirstSeenOrder(rows: seq<Row>, n: nat, i: nat, j: nat)
    requires n <= |rows| && i < j < |Labels(rows)|
    requires Labels(rows)[j] in Categories(rows[..n])
    ensures Labels(rows)[i] in Categories(rows[..n])
  {
    LabelsPrefix(rows, n);
    LabelsAreCategories(rows[..n]);
    LabelsAreCategories(rows);
    var p := Labels(rows[..n]);
    var k :| 0 <= k < |p| && p[k] == Labels(rows)[j];
    assert k == j;
    assert p[i] == Labels(rows)[i];
  }

  /** The total of every amount the category loop reads. */
  function AmountTotal(rows: seq<Row>): int {
    if rows == [] then 0
    else
      var e := CategoryEntry(rows[|rows| - 1]);
      AmountTotal(rows[..|rows| - 1]) + (if e.Some? then e.value.1 else 0)
  }

  /** The category sums of the given labels, added up. */
  function SumOver(rows: seq<Row>, labels: seq<string>): int {
    if labels == [] then 0
    else SumOver(rows, labels[..|labels| - 1]) + CategoryTotal(rows, labels[|labels| - 1])
  }

  /** One more row changes the sum over distinct labels by its amount when
      its category is among them, and not at all otherwise. */
  lemma {:induction false} SumOverStep(pre: seq<Row>, row: Row, labels: seq<string>)
    requires Distinct(labels)
    ensures var e := CategoryEntry(row);
            SumOver(pre + [row], labels)
            == SumOver(pre, labels) + (if e.Some? && e.value.0 in labels then e.value.1 else 0)
    decreases |labels|
  {
    if labels != [] {
      var init := labels[..|labels| - 1];
      var last := labels[|labels| - 1];
      assert labels == init + [last];
      assert last !in init by {
        forall k | 0 <= k < |init| ensures init[k] != last {
          assert labels[k] != labels[|labels| - 1];
        }
      }
      SumOverStep(pre, row, init);
      assert (pre + [row])[..|pre + [row]| - 1] == pre;
    }
  }

  /** The category chart accounts for every amount read: its sums add up
      to the total of the contributing rows. */
  lemma {:induction false} LabelSumsCoverTotal(rows: seq<Row>)
    ensures SumOver(rows, Labels(rows)) == AmountTotal(rows)
    decreases |rows|
  {
    if rows != [] {
      var pre := rows[..|rows| - 1];
      var row := rows[|rows| - 1];
      assert rows == pre + [row];
      LabelSumsCoverTotal(pre);
      LabelSumsStep(pre, row);
    }
  }

  /** One more row keeps the category sums equal to the amount total. */
  lemma LabelSumsStep(pre: seq<Row>, row: Row)
    requires SumOver(pre, Labels(pre)) == AmountTotal(pre)
    ensures SumOver(pre + [row], Labels(pre + [row])) == AmountTotal(pre + [row])
  {
    var post := pre + [row];
    var labels := Labels(pre);
    LabelsAreCategories(pre);
    SumOverStep(pre, row, labels);
    RowSnoc(pre, row);
    if CategoryEntry(row).Some? {
      var c := CategoryEntry(row).value.0;
      var a := CategoryEntry(row).value.1;
      assert Labels(post) == labels + (if c !in labels then [c] else [])
        && CategoryTotal(post, c) == CategoryTotal(pre, c) + a by {
        CategorySnoc(pre, row, c, a);
      }
      assert AmountTotal(post) == AmountTotal(pre) + a;
      if c in labels {
        assert Labels(post) == labels;
        assert SumOver(post, labels) == SumOver(pre, labels) + a;
      } else {
        assert Labels(post) == labels + [c];
        assert SumOver(post, labels) == SumOver(pre, labels);
        assert CategoryTotal(pre, c) == 0 by {
          CategoryTotalOutside(pre, c);
        }
        SumOverAppend(post, labels, c);
      }
    }
  }

  /** A label added at the end adds its category's sum. */
  lemma SumOverAppend(rows: seq<Row>, labels: seq<string>, c: string)
    ensures SumOver(rows, labels + [c]) == SumOver(rows, labels) + CategoryTotal(rows, c)
  {
    assert (labels + [c])[..|labels|] == labels;
  }

  lemma RowSnoc(pre: seq<Row>, row: Row)
    ensures CategoryEntry(row).None? ==> Labels(pre + [row]) == Labels(pre)
    ensures AmountTotal(pre + [row])
            == AmountTotal(pre) + (if CategoryEntry(row).Some? then CategoryEntry(row).value.1 else 0)
  {
    assert (pre + [row])[..|pre|] == pre;
  }

  /** The chart data of a page adds up to the total it read. */
  lemma ChartDataSum(rows: seq<Row>, labels: seq<string>, data: seq<int>)
    requires labels == Labels(rows) && |data| == |labels|
    requires forall i :: 0 <= i < |labels| ==> data[i] == CategoryTotal(rows, labels[i])
    ensures Sum(data) == AmountTotal(rows)
  {
    SumParallel(rows, labels, data);
    LabelSumsCoverTotal(rows);
  }

  lemma {:induction false} SumParallel(rows: seq<Row>, labels: seq<string>, data: seq<int>)
    requires |data| == |labels|
    requires forall i :: 0 <= i < |labels| ==> data[i] == CategoryTotal(rows, labels[i])
    ensures Sum(data) == SumOver(rows, labels)
    decreases |labels|
  {
    if labels != [] {
      SumParallel(rows, labels[..|labels| - 1], data[..|data| - 1]);
    }
  }

  /** The state of the category loop after the given rows: the dictionary's
      keys in insertion order, and each key's sum. */
  ghost predicate Tallied(order: seq<string>, totals: map<string, int>, rows: seq<Row>) {
    && order == Labels(rows)
    && (forall c :: c in order <==> c in totals)
    && (forall c :: c in totals ==> totals[c] == CategoryTotal(rows, c))
  }

  /** A row the category loop passes over leaves the dictionary as it was. */
  lemma SkipTally(order: seq<string>, totals: map<string, int>, pre: seq<Row>, row: Row)
    requires Tallied(order, totals, pre) && CategoryEntry(row).None?
    ensures Tallied(order, totals, pre + [row])
  {
    assert (pre + [row])[..|pre|] == pre;
  }

  lemma CategorySnoc(pre: seq<Row>, row: Row, c: string, a: int)
    requires CategoryEntry(row) == Some((c, a))
    ensures Labels(pre + [row]) == Labels(pre) + (if c !in Labels(pre) then [c] else [])
    ensures forall x {:trigger CategoryTotal(pre, x)} ::
              CategoryTotal(pre + [row], x) == CategoryTotal(pre, x) + (if x == c then a else 0)
  {
    assert (pre + [row])[..|pre|] == pre;
  }

  /** A row of a category already in the dictionary adds its amount to that
      category's sum: `post` is `pre` and that row, as CategorySnoc describes it. */
  lemma AddToTally(order: seq<string>, totals: map<string, int>, pre: seq<Row>, post: seq<Row>, c: string, a: int)
    requires Tallied(order, totals, pre) && c in totals
    requires Labels(post) == Labels(pre) + (if c !in Labels(pre) then [c] else [])
    requires forall x :: CategoryTotal(post, x) == CategoryTotal(pre, x) + (if x == c then a else 0)
    ensures Tallied(order, totals[c := totals[c] + a], post)
  {
    var totals' := totals[c := totals[c] + a];
    assert c in Labels(pre);
    assert Labels(post) == order;
    assert forall x :: x in order <==> x in totals';
    assert forall x :: x in totals' ==> totals'[x] == CategoryTotal(post, x) by {
      forall x | x in totals'
        ensures totals'[x] == CategoryTotal(post, x)
      {
        assert CategoryTotal(post, x) == CategoryTotal(pre, x) + (if x == c then a else 0);
      }
    }
  }

  /** A row of a new category inserts it, after the categories already
      seen, with its amount as the sum. */
  lemma InsertIntoTally(order: seq<string>, totals: map<string, int>, pre: seq<Row>, row: Row, c: string, a: int)
    requires Tallied(order, totals, pre) && CategoryEntry(row) == Some((c, a)) && c !in totals
    ensures Tallied(order + [c], totals[c := a], pre + [row])
  {
    CategorySnoc(pre, row, c, a);
    LabelsAreCategories(pre);
    CategoryTotalOutside(pre, c);
    assert Labels(pre + [row]) == order + [c];
    assert CategoryTotal(pre + [row], c) == a;
  }

  /** The loop's invariant is kept by row i, whatever the row holds. */
  lemma TallyStep(order: seq<string>, totals: map<string, int>, rows: seq<Row>, i: nat)
    requires i < |rows| && Tallied(order, totals, rows[..i])
    ensures CategoryEntry(rows[i]).None? ==> Tallied(order, totals, rows[..i + 1])
    ensures CategoryEntry(rows[i]).Some? ==>
              var c := CategoryEntry(rows[i]).value.0;
              var a := CategoryEntry(rows[i]).value.1;
              Tallied(if c in totals then order else order + [c],
                      totals[c := (if c in totals then totals[c] else 0) + a], rows[..i + 1])
  {
    var row := rows[i];
    assert rows[..i + 1] == rows[..i] + [row];
    var e := CategoryEntry(row);
    if e.None? {
      SkipTally(order, totals, rows[..i], row);
    } else if e.value.0 in totals {
      CategorySnoc(rows[..i], row, e.value.0, e.value.1);
      AddToTally(order, totals, rows[..i], rows[..i] + [row], e.value.0, e.value.1);
    } else {
      InsertIntoTally(order, totals, rows[..i], row, e.value.0, e.value.1);
    }
  }

  /** The two lists read off the dictionary at the end of the loop. */
  lemma ChartOfTally(order: seq<string>, totals: map<string, int>, rows: seq<Row>, data: seq<int>)
    requires Tallied(order, totals, rows)
    requires |data| == |order| && forall j :: 0 <= j < |order| ==> order[j] in totals && data[j] == totals[order[j]]
    ensures forall i :: 0 <= i < |order| ==> data[i] == CategoryTotal(rows, order[i])
    ensures Sum(data) == AmountTotal(rows)
  {
    ChartDataSum(rows, order, data);
  }

  /** The body of the category loop for one row: read row[2] and the
      amount; an IndexError or ValueError on the way leaves the dictionary
      as it was, otherwise the amount is added to the category's sum (a
      missing key reads as 0 and is inserted after the keys present). */
  method TallyRow(order: seq<string>, totals: map<string, int>, row: Row)
    returns (order': seq<string>, totals': map<string, int>)
    ensures CategoryEntry(row).None? ==> order' == order && totals' == totals
    ensures CategoryEntry(row).Some? ==>
              var c := CategoryEntry(row).value.0;
              var a := CategoryEntry(row).value.1;
              && order' == (if c in totals then order else order + [c])
              && totals' == totals[c := (if c in totals then totals[c] else 0) + a]
  {
    order', totals' := order, totals;
    if |row| >= 3 {
      var category := row[2];
      if |row| >= 4 {
        var amount := CategoryAmount(row[3]);
        if amount.Some? {
          assert CategoryEntry(row) == Some((category, amount.value));
          var current := 0;
          if category in totals' {
            current := totals'[category];
          } else {
            order' := order' + [category];
          }
          totals' := totals'[category := current + amount.value];
        } else {
          assert CategoryEntry(row).None?;
        }
      } else {
        assert CategoryEntry(row).None?;
      }
    } else {
      assert CategoryEntry(row).None?;
    }
  }

  /** The category loop: the dictionary after every filtered row. */
  method TallyRows(rows: seq<Row>) returns (order: seq<string>, totals: map<string, int>)
    ensures Tallied(order, totals, rows)
  {
    order, totals := [], map[];
    var i := 0;
    while i < |rows|
      invariant 0 <= i <= |rows|
      invariant Tallied(order, totals, rows[..i])
    {
      TallyStep(order, totals, rows, i);
      order, totals := TallyRow(order, totals, rows[i]);
      i := i + 1;
    }
    assert rows[..|rows|] == rows;
  }

  /** category_totals and the two lists built from it: chart_labels is the
      insertion order of the categories and chart_data holds, at the same
      position, that category's sum. */
  method CategoryTotals(rows: seq<Row>) returns (labels: seq<string>, data: seq<int>)
    ensures labels == Labels(rows)
    ensures |data| == |labels|
    ensures forall i :: 0 <= i < |labels| ==> data[i] == CategoryTotal(rows, labels[i])
    ensures Sum(data) == AmountTotal(rows)
  {
    var order, totals := TallyRows(rows);
    labels := order;
    data := seq(|order|, j requires 0 <= j < |order| => totals[order[j]]);
    ChartOfTally(order, totals, rows, data);
  }

  /** What the income or expenses page renders. */
  datatype Page = Page(records: seq<Row>, monthName: string, chartLabels: seq<string>, chartData: seq<int>)

  /** One request of the income or expenses page: the rows of the selected
      month and year, the month's name and the category chart built from the
      rows. The month name is looked up after the filter; a month selector
      that is not an index of the month-name table makes the request fail
      (None). */
  method PeriodPage(rows: seq<Row>, month: string, year: string) returns (page: Option<Page>)
    ensures page.None? <==> MonthNameFilter(month).None?
    ensures page.Some? ==> page.value.monthName == MonthNameFilter(month).value
    ensures page.Some? ==> page.value.records == Filtered(rows, month, year)
    ensures page.Some? ==> forall r :: r in page.value.records <==> r in rows && InPeriod(r, month, year)
    ensures page.Some? ==> page.value.chartLabels == Labels(page.value.records)
    ensures page.Some? ==> Distinct(page.value.chartLabels)
    ensures page.Some? ==> forall c :: c in page.value.chartLabels <==> c in Categories(page.value.records)
    ensures page.Some? ==> |page.value.chartData| == |page.value.chartLabels|
    ensures page.Some? ==> forall i :: 0 <= i < |page.value.chartLabels| ==>
              page.value.chartData[i] == CategoryTotal(page.value.records, page.value.chartLabels[i])
    ensures page.Some? ==> Sum(page.value.chartData) == AmountTotal(page.value.records)
  {
    var records := FilterByPeriod(rows, month, year);
    FilteredMembers(rows, month, year);
    var monthName := MonthNameFilter(month);
    if monthName.None? {
      return None;
    }
    var chartLabels, chartData := CategoryTotals(records);
    LabelsAreCategories(records);
    page := Some(Page(records, monthName.value, chartLabels, chartData));
  }
}
