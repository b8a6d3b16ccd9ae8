# catat-inventaris: the bookkeeping aggregation, modelled in Dafny

catat-inventaris is a small Flask application. It keeps an organisation's
income and expenses in a Google Sheets spreadsheet: one sheet per stream, one
record per row (date, item, category, amount), with a header in row 1. This
project models the logic that turns those rows into what the pages show. It
covers:

- **Dashboard** (`dashboard.dfy`). Every income and expense row whose date
  falls in the selected year is read. Its amount is added to the bucket of
  its month, keyed `"YYYY-MM"`. Each bucket then gets `balance = income -
  expenses`. The buckets are listed in ascending key order, and three
  12-slot chart series are filled, with 0 for months without data.
- **Income and expenses pages** (`ledger.dfy`). These keep the rows of a
  selected month and year, look up the month's name, and sum the amounts per
  category. The result is two parallel chart sequences (labels and sums),
  with labels in the order the categories first appear.
- **Template filters and parsing** (`dates.dfy`, `amounts.dfy`, `text.dfy`).
  These are `datetime.strptime` with `"%Y-%m-%d"` and `"%Y-%m"`,
  `format_date`, `format_month` and `monthname`. Amount cells are read by
  deleting every `.` and `,` and then calling `int()`. `text.dfy` also holds
  Python's `str()` of integers and Python's string order, which `sorted()`
  uses.
- **Sheet bookkeeping** (`sheets.dfy`). This is the category column
  comprehension of `get_categories` and the row numbering of
  `get_sheet_data_with_index`. It also covers the sheet row
  (`row_index + 2`) and the A1 range that edit and delete address.

The rows a sheet returns are a parameter of type `seq<seq<string>>`. A failed
parse, which Python signals with `ValueError` or `IndexError`, is `None` of
an `Option`. A row that raises is passed over, exactly as the `try`/`except
... continue` blocks do. The loops run over the rows and write into a
dictionary; they are methods. Each method is proved against a specification function
that recurses over the rows: `Total`, `Keys`, `Filtered`, `Labels` and
`CategoryTotal`.

The dashboard creates a bucket only for a month that received a row.
`summary_data` lists only those months, and the chart series always have 12
slots. The income and expenses pages look up
`calendar.month_name[int(selected_month)]`; a selector that is not an index of
that table makes the request fail, and `Ledger.PeriodPage` returns None then.

How `strptime` is modelled (`Dates.ParseDate`). Python builds a regular
expression from the format and then checks that nothing is left over:

- `%Y` is four digits.
- `%m` is `1[0-2]|0[1-9]|[1-9]`. It backtracks when no hyphen follows.
- `%d` is `3[01]|[12]\d|0[1-9]|[1-9]| [1-9]`.
- Year 0 and days past the end of the month are then rejected by `datetime`.

`Dates.MonthText` and `Dates.DayText` name the spellings these accept: one or
two digits, and for a day also a space and one digit. `ParseDate` accepts a
text exactly when it is four year digits, a hyphen, a month spelling, a
hyphen and a day spelling of a valid date, and then returns that date.

So `"2024-7-5"` and `"2024-07- 5"` are dates, while `"2024-13-99"`,
`"0000-01-01"` and `"2024-01-01 "` are not.

## Model

| member | source | states |
|---|---|---|
| Text.ParseInt | app.py:123 | `int()` on text: a result exactly for ASCII digits, optionally after one `-` or `+`, so never for empty text |
| Text.ParseNegative | app.py:198 | a minus sign before digits reads as the negated number |
| Text.IntToString | app.py:146 | `str()` of an integer: a leading `-` exactly for negative numbers, digits after it |
| Text.ParseIntToString | app.py:123 | `int(str(i)) == i` for every integer |
| Text.NatToString | app.py:193 | `str()` of a natural number: non-empty decimal digits, with a leading `0` only for 0 |
| Text.ParseNatToString | app.py:193 | the decimal text `str()` writes reads back as the same number |
| Text.NatToStringInjective | app.py:193 | different numbers have different `str()` texts, so the filter's string comparison compares numbers |
| Text.Pad2 | app.py:146 | `{m:02d}`: exactly two digits that read back as m |
| Text.Pad4 | app.py:56 | four-digit zero-padded year text that reads back as the year |
| Text.ParseNatBound | app.py:120 | four digits read as a number below 10000 |
| Text.LessIrreflexive | app.py:137 | Python's string order, used by `sorted`, is irreflexive |
| Text.LessTransitive | app.py:137 | the order is transitive |
| Text.LessTotal | app.py:137 | any two different strings are ordered one way or the other |
| Text.LessAsymmetric | app.py:137 | no two strings are each below the other |
| Text.LessCommonPrefix | app.py:137 | a common prefix does not change the order |
| Text.LowerAll | app.py:315 | the lower-casing part of `str.capitalize`, character by character |
| Text.Capitalize | app.py:315 | `str.capitalize` keeps the length |
| Dates.DaysInMonth | app.py:120 | month lengths 28 to 31; 29 exactly for February of a Gregorian leap year |
| Dates.MonthAlternatives | app.py:120 | every `%m` alternative that matches is a month 1..12 of width 1 or 2, and the characters it covers spell that month |
| Dates.MonthTextFirst | app.py:120 | a month spelling not followed by another digit is the first alternative `%m` tries, with its value and width |
| Dates.DayToken | app.py:120 | the `%d` alternative that matches is a day 1..31 of width 1 or 2, and the characters it covers spell that day |
| Dates.DayTextToken | app.py:120 | every spelling of a day 1..31 is matched whole by `%d` |
| Dates.MatchMonthDay | app.py:120 | the backtracking `%m-%d` match yields a month 1..12 and a day 1..31 within the text |
| Dates.MatchMonthDaySound | app.py:120 | what `%m-%d` matched is a spelling of the month it yields, a hyphen and a spelling of the day it yields |
| Dates.MatchSpelled | app.py:120 | a month spelling, a hyphen and a day spelling are matched whole, as that month and day |
| Dates.ParseDate | app.py:120 | `strptime(s, "%Y-%m-%d")` yields only dates `datetime` accepts, and only for text that is four digits reading as the year, a hyphen, and a month spelling, a hyphen and a day spelling of that date |
| Dates.ParseDateSpelled | app.py:120 | every such spelling of a valid date is accepted as that date, so with the contract of ParseDate the accepted texts are exactly these |
| Dates.ParseYearMonth | app.py:65 | `strptime(s, "%Y-%m")` yields a year 1..9999 and a month 1..12, and only for text that is four digits reading as the year, a hyphen and a spelling of the month |
| Dates.ParseYearMonthSpelled | app.py:65 | every year of four digits other than 0000 followed by a hyphen and a month spelling is accepted as that year and month |
| Dates.ParseYearMonthIso | app.py:65 | a stored `YYYY-MM` value reads back as its year and month |
| Dates.YearText | app.py:57 | `%Y` writes a year as digits that read back as the year, with no leading zero except for 0 |
| Dates.FormatDate | app.py:53-59 | text strptime rejects comes back unchanged; a date becomes `DD/MM/YYYY` whose fields read back as its day, month and year |
| Dates.FormatMonth | app.py:63-68 | text strptime rejects comes back unchanged; otherwise the English month name, a space and the year, which reads back |
| Dates.MonthNamesTable | app.py:72 | `calendar.month_name` has an empty entry 0 and twelve different month names |
| Dates.MonthNameFilter | app.py:71-72 | `calendar.month_name[int(m)]`: months 1..12 give their names, -12..-1 index from the end, 0 and -13 give the empty entry, other numbers and non-numbers raise (None) |
| Dates.IsoText | app.py:56 | a date written `YYYY-MM-DD` is ten characters |
| Dates.ParseIsoText | app.py:56 | strptime reads back every valid date written `YYYY-MM-DD` |
| Dates.Pad2Text | app.py:56 | a two-digit zero-padded number is a spelling `%m` and `%d` accept |
| Dates.FormatIsoText | app.py:53-59 | `format_date` of a stored `YYYY-MM-DD` date is its zero-padded `DD/MM/YYYY` |
| Dates.Year2024 | app.py:120 | the year field "2024" is all digits and reads as 2024 |
| Dates.YearText2024 | app.py:57 | `%Y` writes 2024 as "2024" |
| Dates.OneDigitFieldsAccepted | app.py:120 | "2024-7-5" is 5 July 2024 |
| Dates.OneDigitFieldsPadded | app.py:57 | `format_date("2024-7-5")` is "05/07/2024" |
| Dates.SpacePaddedDayAccepted | app.py:120 | "2024-07- 5" is 5 July 2024 |
| Dates.LeapDay | app.py:120 | 29 February exists in 2024 and not in 2023 |
| Dates.MonthThirteenRejected | app.py:120 | "2024-13-99" is not a date |
| Dates.YearZeroRejected | app.py:120 | "0000-01-01" is not a date |
| Dates.TrailingTextRejected | app.py:120 | "2024-01-01 " is not a date (unconverted data remains) |
| Amounts.ParseAmount | app.py:123 | an amount cell of plain digits reads as its number; an empty cell does not read |
| Amounts.RemoveAll | app.py:123 | `s.replace(c, "")` leaves no c, is no longer than s and keeps only characters of s |
| Amounts.RemoveAllConcat | app.py:123 | deleting a character distributes over concatenation |
| Amounts.RemoveAllCommute | app.py:205 | deleting two characters in either order gives the same text |
| Amounts.StripSeparators | app.py:123 | the stripped amount has no `.` or `,` and only characters of the cell |
| Amounts.StripOrderIrrelevant | app.py:205 | the pages' `,`-then-`.` stripping equals the dashboard's `.`-then-`,` |
| Amounts.StripConcat | app.py:123 | stripping distributes over concatenation |
| Amounts.SeparatorIgnored | app.py:123 | a separator anywhere in a cell does not change the amount read |
| Amounts.RemoveAllAbsent | app.py:123 | a cell without the character is left as it is |
| Amounts.StripGrouped | app.py:123 | digit groups joined by a `.` separator strip to the digits alone |
| Amounts.StripHundredThousand | app.py:123 | "100.000" strips to "100000" |
| Amounts.ReadHundredThousand | app.py:123 | `int("100000")` is 100000 |
| Amounts.ThousandsSeparatorDeleted | app.py:123 | the amount "100.000" is 100000, not a decimal |
| Amounts.NonNumericRejected | app.py:123 | the amount "abc" does not read |
| Sorting.Insert | app.py:137 | inserting a new key into a strictly sorted list keeps it strictly sorted, with exactly one more element |
| Sorting.SortedKeys | app.py:137 | `sorted(monthly_summary.keys())`: strictly ascending, exactly the keys, each once |
| Sorting.FirstIsLeast | app.py:137 | the first key of a sorted listing is below all others |
| Sorting.SortedUnique | app.py:137 | two strictly sorted listings of the same keys are equal, so the order is fully determined |
| Dashboard.MonthKey | app.py:121 | the month key ends in the two-digit month |
| Dashboard.MonthKeyInjective | app.py:146 | different months of a year have different keys |
| Dashboard.Pad2Order | app.py:137 | two-digit months sort as their numbers do |
| Dashboard.MonthKeyOrder | app.py:137 | keys of one year sort in calendar order (both directions) |
| Dashboard.Entry | app.py:119-124 | a row contributes exactly when it has four cells, its date reads in the selected year and its amount reads; it then adds that amount under its month's key |
| Dashboard.TotalOutsideKeys | app.py:117-126 | a key no row reaches has total 0 |
| Dashboard.Snoc | app.py:117-126 | one more row adds its amount to its own key only, and adds its key |
| Dashboard.SkippedRowInert | app.py:117-126 | a row that is short, undated, of another year or with an unreadable amount changes no total, no key and no grand total, wherever it stands |
| Dashboard.KeysAreMonthKeys | app.py:120-121 | every bucket key is `MonthKey(year, m)` for a month 1..12 of the selected year |
| Dashboard.Added | app.py:124 | `bucket[tipe] += amount` grows the stream's field by the amount and leaves the other field as it was |
| Dashboard.Bump | app.py:124 | `monthly_summary[key][tipe] += amount`: the key exists afterwards, the stream's field grows by the amount, the other field and the other keys are unchanged |
| Dashboard.AccumulateRow | app.py:118-124 | a contributing row keeps the accumulation in step with the rows read |
| Dashboard.SkipRow | app.py:125-126 | a skipped row keeps the accumulation in step |
| Dashboard.ProcessRow | app.py:118-126 | one row: no change when it raises, otherwise its amount is bumped into its month's bucket |
| Dashboard.ProcessData | app.py:117-126 | after `process_data`, the keys are the old keys plus the months with data, each stream field is the old value plus the month's total, and the other field is unchanged |
| Dashboard.AddBalances | app.py:132-134 | every bucket keeps income and expenses and gets `balance == income - expenses` |
| Dashboard.SummaryData | app.py:137-138 | summary_data lists exactly the buckets, in strictly ascending key order, each with its own bucket |
| Dashboard.ChartSeries | app.py:143-150 | three series of exactly 12 entries; slot m-1 is the bucket's field for `f"{year}-{m:02d}"`, or 0 |
| Dashboard.SumMonthsEmpty | app.py:143-150 | no rows give zero in every month |
| Dashboard.ContributionStep | app.py:143-150 | a row's contribution to months 1..n grows by its amount in month n |
| Dashboard.SumMonthsSnoc | app.py:143-150 | the 12-month total grows by one row's contribution |
| Dashboard.SumMonthsIsGrandTotal | app.py:143-150 | the twelve monthly totals add up to the total of every contributing amount |
| Dashboard.ChartPrefixSum | app.py:145-150 | the first n chart slots add up to the first n monthly totals |
| Dashboard.ChartSum | app.py:145-150 | a 12-slot chart adds up to the total of the contributing amounts of its stream |
| Dashboard.BucketFor | app.py:132-134 | a month's bucket satisfies the balance identity |
| Dashboard.BucketsFromPasses | app.py:128-134 | after both passes and the balance loop, each bucket is the month's income total, expense total and their difference |
| Dashboard.SlotTotals | app.py:146-147 | a chart slot, with its default of 0, equals the month's total |
| Dashboard.Aggregate | app.py:114-150 | summary_data has exactly the months that received a valid row, strictly ascending, each with income, expense totals and balance; the charts have 12 slots equal to the monthly totals, balance is income minus expenses, and each chart adds up to its stream's total |
| Ledger.InPeriod | app.py:192-193 | a kept row's date reads, and the month and year selectors read back through `int()` as its month and year |
| Ledger.FilterByPeriod | app.py:189-196 | the filter loop returns the rows of the period in sheet order |
| Ledger.FilteredMembers | app.py:189-196 | a row is kept exactly when it is in the sheet, its date reads and `str(month)` and `str(year)` equal the selectors |
| Ledger.FilteredConcat | app.py:189-196 | filtering keeps sheet order across any split of the rows |
| Ledger.PaddedSelectorMatchesNothing | app.py:193 | a selector with a leading zero, such as "07", keeps no row |
| Ledger.CategoryAmount | app.py:205 | the pages read an amount as the dashboard does |
| Ledger.CategoryEntry | app.py:204-205 | a row adds an amount exactly when it has four cells and its amount reads as the dashboard reads it; it adds that amount under its category row[2] |
| Ledger.RepeatedCategoryChartedOnce | app.py:201-217 | categories Food, Food, Transport chart as [Food, Transport], with the two Food amounts added |
| Ledger.SameCategoryTwice | app.py:201-206 | two rows of one category give one label whose sum is both amounts, and nothing for any other category |
| Ledger.LabelsAreCategories | app.py:201-217 | chart labels have no duplicates and are exactly the categories that received an amount |
| Ledger.CategoryTotalOutside | app.py:201-206 | a category no row reaches sums to 0 |
| Ledger.LabelsPrefix | app.py:201-206 | reading more rows only appends labels |
| Ledger.FirstSeenOrder | app.py:201-217 | labels are in first-seen order: once a prefix of the rows has brought in a label, it has brought in every earlier label |
| Ledger.SumOverStep | app.py:206 | one row changes the category sums by its amount under its own category only |
| Ledger.LabelSumsCoverTotal | app.py:201-217 | the category sums add up to the total of every amount read |
| Ledger.LabelSumsStep | app.py:201-217 | one more row keeps the category sums equal to the amount total |
| Ledger.RowSnoc | app.py:202-208 | a skipped row adds no label and no amount |
| Ledger.ChartDataSum | app.py:216-217 | chart_data adds up to the total of the amounts read |
| Ledger.SumParallel | app.py:216-217 | parallel chart data adds up to the sums of its labels |
| Ledger.SkipTally | app.py:207-208 | a row that raises leaves the dictionary in step |
| Ledger.CategorySnoc | app.py:204-206 | one more row appends its category if new and adds its amount to that category |
| Ledger.AddToTally | app.py:206 | a row of a known category keeps the dictionary in step |
| Ledger.InsertIntoTally | app.py:206 | a row of a new category appends it with its amount |
| Ledger.TallyStep | app.py:202-208 | every row keeps the dictionary in step, whatever it holds |
| Ledger.ChartOfTally | app.py:216-217 | the lists read off the dictionary pair each label with its sum and add up to the total |
| Ledger.TallyRow | app.py:203-208 | one row: no change when row[2] or row[3] is missing or the amount does not read, otherwise its amount is added to its category, which is appended when new |
| Ledger.TallyRows | app.py:201-208 | the category loop ends with the labels in first-seen order and each category's sum |
| Ledger.CategoryTotals | app.py:201-217 | chart_labels are the categories in first-seen order; chart_data is parallel, holds each label's sum and adds up to the total read |
| Ledger.PeriodPage | app.py:185-217 | the page fails exactly when the month selector has no month name; otherwise it shows the rows of the period in sheet order, the month's name, and distinct labels for exactly the categories present, in the order they first appear among those rows (`Labels`), each with its sum, adding up to the total read |
| Sheets.CategoryNames | app.py:90 | one name at most per row |
| Sheets.CategoryNamesMembers | app.py:90 | a name is listed exactly when a non-empty row starts with it |
| Sheets.CategoryNamesConcat | app.py:90 | names keep the order of their rows |
| Sheets.CategoryNamesOfFullColumn | app.py:90 | without empty rows, name k is the first cell of row k |
| Sheets.SheetRow | app.py:309 | `row_index + 2` never addresses the header row |
| Sheets.WithIndex | app.py:280-299 | one entry per record, carrying the record and its sheet row k + 2; indexes never name the header and strictly increase |
| Sheets.RowRange | app.py:315 | the range starts with the capitalized sheet name and `!A` |
| Sheets.RowRangeShape | app.py:315 | the range is the capitalized sheet name, `!A`, the row number, `:D`, and the same number, written in unpadded decimal and reading back as row_index + 2 |
| Sheets.DigitsBeforeColon | app.py:334 | the row number in a range is delimited by `:D` |
| Sheets.RowRangeInjective | app.py:329-334 | two different row indexes never address the same range, so a delete clears only its own record |
| Sheets.UpperLower | app.py:315 | ASCII case mapping is idempotent |
| Sheets.CapitalizeIgnoresCase | app.py:315 | the sheet segment of the route is case-insensitive, and capitalizing twice changes nothing |

## Left out

- Flask routing, request parameters, `render_template`, `jsonify` and the POST handlers that append rows are not modelled. The rows come in as a parameter.
- The Google Sheets calls are not modelled: `get_data`, the fetch in `get_categories`, and the append, update and clear calls in the edit and delete routes. So the models stop at the values fetched and the range string.
- `format_rupiah` is not modelled, because it is floating-point formatting.
- Ledger.CategoryAmount: `float()` is modelled as integer reading. The pages sum floats. After the separators are deleted, an amount is a digit string, and its float sum is exact below 2^53. The model does not capture rounding above that, nor `float()` accepting `"inf"`, `"nan"` or exponents such as `"1e5"`.
- Text.ParseInt: the full grammar of `int()` is not modelled. That grammar allows surrounding whitespace, `_` between digits and non-ASCII digits. The model reads an optional sign followed by ASCII digits. Python 3.11 and later also refuse a decimal string of more than 4300 digits with `ValueError`. The model reads such text: the dashboard would skip that amount (app.py:123), and `int(selected_month)` (app.py:198) would fail the page.
- Dates.ParseDate: ASCII digits only. `strptime` also accepts other Unicode decimal digits.
- Dates.YearText: `%Y` is written unpadded, as the C library of a Linux host does. Other platforms pad years below 1000 to four digits.
- Dashboard.MonthKey: the bucket key of app.py:122 (`strftime("%Y-%m")`) is written with the same unpadded `%Y`, as `str(year)`; on a platform that pads years below 1000, those buckets would not match the chart keys built at app.py:146.
- Text.Capitalize: ASCII only. Python's case mapping of other letters is not modelled.
- The defaults `datetime.now().month` and `datetime.now().year` for the selectors are not modelled. Flask's fallback when `year` is not an integer is not modelled either. The selectors are parameters.
- The dashboard's `chart_labels` list (app.py:140) is entries 1 to 12 of the constant table `Dates.MonthNames` (see `Dates.MonthNamesTable`) and is not a separate member.
- The lookup of the category range by column name in `get_categories` is not modelled; only its list comprehension is.
- Which number the templates send as `row_index` is not part of this model. The templates are not part of it.
- The balance loop writes `balance` into the existing dictionaries. `Dashboard.AddBalances` builds a new map holding the same values instead.
- A category sheet with an empty first cell followed by other cells is a non-empty row whose first cell is `""`. `Sheets.CategoryNames` lists it as `""`, as the comprehension does.
