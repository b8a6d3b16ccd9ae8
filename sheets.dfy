/** The row bookkeeping between the app and the spreadsheet: the category
    column read from a sheet, the numbering of data rows (the header sits in
    row 1, so the first record is sheet row 2), and the A1 range an edit or a
    delete addresses. */
module Sheets {

  import opened Text

  type Row = seq<string>

  /** get_categories: the first cell of every non-empty row, in sheet order
      (the API leaves out trailing empty cells, so an empty category cell
      arrives as an empty row). */
  function CategoryNames(values: seq<Row>): (names: seq<string>)
    ensures |names| <= |values|
  {
    if values == [] then []
    else
      var last := values[|values| - 1];
      CategoryNames(values[..|values| - 1]) + (if |last| > 0 then [last[0]] else [])
  }

  /** A name is listed exactly when some non-empty row starts with it. */
  lemma {:induction false} CategoryNamesMembers(values: seq<Row>)
    ensures forall x :: x in CategoryNames(values) <==> exists k :: 0 <= k < |values| && |values[k]| > 0 && values[k][0] == x
    decreases |values|
  {
    if values != [] {
      var pre := values[..|values| - 1];
      CategoryNamesMembers(pre);
      forall x | x in CategoryNames(values)
        ensures exists k :: 0 <= k < |values| && |values[k]| > 0 && values[k][0] == x
      {
        if x in CategoryNames(pre) {
          var k :| 0 <= k < |pre| && |pre[k]| > 0 && pre[k][0] == x;
          assert values[k] == pre[k];
        } else {
          assert values[|values| - 1][0] == x;
        }
      }
      forall x | exists k :: 0 <= k < |values| && |values[k]| > 0 && values[k][0] == x
        ensures x in CategoryNames(values)
      {
        var k :| 0 <= k < |values| && |values[k]| > 0 && values[k][0] == x;
        if k < |pre| {
          assert pre[k] == values[k];
        }
      }
    }
  }

  /** Names keep the order of their rows: the names of a sheet read in two
      parts are those of the first part followed by those of the second. */
  lemma {:induction false} CategoryNamesConcat(a: seq<Row>, b: seq<Row>)
    ensures CategoryNames(a + b) == CategoryNames(a) + CategoryNames(b)
    decreases |b|
  {
    if b == [] {
      assert a + b == a;
    } else {
      CategoryNamesConcat(a, b[..|b| - 1]);
      assert (a + b)[..|a + b| - 1] == a + b[..|b| - 1];
    }
  }

  /** When no row is empty, every row gives its name at its own position. */
  lemma {:induction false} CategoryNamesOfFullColumn(values: seq<Row>)
    requires forall k :: 0 <= k < |values| ==> |values[k]| > 0
    ensures |CategoryNames(values)| == |values|
    ensures forall k :: 0 <= k < |values| ==> CategoryNames(values)[k] == values[k][0]
    decreases |values|
  {
    if values != [] {
      CategoryNamesOfFullColumn(values[..|values| - 1]);
    }
  }

  /** The sheet row of the record at position rowIndex of the data read from
      A2 downwards: `row_index + 2`. */
  function SheetRow(rowIndex: nat): (row: nat)
    ensures row >= 2
  {
    rowIndex + 2
  }

  /** A record together with the sheet row it was read from. */
  datatype IndexedRow = IndexedRow(index: nat, data: Row)

  /** get_sheet_data_with_index: enumerate from 2, one entry per record; the
      numbering never names the header row, gives every record its own row
      and follows the order of the records. */
  method WithIndex(values: seq<Row>) returns (indexed: seq<IndexedRow>)
    ensures |indexed| == |values|
    ensures forall k :: 0 <= k < |values| ==> indexed[k].data == values[k]
    ensures forall k :: 0 <= k < |values| ==> indexed[k].index == SheetRow(k)
    ensures forall k :: 0 <= k < |indexed| ==> indexed[k].index != 1
    ensures forall j, k :: 0 <= j < k < |indexed| ==> indexed[j].index < indexed[k].index
  {
    indexed := [];
    var i := 2;
    for k := 0 to |values|
      invariant i == k + 2
      invariant |indexed| == k
      invariant forall j :: 0 <= j < k ==> indexed[j] == IndexedRow(SheetRow(j), values[j])
    {
      indexed := indexed + [IndexedRow(i, values[k])];
      i := i + 1;
    }
  }

  /** `f"{sheet.capitalize()}!A{sheet_row}:D{sheet_row}"`: columns A to D of
      the record's sheet row in the sheet named after the route. */
  function RowRange(sheet: string, rowIndex: nat): (r: string)
    ensures Capitalize(sheet) + "!A" <= r
  {
    var n := NatToString(SheetRow(rowIndex));
    Capitalize(sheet) + "!A" + n + ":D" + n
  }

  /** The range reads back as one sheet row: between "!A" and ":D", and after
      ":D", stands the same unpadded decimal number, rowIndex + 2. */
  lemma RowRangeShape(sheet: string, rowIndex: nat)
    ensures exists n: string ::
      && RowRange(sheet, rowIndex) == Capitalize(sheet) + "!A" + n + ":D" + n
      && AllDigits(n) && n[0] != '0' && ParseNat(n) == rowIndex + 2
  {
    var n := NatToString(SheetRow(rowIndex));
    ParseNatToString(SheetRow(rowIndex));
    assert RowRange(sheet, rowIndex) == Capitalize(sheet) + "!A" + n + ":D" + n;
  }

  lemma DigitsBeforeColon(s1: string, s2: string, t1: string, t2: string)
    requires AllDigits(s1) && AllDigits(s2)
    requires s1 + ":D" + t1 == s2 + ":D" + t2
    ensures s1 == s2
  {
    var a := s1 + ":D" + t1;
    assert forall k :: 0 <= k < |s1| ==> IsDigit(a[k]);
    assert !IsDigit(a[|s1|]);
    assert forall k :: 0 <= k < |s2| ==> IsDigit(a[k]);
    assert !IsDigit(a[|s2|]);
    assert |s1| == |s2|;
    assert s1 == a[..|s1|];
    assert s2 == a[..|s2|];
  }

  /** Two different records of one sheet are never addressed by the same
      range, so an edit or a delete touches exactly the record it names. */
  lemma RowRangeInjective(sheet: string, i: nat, j: nat)
    requires RowRange(sheet, i) == RowRange(sheet, j)
    ensures i == j
  {
    var ni := NatToString(SheetRow(i));
    var nj := NatToString(SheetRow(j));
    RangeTail(Capitalize(sheet), ni);
    RangeTail(Capitalize(sheet), nj);
    DigitsBeforeColon(ni, nj, ni, nj);
    NatToStringInjective(SheetRow(i), SheetRow(j));
  }

  /** What follows the sheet name and "!A" in a range. */
  lemma RangeTail(name: string, n: string)
    ensures (name + "!A" + n + ":D" + n)[|name| + 2..] == n + ":D" + n
  {
    assert name + "!A" + n + ":D" + n == (name + "!A") + (n + ":D" + n);
  }

  lemma UpperLower(c: char)
    ensures UpperChar(LowerChar(c)) == UpperChar(c)
    ensures LowerChar(LowerChar(c)) == LowerChar(c)
    ensures LowerChar(UpperChar(c)) == LowerChar(c)
  {
  }

  /** The route's sheet segment is matched without regard to case:
      "income", "INCOME" and "Income" address the same sheet, and a name
      already capitalized is left as it is. */
  lemma CapitalizeIgnoresCase(s: string)
    ensures Capitalize(LowerAll(s)) == Capitalize(s)
    ensures Capitalize(Capitalize(s)) == Capitalize(s)
  {
    if s != [] {
      UpperLower(s[0]);
      var t := s[1..];
      assert LowerAll(s)[1..] == LowerAll(t);
      assert LowerAll(LowerAll(t)) == LowerAll(t) by {
        forall k | 0 <= k < |t| ensures LowerAll(LowerAll(t))[k] == LowerAll(t)[k] {
          UpperLower(t[k]);
        }
      }
      assert Capitalize(s)[1..] == LowerAll(t);
    }
  }
}
