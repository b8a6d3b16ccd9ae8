/** Dates as the application reads and writes them: `datetime.strptime` with
    the formats "%Y-%m-%d" and "%Y-%m", the `format_date`, `format_month` and
    `monthname` template filters. strptime works by matching a regular
    expression built from the format and then checking that nothing is left
    over; the functions below follow that expression alternative by
    alternative, in the order Python tries them. */
module Dates {

  import opened Wrappers
  import opened Text

  datatype Date = Date(year: nat, month: nat, day: nat)

  predicate IsLeapYear(y: int) {
    y % 4 == 0 && (y % 100 != 0 || y % 400 == 0)
  }

  /** Length of a month in the proleptic Gregorian calendar that `datetime` uses. */
  function DaysInMonth(y: int, m: nat): (n: nat)
    requires 1 <= m <= 12
    ensures 28 <= n <= 31
    ensures n == 29 <==> m == 2 && IsLeapYear(y)
  {
    if m == 2 then (if IsLeapYear(y) then 29 else 28)
    else if m == 4 || m == 6 || m == 9 || m == 11 then 30
    else 31
  }

  /** A date that `datetime.date` accepts: years 1 to 9999, months 1 to 12,
      days within the month. */
  predicate ValidDate(d: Date) {
    1 <= d.year <= 9999 && 1 <= d.month <= 12 && 1 <= d.day <= DaysInMonth(d.year, d.month)
  }

  /** What one alternative of a directive matched: its value and its width in characters. */
  datatype Token = Token(value: nat, width: nat)

  /** The texts `%m` matches for month v: v in decimal with one digit or
      with two, so zero padded or not. */
  predicate MonthText(t: string, v: nat) {
    || (|t| == 1 && IsDigit(t[0]) && DigitValue(t[0]) == v)
    || (|t| == 2 && IsDigit(t[0]) && IsDigit(t[1]) && 10 * DigitValue(t[0]) + DigitValue(t[1]) == v)
  }

  /** The texts `%d` matches for day v: those of `%m`, or a space and one digit. */
  predicate DayText(t: string, v: nat) {
    MonthText(t, v) || (|t| == 2 && t[0] == ' ' && IsDigit(t[1]) && DigitValue(t[1]) == v)
  }

  /** The alternatives of `%m`, `1[0-2]|0[1-9]|[1-9]`, that match at the start
      of t, in the order the regular expression tries them. */
  function MonthAlternatives(t: string): (r: seq<Token>)
    ensures forall i :: 0 <= i < |r| ==> 1 <= r[i].value <= 12 && 1 <= r[i].width <= 2 && r[i].width <= |t|
    ensures forall i :: 0 <= i < |r| ==> MonthText(t[..r[i].width], r[i].value)
  {
    (if |t| >= 2 && t[0] == '1' && '0' <= t[1] <= '2' then [Token(10 + DigitValue(t[1]), 2)] else [])
    + (if |t| >= 2 && t[0] == '0' && '1' <= t[1] <= '9' then [Token(DigitValue(t[1]), 2)] else [])
    + (if |t| >= 1 && '1' <= t[0] <= '9' then [Token(DigitValue(t[0]), 1)] else [])
  }

  /** The first alternative of `%d`, `3[01]|[12]\d|0[1-9]|[1-9]| [1-9]`, that
      matches at the start of t. */
  function DayToken(t: string): (r: Option<Token>)
    ensures r.Some? ==> 1 <= r.value.value <= 31 && 1 <= r.value.width <= 2 && r.value.width <= |t|
    ensures r.Some? ==> DayText(t[..r.value.width], r.value.value)
  {
    if |t| >= 2 && t[0] == '3' && '0' <= t[1] <= '1' then Some(Token(30 + DigitValue(t[1]), 2))
    else if |t| >= 2 && '1' <= t[0] <= '2' && IsDigit(t[1]) then Some(Token(10 * DigitValue(t[0]) + DigitValue(t[1]), 2))
    else if |t| >= 2 && t[0] == '0' && '1' <= t[1] <= '9' then Some(Token(DigitValue(t[1]), 2))
    else if |t| >= 1 && '1' <= t[0] <= '9' then Some(Token(DigitValue(t[0]), 1))
    else if |t| >= 2 && t[0] == ' ' && '1' <= t[1] <= '9' then Some(Token(DigitValue(t[1]), 2))
    else None
  }

  /** The match of `%m-%d` at the start of t: the expression backtracks through
      the month alternatives until a hyphen and a day follow. The result is
      (month, day, characters matched). */
  function MatchMonthDay(alts: seq<Token>, t: string): (r: Option<(nat, nat, nat)>)
    requires forall i :: 0 <= i < |alts| ==> 1 <= alts[i].value <= 12 && 1 <= alts[i].width <= 2 && alts[i].width <= |t|
    ensures r.Some? ==> 1 <= r.value.0 <= 12 && 1 <= r.value.1 <= 31 && r.value.2 <= |t|
    decreases |alts|
  {
    if alts == [] then None
    else
      var w := alts[0].width;
      if w < |t| && t[w] == '-' && DayToken(t[w + 1..]).Some? then
        var d := DayToken(t[w + 1..]).value;
        Some((alts[0].value, d.value, w + 1 + d.width))
      else MatchMonthDay(alts[1..], t)
  }

  /** What `%m-%d` matches is a month spelling, a hyphen and a day spelling
      of the month and day it yields. */
  lemma {:induction false} MatchMonthDaySound(alts: seq<Token>, t: string)
    requires forall i :: 0 <= i < |alts| ==> 1 <= alts[i].value <= 12 && 1 <= alts[i].width <= 2 && alts[i].width <= |t|
    requires forall i :: 0 <= i < |alts| ==> MonthText(t[..alts[i].width], alts[i].value)
    ensures var r := MatchMonthDay(alts, t);
      r.Some? ==> MonthDayText(t[..r.value.2], r.value.0, r.value.1)
    decreases |alts|
  {
    if alts != [] {
      var w := alts[0].width;
      if w < |t| && t[w] == '-' && DayToken(t[w + 1..]).Some? {
        var d := DayToken(t[w + 1..]).value;
        var n := w + 1 + d.width;
        assert t[..n][..w] == t[..w] && t[..n][w] == '-' && t[..n][w + 1..] == t[w + 1..][..d.width];
        assert MonthText(t[..n][..w], alts[0].value) && DayText(t[..n][w + 1..], d.value);
      } else {
        MatchMonthDaySound(alts[1..], t);
      }
    }
  }

  /** Text made of a month spelling, a hyphen and a day spelling. */
  predicate MonthDayText(t: string, m: nat, d: nat) {
    exists mw :: 1 <= mw <= 2 && mw < |t| && MonthText(t[..mw], m) && t[mw] == '-' && DayText(t[mw + 1..], d)
  }

  /** `datetime.strptime(s, "%Y-%m-%d")`: None where it raises ValueError (no
      match, unconverted data left over, or a date `datetime` rejects). */
  function ParseDate(s: string): (r: Option<Date>)
    ensures r.Some? ==> ValidDate(r.value)
    ensures r.Some? ==>
      && |s| >= 5 && AllDigits(s[..4]) && ParseNat(s[..4]) == r.value.year && s[4] == '-'
      && MonthDayText(s[5..], r.value.month, r.value.day)
  {
    if |s| < 5 || !AllDigits(s[..4]) || s[4] != '-' then None
    else
      MatchMonthDaySound(MonthAlternatives(s[5..]), s[5..]);
      match MatchMonthDay(MonthAlternatives(s[5..]), s[5..])
      case None => None
      case Some((m, d, width)) =>
        if width != |s| - 5 then None
        else
          assert s[5..][..width] == s[5..];
          ParseNatBound(s[..4]);
          var date := Date(ParseNat(s[..4]), m, d);
          if ValidDate(date) then Some(date) else None
  }

  /** `datetime.strptime(s, "%Y-%m")`: the year and month, or None. The day
      defaults to 1, so only year 0 is rejected after the match. */
  function ParseYearMonth(s: string): (r: Option<(nat, nat)>)
    ensures r.Some? ==> 1 <= r.value.0 <= 9999 && 1 <= r.value.1 <= 12
    ensures r.Some? ==>
      && |s| >= 6 && AllDigits(s[..4]) && ParseNat(s[..4]) == r.value.0 && s[4] == '-'
      && MonthText(s[5..], r.value.1)
  {
    if |s| < 5 || !AllDigits(s[..4]) || s[4] != '-' then None
    else
      var alts := MonthAlternatives(s[5..]);
      ParseNatBound(s[..4]);
      if alts == [] || alts[0].width != |s| - 5 || ParseNat(s[..4]) == 0 then None
      else
        assert s[5..][..alts[0].width] == s[5..];
        Some((ParseNat(s[..4]), alts[0].value))
  }

  /** `%Y` as `strftime` writes it with the C library of a Linux host: the year in decimal, unpadded. */
  function YearText(y: nat): (s: string)
    ensures |s| >= 1 && AllDigits(s) && ParseNat(s) == y
    ensures s[0] == '0' ==> y == 0
  {
    ParseNatToString(y);
    NatToString(y)
  }

  /** The `format_date` filter: a date cell `YYYY-MM-DD` becomes `DD/MM/YYYY`;
      anything strptime rejects is returned unchanged. */
  function FormatDate(s: string): (r: string)
    ensures ParseDate(s).None? ==> r == s
    ensures ParseDate(s).Some? ==>
      var d := ParseDate(s).value;
      && |r| >= 7 && r[2] == '/' && r[5] == '/'
      && AllDigits(r[..2]) && ParseNat(r[..2]) == d.day
      && AllDigits(r[3..5]) && ParseNat(r[3..5]) == d.month
      && AllDigits(r[6..]) && ParseNat(r[6..]) == d.year
  {
    match ParseDate(s)
    case None => s
    case Some(d) =>
      var r := Pad2(d.day) + "/" + Pad2(d.month) + "/" + YearText(d.year);
      assert r[..2] == Pad2(d.day) && r[3..5] == Pad2(d.month) && r[6..] == NatToString(d.year);
      ParseNatToString(d.year);
      r
  }

  /** English month names as `calendar.month_name` holds them; entry 0 is empty. */
  const MonthNames: seq<string> := ["", "January", "February", "March", "April", "May", "June",
    "July", "August", "September", "October", "November", "December"]

  /** The table has an empty entry 0 and twelve different, non-empty month names. */
  lemma MonthNamesTable()
    ensures |MonthNames| == 13 && MonthNames[0] == ""
    ensures forall i :: 1 <= i <= 12 ==> |MonthNames[i]| >= 3
    ensures forall i, j :: 1 <= i < j <= 12 ==> MonthNames[i] != MonthNames[j]
  {
  }

  /** The `format_month` filter: `YYYY-MM` becomes e.g. "July 2025"; anything
      strptime rejects is returned unchanged. */
  function FormatMonth(s: string): (r: string)
    ensures ParseYearMonth(s).None? ==> r == s
    ensures ParseYearMonth(s).Some? ==>
      var (y, m) := ParseYearMonth(s).value;
      && |r| > |MonthNames[m]| + 1
      && r[..|MonthNames[m]|] == MonthNames[m] && r[|MonthNames[m]|] == ' '
      && AllDigits(r[|MonthNames[m]| + 1..]) && ParseNat(r[|MonthNames[m]| + 1..]) == y
  {
    match ParseYearMonth(s)
    case None => s
    case Some((y, m)) =>
      var r := MonthNames[m] + " " + YearText(y);
      assert r[..|MonthNames[m]|] == MonthNames[m] && r[|MonthNames[m]| + 1..] == NatToString(y);
      ParseNatToString(y);
      r
  }

  /** The `monthname` filter, `calendar.month_name[int(m)]`: the table is
      indexed like a Python list, so -13..-1 count from the end, and any
      other index (or a string int() rejects) raises. */
  function MonthNameFilter(m: string): (r: Option<string>)
    ensures ParseInt(m).Some? && 1 <= ParseInt(m).value <= 12 ==> r == Some(MonthNames[ParseInt(m).value])
    ensures ParseInt(m).Some? && -12 <= ParseInt(m).value <= -1 ==> r == Some(MonthNames[13 + ParseInt(m).value])
    ensures ParseInt(m) == Some(0) || ParseInt(m) == Some(-13) ==> r == Some("")
    ensures ParseInt(m).None? || ParseInt(m).value < -13 || ParseInt(m).value > 12 ==> r.None?
  {
    match ParseInt(m)
    case None => None
    case Some(i) =>
      if 0 <= i < 13 then Some(MonthNames[i])
      else if -13 <= i < 0 then Some(MonthNames[13 + i])
      else None
  }

  /** A date written the way the entry forms store it: `YYYY-MM-DD`, zero padded. */
  function IsoText(d: Date): (s: string)
    requires ValidDate(d)
    ensures |s| == 10
  {
    Pad4(d.year) + "-" + Pad2(d.month) + "-" + Pad2(d.day)
  }

  /** strptime reads back every date written as `YYYY-MM-DD`. */
  lemma ParseIsoText(d: Date)
    requires ValidDate(d)
    ensures ParseDate(IsoText(d)) == Some(d)
  {
    Pad2Text(d.month);
    Pad2Text(d.day);
    ParseDateSpelled(Pad4(d.year), Pad2(d.month), Pad2(d.day), d);
  }

  /** `%02d` output is a spelling `%m` and `%d` accept. */
  lemma Pad2Text(n: nat)
    requires n < 100
    ensures MonthText(Pad2(n), n) && DayText(Pad2(n), n)
  {
    var p := Pad2(n);
    assert p[..1][..0] == [];
    assert ParseNat(p) == ParseNat(p[..1]) * 10 + DigitValue(p[1]);
  }

  /** format_date on a stored `YYYY-MM-DD` cell gives `DD/MM/YYYY`. */
  lemma FormatIsoText(d: Date)
    requires ValidDate(d)
    ensures FormatDate(IsoText(d)) == Pad2(d.day) + "/" + Pad2(d.month) + "/" + YearText(d.year)
  {
    ParseIsoText(d);
  }

  /** A month spelling followed by no further digit is the first `%m` alternative. */
  lemma MonthTextFirst(mt: string, rest: string, m: nat)
    requires 1 <= m <= 12 && MonthText(mt, m)
    requires |rest| == 0 || !IsDigit(rest[0])
    ensures |MonthAlternatives(mt + rest)| >= 1 && MonthAlternatives(mt + rest)[0] == Token(m, |mt|)
  {
    var t := mt + rest;
    assert t[0] == mt[0];
    if |mt| == 1 {
      assert MonthAlternatives(t) == [Token(m, 1)];
    } else {
      assert t[1] == mt[1];
    }
  }

  /** Every spelling of a day 1..31 is matched whole by `%d`. */
  lemma DayTextToken(dt: string, d: nat)
    requires 1 <= d <= 31 && DayText(dt, d)
    ensures DayToken(dt) == Some(Token(d, |dt|))
  {
  }

  /** strptime with "%Y-%m-%d" accepts every spelling of a valid date: four
      year digits, a hyphen, a month spelling, a hyphen and a day spelling.
      With the contract of ParseDate this makes the result exactly the date
      the text spells. */
  lemma ParseDateSpelled(y: string, mt: string, dt: string, d: Date)
    requires ValidDate(d) && |y| == 4 && AllDigits(y) && ParseNat(y) == d.year
    requires MonthText(mt, d.month) && DayText(dt, d.day)
    ensures ParseDate(y + "-" + mt + "-" + dt) == Some(d)
  {
    SplitAt(y, mt + "-" + dt);
    assert y + "-" + mt + "-" + dt == y + "-" + (mt + "-" + dt) by {
      SplitAt(y, mt + "-" + dt);
    }
    MatchSpelled(mt, dt, d.month, d.day);
  }

  /** The parts of text joined by a hyphen. */
  lemma SplitAt(a: string, b: string)
    ensures (a + "-" + b)[..|a|] == a && (a + "-" + b)[|a|] == '-' && (a + "-" + b)[|a| + 1..] == b
    ensures a + "-" + b == a + ("-" + b)
  {
  }

  /** The backtracking `%m-%d` match takes a month spelling, a hyphen and a
      day spelling whole. */
  lemma MatchSpelled(mt: string, dt: string, m: nat, d: nat)
    requires 1 <= m <= 12 && MonthText(mt, m) && 1 <= d <= 31 && DayText(dt, d)
    ensures MatchMonthDay(MonthAlternatives(mt + "-" + dt), mt + "-" + dt) == Some((m, d, |mt| + 1 + |dt|))
  {
    var t := mt + "-" + dt;
    assert MonthAlternatives(t) != [] && MonthAlternatives(t)[0] == Token(m, |mt|) by {
      SplitAt(mt, dt);
      MonthTextFirst(mt, "-" + dt, m);
    }
    assert |mt| < |t| && t[|mt|] == '-' && DayToken(t[|mt| + 1..]) == Some(Token(d, |dt|)) by {
      SplitAt(mt, dt);
      DayTextToken(dt, d);
    }
    MatchFirst(MonthAlternatives(t), t, m, d, |mt|, |dt|);
  }

  /** The match stops at the first month alternative followed by a hyphen and a day. */
  lemma MatchFirst(alts: seq<Token>, t: string, m: nat, d: nat, w: nat, n: nat)
    requires forall i :: 0 <= i < |alts| ==> 1 <= alts[i].value <= 12 && 1 <= alts[i].width <= 2 && alts[i].width <= |t|
    requires alts != [] && alts[0] == Token(m, w) && w < |t| && t[w] == '-'
    requires DayToken(t[w + 1..]) == Some(Token(d, n))
    ensures MatchMonthDay(alts, t) == Some((m, d, w + 1 + n))
  {
  }

  /** strptime with "%Y-%m" accepts every year of four digits followed by a
      hyphen and a month spelling. */
  lemma ParseYearMonthSpelled(y: string, mt: string, m: nat)
    requires |y| == 4 && AllDigits(y) && ParseNat(y) >= 1
    requires 1 <= m <= 12 && MonthText(mt, m)
    ensures ParseYearMonth(y + "-" + mt) == Some((ParseNat(y), m))
  {
    var s := y + "-" + mt;
    assert s[..4] == y && s[4] == '-' && s[5..] == mt + [];
    MonthTextFirst(mt, [], m);
  }

  /** `format_month` reads a stored `YYYY-MM` value as its year and month. */
  lemma ParseYearMonthIso(y: nat, m: nat)
    requires 1 <= y <= 9999 && 1 <= m <= 12
    ensures ParseYearMonth(Pad4(y) + "-" + Pad2(m)) == Some((y, m))
  {
    ParseYearMonthSpelled(Pad4(y), Pad2(m), m);
  }

  lemma Year2024()
    ensures AllDigits("2024") && ParseNat("2024") == 2024
  {
    assert "2024"[..3] == "202" && "202"[..2] == "20" && "20"[..1] == "2" && "2"[..0] == "";
  }

  /** strptime accepts a one-digit month and day: "2024-7-5" is 5 July 2024. */
  lemma OneDigitFieldsAccepted()
    ensures ParseDate("2024-7-5") == Some(Date(2024, 7, 5))
  {
    var t := "7-5";
    assert "2024-7-5"[5..] == t && "2024-7-5"[..4] == "2024";
    Year2024();
    assert MonthAlternatives(t) == [Token(7, 1)];
    assert t[2..] == "5";
    assert DayToken("5") == Some(Token(5, 1));
    assert MatchMonthDay([Token(7, 1)], t) == Some((7, 5, 3));
  }

  /** format_date writes such a date back zero padded. */
  lemma OneDigitFieldsPadded()
    ensures FormatDate("2024-7-5") == "05/07/2024"
  {
    OneDigitFieldsAccepted();
    YearText2024();
    assert Pad2(5) == "05" && Pad2(7) == "07";
    assert FormatDate("2024-7-5") == Pad2(5) + "/" + Pad2(7) + "/" + YearText(2024);
  }

  lemma YearText2024()
    ensures YearText(2024) == "2024"
  {
    assert NatToString(2) == "2";
    assert NatToString(20) == NatToString(2) + "0";
    assert NatToString(202) == NatToString(20) + "2";
    assert NatToString(2024) == NatToString(202) + "4";
  }

  /** strptime accepts a space-padded day: "2024-07- 5". */
  lemma SpacePaddedDayAccepted()
    ensures ParseDate("2024-07- 5") == Some(Date(2024, 7, 5))
  {
    var t := "07- 5";
    assert "2024-07- 5"[5..] == t && "2024-07- 5"[..4] == "2024";
    Year2024();
    assert MonthAlternatives(t) == [Token(7, 2)];
    assert t[3..] == " 5";
    assert DayToken(" 5") == Some(Token(5, 2));
    assert MatchMonthDay([Token(7, 2)], t) == Some((7, 5, 5));
  }

  /** 29 February exists in 2024 and not in 2023. */
  lemma LeapDay()
    ensures ParseDate("2024-02-29") == Some(Date(2024, 2, 29))
    ensures ParseDate("2023-02-29") == None
  {
    var t := "02-29";
    assert "2024-02-29"[5..] == t && "2024-02-29"[..4] == "2024";
    Year2024();
    assert MonthAlternatives(t) == [Token(2, 2)];
    assert t[3..] == "29";
    assert DayToken("29") == Some(Token(29, 2));
    assert MatchMonthDay([Token(2, 2)], t) == Some((2, 29, 5));
  }

  /** Month 13 is no month: "2024-13-99" matches "1" as the month and then
      finds no hyphen. */
  lemma MonthThirteenRejected()
    ensures ParseDate("2024-13-99") == None
  {
    var t := "13-99";
    assert "2024-13-99"[5..] == t;
    assert MonthAlternatives(t) == [Token(1, 1)];
  }

  /** Year 0 matches `%Y` but `datetime` rejects it. */
  lemma YearZeroRejected()
    ensures ParseDate("0000-01-01") == None
  {
    assert "0000-01-01"[..4] == "0000";
    assert "0000"[..3] == "000" && "000"[..2] == "00" && "00"[..1] == "0" && "0"[..0] == "";
    assert ParseNat("0000") == 0;
  }

  /** Text after the day is unconverted data, which strptime rejects. */
  lemma TrailingTextRejected()
    ensures ParseDate("2024-01-01 ") == None
  {
    var t := "01-01 ";
    assert "2024-01-01 "[5..] == t;
    assert MonthAlternatives(t) == [Token(1, 2)];
    assert t[3..] == "01 ";
    assert DayToken("01 ") == Some(Token(1, 2));
    assert MatchMonthDay([Token(1, 2)], t) == Some((1, 1, 5));
  }
}
