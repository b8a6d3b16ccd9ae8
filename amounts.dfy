/** Amount cells: thousands separators '.' and ',' are deleted and what is
    left is read by int(). The dashboard deletes '.' first, the income and
    expenses pages ',' first; both give the same string. */
module Amounts {

  import opened Wrappers
  import opened Text

  /** `s.replace(c, "")`: s with every occurrence of c deleted, order kept. */
  function RemoveAll(s: string, c: char): (r: string)
    ensures c !in r && |r| <= |s|
    ensures forall x :: x in r ==> x in s
  {
    if s == [] then []
    else
      assert s == [s[0]] + s[1..];
      (if s[0] == c then [] else [s[0]]) + RemoveAll(s[1..], c)
  }

  lemma {:induction false} RemoveAllConcat(a: string, b: string, c: char)
    ensures RemoveAll(a + b, c) == RemoveAll(a, c) + RemoveAll(b, c)
    decreases |a|
  {
    if a != [] {
      assert (a + b)[1..] == a[1..] + b;
      RemoveAllConcat(a[1..], b, c);
    } else {
      assert a + b == b;
    }
  }

  lemma {:induction false} RemoveAllCommute(s: string, c: char, e: char)
    ensures RemoveAll(RemoveAll(s, c), e) == RemoveAll(RemoveAll(s, e), c)
    decreases |s|
  {
    if s != [] {
      RemoveAllCommute(s[1..], c, e);
      var h := if s[0] == c then [] else [s[0]];
      var k := if s[0] == e then [] else [s[0]];
      RemoveAllConcat(h, RemoveAll(s[1..], c), e);
      RemoveAllConcat(k, RemoveAll(s[1..], e), c);
      assert RemoveAll(h, e) == RemoveAll(k, c);
      assert RemoveAll(s, c) == h + RemoveAll(s[1..], c);
      assert RemoveAll(s, e) == k + RemoveAll(s[1..], e);
    }
  }

  /** `s.replace(".", "").replace(",", "")`, as the dashboard writes it. */
  function StripSeparators(s: string): (r: string)
    ensures '.' !in r && ',' !in r
    ensures forall x :: x in r ==> x in s
  {
    RemoveAll(RemoveAll(s, '.'), ',')
  }

  /** The dashboard's reading of an amount cell: `int(s.replace(".", "").replace(",", ""))`. */
  function ParseAmount(s: string): (r: Option<int>)
    ensures r.Some? ==> |s| >= 1
    ensures |s| >= 1 && AllDigits(s) ==> r == Some(ParseNat(s))
  {
    if |s| >= 1 && AllDigits(s) then
      assert '.' !in s && ',' !in s;
      RemoveAllAbsent(s, '.');
      RemoveAllAbsent(s, ',');
      ParseInt(StripSeparators(s))
    else ParseInt(StripSeparators(s))
  }

  /** The income and expenses pages strip ',' before '.'; the result is the same string. */
  lemma StripOrderIrrelevant(s: string)
    ensures RemoveAll(RemoveAll(s, ','), '.') == StripSeparators(s)
  {
    RemoveAllCommute(s, '.', ',');
  }

  lemma StripConcat(a: string, b: string)
    ensures StripSeparators(a + b) == StripSeparators(a) + StripSeparators(b)
  {
    RemoveAllConcat(a, b, '.');
    RemoveAllConcat(RemoveAll(a, '.'), RemoveAll(b, '.'), ',');
  }

  /** A separator anywhere in a cell does not change the amount read from it. */
  lemma SeparatorIgnored(a: string, sep: char, b: string)
    requires sep == '.' || sep == ','
    ensures StripSeparators(a + [sep] + b) == StripSeparators(a + b)
    ensures ParseAmount(a + [sep] + b) == ParseAmount(a + b)
  {
    StripConcat(a + [sep], b);
    StripConcat(a, [sep]);
    StripConcat(a, b);
    assert StripSeparators([sep]) == [];
    assert StripSeparators(a) + [] == StripSeparators(a);
  }

  lemma {:induction false} RemoveAllAbsent(s: string, c: char)
    requires c !in s
    ensures RemoveAll(s, c) == s
    decreases |s|
  {
    if s != [] {
      RemoveAllAbsent(s[1..], c);
      assert s == [s[0]] + s[1..];
    }
  }

  lemma StripHundredThousand()
    ensures StripSeparators("100.000") == "100000"
  {
    StripGrouped("100", "000");
    assert "100" + ['.'] + "000" == "100.000";
    assert "100" + "000" == "100000";
  }

  /** Digit groups joined by a thousands separator strip to the digits alone. */
  lemma StripGrouped(a: string, b: string)
    requires AllDigits(a) && AllDigits(b)
    ensures StripSeparators(a + ['.'] + b) == a + b
  {
    SeparatorIgnored(a, '.', b);
    assert AllDigits(a + b);
    RemoveAllAbsent(a + b, '.');
    RemoveAllAbsent(a + b, ',');
  }

  lemma ReadHundredThousand()
    ensures ParseInt("100000") == Some(100000)
  {
    assert "1"[..0] == "" && ParseNat("1") == 1;
    assert "10"[..1] == "1" && ParseNat("10") == 10;
    assert "100"[..2] == "10" && ParseNat("100") == 100;
    assert "1000"[..3] == "100" && ParseNat("1000") == 1000;
    assert "10000"[..4] == "1000" && ParseNat("10000") == 10000;
    assert "100000"[..5] == "10000";
    assert ParseNat("100000") == 100000;
    assert "100000"[0] == '1' && AllDigits("100000");
  }

  /** "100.000" is one hundred thousand: the separator is deleted, never read
      as a decimal point. */
  lemma ThousandsSeparatorDeleted()
    ensures ParseAmount("100.000") == Some(100000)
  {
    StripHundredThousand();
    ReadHundredThousand();
    assert ParseAmount("100.000") == ParseInt("100000");
  }

  /** Text that is not a signed number is not an amount. */
  lemma NonNumericRejected()
    ensures ParseAmount("abc") == None
  {
    RemoveAllAbsent("abc", '.');
    RemoveAllAbsent("abc", ',');
    assert !IsDigit("abc"[0]);
  }
}
