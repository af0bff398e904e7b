/** The string operations the report is built from: decimal formatting of
    integers (`strconv.Itoa` and fmt's `%d`), `strings.Replace(s, "\t", "  ", -1)`
    and `strings.Trim(s, "\n")`. */
module Text {

  predicate IsDigit(c: char)
  {
    '0' <= c <= '9'
  }

  predicate AllDigits(s: string)
  {
    forall i :: 0 <= i < |s| ==> IsDigit(s[i])
  }

  function Digit(d: nat): (c: char)
    requires d < 10
    ensures IsDigit(c) && c as int - '0' as int == d
  {
    ('0' as int + d) as char
  }

  function DigitValue(c: char): nat
    requires IsDigit(c)
  {
    c as int - '0' as int
  }

  /** Decimal text of `n`: digits only, never empty, no leading zero. */
  function NatToString(n: nat): (s: string)
    ensures |s| >= 1 && AllDigits(s)
    ensures |s| > 1 ==> s[0] != '0'
  {
    if n < 10 then [Digit(n)] else NatToString(n / 10) + [Digit(n % 10)]
  }

  /** Value of a non-empty run of decimal digits. */
  function ParseNat(s: string): nat
    requires |s| >= 1 && AllDigits(s)
  {
    if |s| == 1 then DigitValue(s[0])
    else ParseNat(s[..|s| - 1]) * 10 + DigitValue(s[|s| - 1])
  }

  /** Reading back the decimal text of `n` gives `n`. */
  lemma {:induction false} ParseNatToString(n: nat)
    ensures ParseNat(NatToString(n)) == n
  {
    if n >= 10 {
      ParseNatToString(n / 10);
      var s := NatToString(n);
      assert s[..|s| - 1] == NatToString(n / 10);
    }
  }

  /** Decimal text of `i`, with a leading '-' when negative. */
  function IntToString(i: int): (s: string)
    ensures |s| >= 1
    ensures s[0] == '-' <==> i < 0
    ensures var digits := if i < 0 then s[1..] else s;
      |digits| >= 1 && AllDigits(digits) && (|digits| > 1 ==> digits[0] != '0')
  {
    if i < 0 then "-" + NatToString(-i) else NatToString(i)
  }

  predicate IsIntText(s: string)
  {
    if |s| >= 1 && s[0] == '-' then |s| >= 2 && AllDigits(s[1..]) else |s| >= 1 && AllDigits(s)
  }

  function ParseInt(s: string): int
    requires IsIntText(s)
  {
    if s[0] == '-' then 0 - ParseNat(s[1..]) as int else ParseNat(s)
  }

  /** Reading back the decimal text of `i` gives `i`. */
  lemma {:induction false} ParseIntToString(i: int)
    ensures IsIntText(IntToString(i))
    ensures ParseInt(IntToString(i)) == i
  {
    var s := IntToString(i);
    if i < 0 {
      var t := NatToString(-i);
      ParseNatToString(-i);
      assert s == "-" + t;
      assert s[1..] == t;
    } else {
      ParseNatToString(i);
      assert IsDigit(s[0]);
    }
  }

  /** `strings.Replace(s, "\t", "  ", -1)`: every tab becomes two spaces. */
  function ReplaceTabs(s: string): (r: string)
    ensures '\t' !in r
    ensures '\t' !in s ==> r == s
  {
    if s == [] then []
    else (if s[0] == '\t' then "  " else [s[0]]) + ReplaceTabs(s[1..])
  }

  /** A tab becomes two spaces; any other character stays as it is. */
  lemma ReplaceTabsChar(c: char)
    ensures ReplaceTabs([c]) == if c == '\t' then "  " else [c]
  {
    assert [c][1..] == [];
  }

  /** Replacing tabs works character by character. */
  lemma {:induction false} ReplaceTabsAppend(a: string, b: string)
    ensures ReplaceTabs(a + b) == ReplaceTabs(a) + ReplaceTabs(b)
  {
    if a != [] {
      var head := if a[0] == '\t' then "  " else [a[0]];
      assert (a + b)[0] == a[0];
      assert (a + b)[1..] == a[1..] + b;
      calc {
        ReplaceTabs(a + b);
        head + ReplaceTabs(a[1..] + b);
        { ReplaceTabsAppend(a[1..], b); }
        head + (ReplaceTabs(a[1..]) + ReplaceTabs(b));
        (head + ReplaceTabs(a[1..])) + ReplaceTabs(b);
        ReplaceTabs(a) + ReplaceTabs(b);
      }
    } else {
      assert a + b == b;
    }
  }

  function NewlineRun(n: nat): (r: string)
    ensures |r| == n && forall i :: 0 <= i < n ==> r[i] == '\n'
  {
    seq(n, _ => '\n')
  }

  /** `strings.TrimLeft(s, "\n")`. */
  function TrimLeadingNewlines(s: string): (r: string)
    ensures |r| <= |s| && s == NewlineRun(|s| - |r|) + r
    ensures r == [] || r[0] != '\n'
  {
    if s != [] && s[0] == '\n' then
      var r := TrimLeadingNewlines(s[1..]);
      assert s == [s[0]] + s[1..];
      assert NewlineRun(|s| - |r|) == ['\n'] + NewlineRun(|s[1..]| - |r|);
      r
    else
      s
  }

  /** `strings.TrimRight(s, "\n")`. */
  function TrimTrailingNewlines(s: string): (r: string)
    ensures |r| <= |s| && s == r + NewlineRun(|s| - |r|)
    ensures r == [] || r[|r| - 1] != '\n'
  {
    if s != [] && s[|s| - 1] == '\n' then
      var r := TrimTrailingNewlines(s[..|s| - 1]);
      assert s == s[..|s| - 1] + [s[|s| - 1]];
      assert NewlineRun(|s| - |r|) == NewlineRun(|s| - 1 - |r|) + ['\n'];
      r
    else
      s
  }

  /** `strings.Trim(s, "\n")`: `s` is a run of newlines, then `r`, then a run of
      newlines, and `r` itself neither begins nor ends with a newline. */
  function TrimNewlines(s: string): (r: string)
    ensures r == [] || (r[0] != '\n' && r[|r| - 1] != '\n')
    ensures var k := |s| - |TrimLeadingNewlines(s)|;
      k + |r| <= |s| && s == NewlineRun(k) + r + NewlineRun(|s| - k - |r|)
  {
    var l := TrimLeadingNewlines(s);
    var r := TrimTrailingNewlines(l);
    var k := |s| - |l|;
    assert s == NewlineRun(k) + (r + NewlineRun(|l| - |r|));
    assert |s| - k - |r| == |l| - |r|;
    r
  }

  /** The snippet normalisation of the report: tabs to two spaces, then the
      surrounding newlines trimmed. */
  function NormalizeSnippet(s: string): (r: string)
    ensures '\t' !in r
    ensures r == [] || (r[0] != '\n' && r[|r| - 1] != '\n')
  {
    var t := ReplaceTabs(s);
    var k := |t| - |TrimLeadingNewlines(t)|;
    var r := TrimNewlines(t);
    assert t == NewlineRun(k) + r + NewlineRun(|t| - k - |r|);
    r
  }

  /** Normalising a normalised snippet changes nothing. */
  lemma NormalizeSnippetIdempotent(s: string)
    ensures NormalizeSnippet(NormalizeSnippet(s)) == NormalizeSnippet(s)
  {
    var n := NormalizeSnippet(s);
    assert ReplaceTabs(n) == n;
    assert TrimLeadingNewlines(n) == n;
    assert TrimTrailingNewlines(n) == n;
  }

  lemma ReplaceTabsExample()
    ensures ReplaceTabs("\tfoo\n") == "  foo\n"
  {
    assert "\tfoo\n"[1..] == "foo\n";
    assert ReplaceTabs("foo\n") == "foo\n";
  }

  lemma TrimNewlinesExample()
    ensures TrimNewlines("  foo\n") == "  foo"
  {
    var t := "  foo\n";
    assert TrimLeadingNewlines(t) == t;
    assert t[..5] == "  foo";
    assert TrimTrailingNewlines("  foo") == "  foo";
  }

  /** The worked example: "\tfoo\n" renders as "  foo". */
  lemma NormalizeSnippetExample()
    ensures NormalizeSnippet("\tfoo\n") == "  foo"
  {
    ReplaceTabsExample();
    TrimNewlinesExample();
  }
}
