/**
 * Text semantics the core relies on: Python's str.strip() and int() on a
 * string, SQLite's built-in lower() and its BINARY collation (the order of
 * ORDER BY on text), and SELECT DISTINCT ... ORDER BY on a text column.
 */
module Text {
  import opened Wrappers

  /** Python's str.isspace() for one character. */
  predicate IsSpace(c: char) {
    ('\t' <= c <= '\r') || ('\U{1C}' <= c <= ' ') || c == '\U{85}' || c == '\U{A0}'
    || c == '\U{1680}' || ('\U{2000}' <= c <= '\U{200A}') || c == '\U{2028}' || c == '\U{2029}'
    || c == '\U{202F}' || c == '\U{205F}' || c == '\U{3000}'
  }

  function TrimStart(s: string): (r: string)
    ensures |r| <= |s| && r == s[|s| - |r|..]
    ensures forall k :: 0 <= k < |s| - |r| ==> IsSpace(s[k])
    ensures r == [] || !IsSpace(r[0])
  {
    if s != [] && IsSpace(s[0]) then TrimStart(s[1..]) else s
  }

  function TrimEnd(s: string): (r: string)
    ensures |r| <= |s| && r == s[..|r|]
    ensures forall k :: |r| <= k < |s| ==> IsSpace(s[k])
    ensures r == [] || !IsSpace(r[|r| - 1])
  {
    if s != [] && IsSpace(s[|s| - 1]) then TrimEnd(s[..|s| - 1]) else s
  }

  /** Python's str.strip(): drop leading and trailing whitespace. */
  function Strip(s: string): (r: string)
    ensures exists i, j {:trigger s[i..j]} ::
              (0 <= i <= j <= |s| && r == s[i..j]
               && (forall k :: 0 <= k < i ==> IsSpace(s[k]))
               && (forall k :: j <= k < |s| ==> IsSpace(s[k])))
    ensures r == [] || (!IsSpace(r[0]) && !IsSpace(r[|r| - 1]))
  {
    var a := TrimStart(s);
    var b := TrimEnd(a);
    var i := |s| - |a|;
    assert b == s[i..i + |b|];
    forall k | i + |b| <= k < |s| ensures IsSpace(s[k]) { assert s[k] == a[k - i]; }
    assert b == [] || !IsSpace(b[0]) by {
      if b != [] { assert b[0] == a[0]; }
    }
    b
  }

  /** A string whose two ends are not whitespace is left alone by Strip. */
  lemma StripKeeps(s: string)
    requires s == [] || (!IsSpace(s[0]) && !IsSpace(s[|s| - 1]))
    ensures Strip(s) == s
  {
    var a := TrimStart(s);
    assert |a| == |s|;
    var b := TrimEnd(a);
    assert |b| == |a|;
  }

  lemma StripIdempotent(s: string)
    ensures Strip(Strip(s)) == Strip(s)
  {
    StripKeeps(Strip(s));
  }

  /** SQLite's built-in lower(): only the ASCII letters A-Z are folded. */
  function LowerChar(c: char): (r: char)
    ensures 'A' <= c <= 'Z' ==> 'a' <= r <= 'z' && r as int - c as int == 32
    ensures !('A' <= c <= 'Z') ==> r == c
  {
    if 'A' <= c <= 'Z' then (c as int + 32) as char else c
  }

  function SqlLower(s: string): (r: string)
    ensures |r| == |s|
    ensures forall k :: 0 <= k < |s| ==> r[k] == LowerChar(s[k])
  {
    if s == [] then [] else [LowerChar(s[0])] + SqlLower(s[1..])
  }

  lemma SqlLowerIdempotent(s: string)
    ensures SqlLower(SqlLower(s)) == SqlLower(s)
  {
    var l := SqlLower(s);
    assert forall k :: 0 <= k < |s| ==> LowerChar(l[k]) == l[k];
  }

  /** SQLite's BINARY collation: code-point order, a proper prefix first. */
  predicate StrLess(a: string, b: string) {
    if a == [] then b != []
    else if b == [] then false
    else if a[0] != b[0] then a[0] < b[0]
    else StrLess(a[1..], b[1..])
  }

  lemma {:induction false} StrLessIrreflexive(a: string)
    ensures !StrLess(a, a)
  {
    if a != [] { StrLessIrreflexive(a[1..]); }
  }

  lemma {:induction false} StrLessTransitive(a: string, b: string, c: string)
    requires StrLess(a, b) && StrLess(b, c)
    ensures StrLess(a, c)
  {
    if a != [] && b != [] && c != [] && a[0] == b[0] && b[0] == c[0] {
      StrLessTransitive(a[1..], b[1..], c[1..]);
    }
  }

  lemma {:induction false} StrLessTotal(a: string, b: string)
    ensures a == b || StrLess(a, b) || StrLess(b, a)
  {
    if a != [] && b != [] && a[0] == b[0] {
      StrLessTotal(a[1..], b[1..]);
      if a[1..] == b[1..] { assert a == [a[0]] + a[1..] && b == [b[0]] + b[1..]; }
    }
  }

  lemma StrLessAsymmetric(a: string, b: string)
    requires StrLess(a, b)
    ensures !StrLess(b, a)
  {
    if StrLess(b, a) {
      StrLessTransitive(a, b, a);
      StrLessIrreflexive(a);
    }
  }

  predicate StrictlyAscending(s: seq<string>) {
    forall i, j :: 0 <= i < j < |s| ==> StrLess(s[i], s[j])
  }

  function InsertDistinct(x: string, s: seq<string>): (r: seq<string>)
    requires StrictlyAscending(s)
    ensures StrictlyAscending(r)
    ensures forall y :: y in r <==> y == x || y in s
  {
    if s == [] then [x]
    else if x == s[0] then s
    else if StrLess(x, s[0]) then
      assert forall j :: 0 < j < |s| ==> StrLess(x, s[j]) by {
        forall j | 0 < j < |s| ensures StrLess(x, s[j]) { StrLessTransitive(x, s[0], s[j]); }
      }
      [x] + s
    else
      assert StrLess(s[0], x) by { StrLessTotal(x, s[0]); }
      var rest := InsertDistinct(x, s[1..]);
      assert forall y :: y in rest ==> StrLess(s[0], y) by {
        forall y | y in rest ensures StrLess(s[0], y) {
          if y != x { var j :| 0 <= j < |s[1..]| && s[1..][j] == y; assert s[j + 1] == y; }
        }
      }
      [s[0]] + rest
  }

  /**
   * SELECT DISTINCT column ... ORDER BY column: every value once, in
   * ascending BINARY order.
   */
  function SortDistinct(s: seq<string>): (r: seq<string>)
    ensures StrictlyAscending(r)
    ensures forall y :: y in r <==> y in s
  {
    if s == [] then [] else InsertDistinct(s[0], SortDistinct(s[1..]))
  }

  lemma TailMember(s: seq<string>, y: string)
    requires StrictlyAscending(s) && s != []
    ensures y in s[1..] <==> y in s && y != s[0]
    ensures y in s[1..] ==> StrLess(s[0], y)
  {
    if y in s[1..] {
      var k :| 0 <= k < |s[1..]| && s[1..][k] == y;
      assert s[k + 1] == y;
      StrLessIrreflexive(y);
    }
    if y in s && y != s[0] {
      var k :| 0 <= k < |s| && s[k] == y;
      assert s[1..][k - 1] == y;
    }
  }

  /** Two strictly ascending sequences with the same values are equal, so
    * SortDistinct's contract leaves exactly one possible result. */
  lemma {:induction false} AscendingUnique(a: seq<string>, b: seq<string>)
    requires StrictlyAscending(a) && StrictlyAscending(b)
    requires forall y :: y in a <==> y in b
    ensures a == b
  {
    assert a != [] ==> a[0] in a;
    assert b != [] ==> b[0] in b;
    if a != [] && b != [] {
      assert a[0] in a && b[0] in b;
      if a[0] != b[0] {
        assert a[0] in b && b[0] in a;
        var ib :| 0 <= ib < |b| && b[ib] == a[0];
        var ia :| 0 <= ia < |a| && a[ia] == b[0];
        assert StrLess(a[0], b[0]) && StrLess(b[0], a[0]);
        StrLessAsymmetric(a[0], b[0]);
      }
      forall y ensures y in a[1..] <==> y in b[1..] {
        TailMember(a, y);
        TailMember(b, y);
        if y == a[0] { StrLessIrreflexive(y); }
      }
      AscendingUnique(a[1..], b[1..]);
      assert a == [a[0]] + a[1..] && b == [b[0]] + b[1..];
    }
  }

  // Python's int() on a string, for the ASCII spelling of a decimal integer.

  predicate IsDigit(c: char) { '0' <= c <= '9' }

  predicate AllDigits(s: string) { forall k :: 0 <= k < |s| ==> IsDigit(s[k]) }

  function DigitsValue(ds: string): nat
    requires AllDigits(ds)
  {
    if ds == [] then 0
    else DigitsValue(ds[..|ds| - 1]) * 10 + (ds[|ds| - 1] as int - '0' as int)
  }

  /** Digits with single underscores between them, as int() admits: "1_000". */
  predicate DigitGroups(s: string) {
    && s != [] && IsDigit(s[0]) && IsDigit(s[|s| - 1])
    && (forall k :: 0 <= k < |s| ==> IsDigit(s[k]) || s[k] == '_')
    && (forall k :: 0 <= k < |s| - 1 ==> !(s[k] == '_' && s[k + 1] == '_'))
  }

  function DropUnderscores(s: string): (r: string)
    requires forall k :: 0 <= k < |s| ==> IsDigit(s[k]) || s[k] == '_'
    ensures AllDigits(r)
    ensures AllDigits(s) ==> r == s
  {
    if s == [] then []
    else (if s[0] == '_' then [] else [s[0]]) + DropUnderscores(s[1..])
  }

  /** int(s) for a str: surrounding whitespace, an optional sign, then
    * decimal digits, possibly grouped by underscores. */
  function ParseInt(s: string): (r: Option<int>)
    ensures r.Some? ==> Strip(s) != []
    ensures r.Some? && r.value < 0 ==> Strip(s)[0] == '-'
  {
    var t := Strip(s);
    if t == [] then None
    else if t[0] == '+' || t[0] == '-' then
      if DigitGroups(t[1..]) then
        var v: int := DigitsValue(DropUnderscores(t[1..]));
        Some(if t[0] == '-' then -v else v)
      else None
    else if DigitGroups(t) then Some(DigitsValue(DropUnderscores(t)))
    else None
  }

  function NatToDigits(n: nat): (r: string)
    ensures r != [] && AllDigits(r)
  {
    if n < 10 then [('0' as int + n) as char]
    else NatToDigits(n / 10) + [('0' as int + n % 10) as char]
  }

  /** Python's str() of an int. */
  function IntToText(i: int): string {
    if i < 0 then "-" + NatToDigits(-i) else NatToDigits(i)
  }

  lemma {:induction false} DigitsRoundTrip(n: nat)
    ensures DigitsValue(NatToDigits(n)) == n
  {
    if n >= 10 {
      var ds := NatToDigits(n);
      assert ds[..|ds| - 1] == NatToDigits(n / 10);
      DigitsRoundTrip(n / 10);
    }
  }

  /** The digits of n, with nothing around them, read back as n. */
  lemma DigitsParse(n: nat)
    ensures DigitGroups(NatToDigits(n)) && DropUnderscores(NatToDigits(n)) == NatToDigits(n)
    ensures DigitsValue(NatToDigits(n)) == n
  {
    DigitsRoundTrip(n);
  }

  lemma TextIsStripped(i: int)
    ensures Strip(IntToText(i)) == IntToText(i)
  {
    var t := IntToText(i);
    assert !IsSpace(t[0]) && !IsSpace(t[|t| - 1]);
    StripKeeps(t);
  }

  /** int(str(i)) == i. */
  lemma ParseIntRoundTrip(i: int)
    ensures ParseInt(IntToText(i)) == Some(i)
  {
    var n: nat := if i < 0 then -i else i;
    TextIsStripped(i);
    DigitsParse(n);
    if i < 0 {
      assert IntToText(i)[0] == '-' && IntToText(i)[1..] == NatToDigits(n);
    } else {
      assert IntToText(i) == NatToDigits(n) && IntToText(i)[0] != '+' && IntToText(i)[0] != '-';
    }
  }

  /** A string with anything but a digit or an underscore after its sign
    * is refused by int(). */
  lemma ParseIntRefusesNonDigit(s: string, k: nat)
    requires var t := Strip(s); 0 < k < |t| && !IsDigit(t[k]) && t[k] != '_'
    ensures ParseInt(s) == None
  {
    var t := Strip(s);
    if t[0] == '+' || t[0] == '-' { assert t[1..][k - 1] == t[k]; }
  }

  /** An underscore that does not sit between two digits is refused too. */
  lemma ParseIntRefusesLooseUnderscore(s: string)
    requires var t := Strip(s); t != [] && (t[|t| - 1] == '_' || (|t| > 1 && t[0] == '_'))
    ensures ParseInt(s) == None
  {
    var t := Strip(s);
    if t[0] == '+' || t[0] == '-' {
      assert t[1..] == [] || t[1..][|t[1..]| - 1] == t[|t| - 1];
    }
  }
}
