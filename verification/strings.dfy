/**
 * Text helpers shared by the backend, the settings form and the block
 * generators: ASCII decimal digits, the decimal text of an integer and its
 * parse, Python's `str.split` on one separator character, substring search,
 * and the code-point order that Python's `sorted` uses on strings.
 */
module Strings {
  import opened Wrappers

  // ---------------------------------------------------------------------------
  // Decimal digits
  // ---------------------------------------------------------------------------

  predicate IsDigit(c: char) {
    '0' <= c <= '9'
  }

  predicate AllDigits(s: string) {
    forall i :: 0 <= i < |s| ==> IsDigit(s[i])
  }

  /** `str.isdigit()` restricted to ASCII: at least one character, all of them digits. */
  predicate IsDigits(s: string) {
    |s| > 0 && AllDigits(s)
  }

  /** Digit text has no sign, no point and no '_' separator. */
  lemma DigitsHaveNoMarks(s: string)
    requires IsDigits(s)
    ensures '-' !in s && '+' !in s && '.' !in s && '_' !in s
  {
    assert forall i :: 0 <= i < |s| ==> IsDigit(s[i]);
  }

  function DigitValue(c: char): (d: nat)
    requires IsDigit(c)
    ensures d < 10
  {
    (c as int) - ('0' as int)
  }

  function DigitChar(d: nat): (c: char)
    requires d < 10
    ensures IsDigit(c) && DigitValue(c) == d
  {
    (('0' as int) + d) as char
  }

  /** The number a string of decimal digits denotes (leading zeros allowed). */
  function DigitsValue(s: string): nat
    requires AllDigits(s)
    decreases |s|
  {
    if s == [] then 0 else DigitsValue(s[..|s| - 1]) * 10 + DigitValue(s[|s| - 1])
  }

  /** Python's `str(n)` for a non-negative integer: canonical decimal digits. */
  function NatToString(n: nat): (s: string)
    ensures IsDigits(s)
    ensures s[0] == '0' ==> n == 0 && s == "0"
    decreases n
  {
    if n < 10 then [DigitChar(n)] else NatToString(n / 10) + [DigitChar(n % 10)]
  }

  lemma {:induction false} NatToStringRoundTrip(n: nat)
    ensures DigitsValue(NatToString(n)) == n
    decreases n
  {
    var s := NatToString(n);
    if n >= 10 {
      NatToStringRoundTrip(n / 10);
      assert s[..|s| - 1] == NatToString(n / 10);
    }
  }

  /** Python's `str(n)` for any integer: a '-' sign before the digits of a negative number. */
  function IntToString(n: int): (s: string)
    ensures |s| > 0 && (n < 0 <==> s[0] == '-')
    ensures n >= 0 ==> IsDigits(s) && (s[0] == '0' ==> s == "0")
    ensures n < 0 ==> |s| > 1 && IsDigits(s[1..]) && s[1] != '0'
  {
    if n < 0 then "-" + NatToString(-n) else NatToString(n)
  }

  /** Reads back an optionally signed decimal integer; anything else is None. */
  function ParseInt(s: string): (r: Option<int>)
    ensures r.Some? <==> IsDigits(s) || (|s| > 1 && s[0] == '-' && IsDigits(s[1..]))
  {
    if IsDigits(s) then Some(DigitsValue(s))
    else if |s| > 1 && s[0] == '-' && IsDigits(s[1..]) then Some(0 - DigitsValue(s[1..]) as int)
    else None
  }

  lemma IntToStringRoundTrip(n: int)
    ensures ParseInt(IntToString(n)) == Some(n)
  {
    if n < 0 {
      var s := IntToString(n);
      assert s[0] == '-' && !IsDigit(s[0]);
      assert s[1..] == NatToString(-n);
      NatToStringRoundTrip(-n);
    } else {
      NatToStringRoundTrip(n);
    }
  }

  // ---------------------------------------------------------------------------
  // Substrings
  // ---------------------------------------------------------------------------

  /** Python's `sub in s`. */
  predicate Contains(s: string, sub: string) {
    exists i :: 0 <= i <= |s| - |sub| && OccursAt(s, sub, i)
  }

  predicate OccursAt(s: string, sub: string, i: int) {
    0 <= i <= |s| - |sub| && s[i..i + |sub|] == sub
  }

  predicate EndsWith(s: string, suffix: string) {
    |suffix| <= |s| && s[|s| - |suffix|..] == suffix
  }

  // ---------------------------------------------------------------------------
  // str.split(sep)
  // ---------------------------------------------------------------------------

  /** The fields glued back together with the separator between consecutive ones. */
  function Join(fields: seq<string>, sep: char): string
    requires |fields| >= 1
  {
    if |fields| == 1 then fields[0]
    else Join(fields[..|fields| - 1], sep) + [sep] + fields[|fields| - 1]
  }

  /**
   * Cuts `s` at every character of `seps`, dropping those characters: every
   * separator ends a field, so there is always one field more than there
   * are separators, and fields may be empty.
   */
  function SplitAny(s: string, seps: set<char>): (fields: seq<string>)
    ensures |fields| >= 1
    ensures forall i, j :: 0 <= i < |fields| && 0 <= j < |fields[i]| ==> fields[i][j] !in seps
    decreases |s|
  {
    if s == [] then [""]
    else
      var init := SplitAny(s[..|s| - 1], seps);
      var c := s[|s| - 1];
      if c in seps then init + [""]
      else init[..|init| - 1] + [init[|init| - 1] + [c]]
  }

  /** Text with no separator is a single field. */
  lemma {:induction false} SplitAnyPlain(s: string, seps: set<char>)
    requires forall i :: 0 <= i < |s| ==> s[i] !in seps
    ensures SplitAny(s, seps) == [s]
    decreases |s|
  {
    if s != [] {
      SplitAnyPlain(s[..|s| - 1], seps);
      assert s[..|s| - 1] + [s[|s| - 1]] == s;
    }
  }

  /** Python's `s.split(sep)` for a one-character separator. */
  function Split(s: string, sep: char): (fields: seq<string>)
    ensures |fields| >= 1
    ensures forall i :: 0 <= i < |fields| ==> sep !in fields[i]
  {
    SplitAny(s, {sep})
  }

  /** Gluing the fields of a split back together gives the original text. */
  lemma {:induction false} JoinSplit(s: string, sep: char)
    ensures Join(Split(s, sep), sep) == s
    decreases |s|
  {
    if s != [] {
      var s' := s[..|s| - 1];
      var c := s[|s| - 1];
      var init := Split(s', sep);
      JoinSplit(s', sep);
      assert s == s' + [c];
      var f := Split(s, sep);
      if c != sep {
        assert f[..|f| - 1] == init[..|init| - 1];
        if |init| > 1 {
          assert Join(init, sep) == Join(init[..|init| - 1], sep) + [sep] + init[|init| - 1];
        }
      }
    }
  }

  lemma {:induction false} SplitAppendPlain(s: string, t: string, sep: char)
    requires sep !in t
    ensures var f := Split(s, sep);
            Split(s + t, sep) == f[..|f| - 1] + [f[|f| - 1] + t]
    decreases |t|
  {
    if t != [] {
      var t' := t[..|t| - 1];
      var c := t[|t| - 1];
      var f := Split(s, sep);
      SplitAppendPlain(s, t', sep);
      assert (s + t)[..|s + t| - 1] == s + t';
      assert (s + t)[|s + t| - 1] == c;
      assert c != sep by { assert c in t; }
      var init := Split(s + t', sep);
      assert init[..|init| - 1] == f[..|f| - 1];
      assert init[|init| - 1] + [c] == f[|f| - 1] + t by {
        assert t' + [c] == t;
      }
    } else {
      var f := Split(s, sep);
      assert s + t == s;
      assert f[|f| - 1] + t == f[|f| - 1];
      assert f == f[..|f| - 1] + [f[|f| - 1]];
    }
  }

  /** Splitting text made by Join gives the fields back, as long as none contains the separator. */
  lemma {:induction false} SplitJoin(fields: seq<string>, sep: char)
    requires |fields| >= 1
    requires forall i :: 0 <= i < |fields| ==> sep !in fields[i]
    ensures Split(Join(fields, sep), sep) == fields
    decreases |fields|
  {
    if |fields| == 1 {
      SplitAppendPlain("", fields[0], sep);
      assert "" + fields[0] == fields[0];
    } else {
      var init := fields[..|fields| - 1];
      var last := fields[|fields| - 1];
      var j := Join(init, sep);
      SplitJoin(init, sep);
      assert Split(j + [sep], sep) == init + [""] by {
        assert (j + [sep])[..|j + [sep]| - 1] == j;
        assert (j + [sep])[|j + [sep]| - 1] == sep;
      }
      SplitAppendPlain(j + [sep], last, sep);
      var g := init + [""];
      assert g[..|g| - 1] == init;
      assert g[|g| - 1] + last == last;
      assert fields == init + [last];
      assert Join(fields, sep) == j + [sep] + last;
    }
  }

  // ---------------------------------------------------------------------------
  // Code-point order and sorting (Python's `sorted` on strings)
  // ---------------------------------------------------------------------------

  /** Lexicographic order on code points: a proper prefix comes first. */
  predicate LexLe(a: string, b: string) {
    a == [] || (b != [] && (a[0] < b[0] || (a[0] == b[0] && LexLe(a[1..], b[1..]))))
  }

  lemma {:induction false} LexLeTotal(a: string, b: string)
    ensures LexLe(a, b) || LexLe(b, a)
    decreases |a|
  {
    if a != [] && b != [] && a[0] == b[0] {
      LexLeTotal(a[1..], b[1..]);
    }
  }

  lemma {:induction false} LexLeTransitive(a: string, b: string, c: string)
    requires LexLe(a, b) && LexLe(b, c)
    ensures LexLe(a, c)
    decreases |a|
  {
    if a != [] && a[0] == b[0] && b[0] == c[0] {
      LexLeTransitive(a[1..], b[1..], c[1..]);
    }
  }

  predicate Sorted(s: seq<string>) {
    forall i :: 0 < i < |s| ==> LexLe(s[i - 1], s[i])
  }

  function Insert(x: string, s: seq<string>): (r: seq<string>)
    requires Sorted(s)
    ensures Sorted(r)
    ensures multiset(r) == multiset(s) + multiset{x}
    ensures r[0] == x || (s != [] && r[0] == s[0])
    decreases |s|
  {
    if s == [] then [x]
    else if LexLe(x, s[0]) then [x] + s
    else
      LexLeTotal(x, s[0]);
      var rest := Insert(x, s[1..]);
      assert s == [s[0]] + s[1..];
      [s[0]] + rest
  }

  /** Python's `sorted` on a list of strings: an ordered permutation of the input. */
  function Sort(xs: seq<string>): (r: seq<string>)
    ensures Sorted(r)
    ensures multiset(r) == multiset(xs)
    decreases |xs|
  {
    if xs == [] then []
    else
      assert xs == [xs[0]] + xs[1..];
      Insert(xs[0], Sort(xs[1..]))
  }
}
