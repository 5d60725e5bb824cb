/**
 * The parts of Python's `str` behaviour that the platform relies on:
 * whitespace stripping, ASCII case mapping, decimal rendering and parsing,
 * code-point ordering with `sorted`, and `str.join`.
 */
module Text {
  import opened Wrappers

  /** Python's `str.isspace` for a single code point. */
  predicate IsSpace(c: char) {
    var n := c as int;
    || n == 32 || 9 <= n <= 13 || 28 <= n <= 31 || n == 0x85 || n == 0xA0
    || n == 0x1680 || 0x2000 <= n <= 0x200A || n == 0x2028 || n == 0x2029
    || n == 0x202F || n == 0x205F || n == 0x3000
  }

  /** `s.lstrip()`: drops leading whitespace. */
  function LStrip(s: string): (r: string)
    ensures |r| <= |s| && r == s[|s| - |r|..]
    ensures r != [] ==> !IsSpace(r[0])
    ensures forall i :: 0 <= i < |s| - |r| ==> IsSpace(s[i])
  {
    if s != [] && IsSpace(s[0]) then LStrip(s[1..]) else s
  }

  /** `s.rstrip()`: drops trailing whitespace. */
  function RStrip(s: string): (r: string)
    ensures |r| <= |s| && r == s[..|r|]
    ensures r != [] ==> !IsSpace(r[|r| - 1])
    ensures forall i :: |r| <= i < |s| ==> IsSpace(s[i])
  {
    if s != [] && IsSpace(s[|s| - 1]) then RStrip(s[..|s| - 1]) else s
  }

  /** `s.strip()` with no argument. */
  function Strip(s: string): string {
    RStrip(LStrip(s))
  }

  /** `str.lower` on one character; only ASCII letters are mapped. */
  function LowerChar(c: char): char {
    if 'A' <= c <= 'Z' then (c as int + 32) as char else c
  }

  /** `str.upper` on one character; only ASCII letters are mapped. */
  function UpperChar(c: char): char {
    if 'a' <= c <= 'z' then (c as int - 32) as char else c
  }

  function Lower(s: string): string {
    seq(|s|, i requires 0 <= i < |s| => LowerChar(s[i]))
  }

  function Upper(s: string): string {
    seq(|s|, i requires 0 <= i < |s| => UpperChar(s[i]))
  }

  predicate IsDigit(c: char) {
    '0' <= c <= '9'
  }

  function DigitChar(d: nat): (c: char)
    requires d < 10
    ensures IsDigit(c)
  {
    ('0' as int + d) as char
  }

  /** Decimal digits of `n`, as `str(n)` writes them. */
  function NatToText(n: nat): (r: string)
    ensures r != []
    ensures forall i :: 0 <= i < |r| ==> IsDigit(r[i])
  {
    if n < 10 then [DigitChar(n)] else NatToText(n / 10) + [DigitChar(n % 10)]
  }

  /** `str(i)` for a Python int. */
  function IntToText(i: int): (r: string)
    ensures r != []
  {
    if i < 0 then "-" + NatToText(-i) else NatToText(i)
  }

  /** The value of a string of decimal digits. */
  function DigitsValue(s: string): nat
    requires forall i :: 0 <= i < |s| ==> IsDigit(s[i])
  {
    if s == [] then 0 else
      assert IsDigit(s[|s| - 1]);
      DigitsValue(s[..|s| - 1]) * 10 + (s[|s| - 1] as int - '0' as int)
  }

  predicate AllDigits(s: string) {
    s != [] && forall i :: 0 <= i < |s| ==> IsDigit(s[i])
  }

  /**
   * `int(s)` for a string: surrounding whitespace, an optional sign and
   * ASCII digits; None where Python raises ValueError.
   */
  function ParseInt(s: string): Option<int> {
    var t := Strip(s);
    if t != [] && (t[0] == '-' || t[0] == '+') && AllDigits(t[1..]) then
      var magnitude: int := DigitsValue(t[1..]);
      Some(if t[0] == '-' then -magnitude else magnitude)
    else if AllDigits(t) then
      Some(DigitsValue(t))
    else
      None
  }

  lemma {:induction false} DigitsValueOfNatToText(n: nat)
    ensures DigitsValue(NatToText(n)) == n
  {
    if n >= 10 {
      var s := NatToText(n);
      assert s[..|s| - 1] == NatToText(n / 10);
      DigitsValueOfNatToText(n / 10);
    }
  }

  lemma StripUnchanged(s: string)
    requires s != [] && !IsSpace(s[0]) && !IsSpace(s[|s| - 1])
    ensures Strip(s) == s
  {
    assert LStrip(s) == s;
  }

  /** `int(str(i)) == i`: rendering and parsing an int are inverse. */
  lemma ParseIntOfIntToText(i: int)
    ensures ParseInt(IntToText(i)) == Some(i)
  {
    var s := IntToText(i);
    if i < 0 {
      var digits := NatToText(-i);
      assert s == "-" + digits;
      assert s[1..] == digits;
      assert IsDigit(digits[|digits| - 1]);
      StripUnchanged(s);
      DigitsValueOfNatToText(-i);
      assert AllDigits(s[1..]);
    } else {
      assert s == NatToText(i);
      assert IsDigit(s[0]) && IsDigit(s[|s| - 1]);
      StripUnchanged(s);
      DigitsValueOfNatToText(i);
      assert AllDigits(s);
    }
  }

  /** Python's `<=` on strings: lexicographic by code point. */
  predicate LessEq(a: string, b: string) {
    a == [] || (b != [] && (a[0] < b[0] || (a[0] == b[0] && LessEq(a[1..], b[1..]))))
  }

  lemma LessEqTotal(a: string, b: string)
    ensures LessEq(a, b) || LessEq(b, a)
  {
  }

  lemma LessEqTransitive(a: string, b: string, c: string)
    requires LessEq(a, b) && LessEq(b, c)
    ensures LessEq(a, c)
  {
  }

  lemma LessEqAntisymmetric(a: string, b: string)
    requires LessEq(a, b) && LessEq(b, a)
    ensures a == b
  {
  }

  predicate Sorted(s: seq<string>) {
    forall i, j :: 0 <= i < j < |s| ==> LessEq(s[i], s[j])
  }

  function Insert(x: string, s: seq<string>): (r: seq<string>)
    requires Sorted(s)
    ensures multiset(r) == multiset(s) + multiset{x}
    ensures Sorted(r)
  {
    if s == [] then [x]
    else if LessEq(x, s[0]) then
      InsertFront(x, s);
      [x] + s
    else
      LessEqTotal(x, s[0]);
      var rest := Insert(x, s[1..]);
      InsertBehind(s[0], x, s[1..], rest);
      assert s == [s[0]] + s[1..];
      [s[0]] + rest
  }

  lemma InsertFront(x: string, s: seq<string>)
    requires Sorted(s) && s != [] && LessEq(x, s[0])
    ensures Sorted([x] + s)
  {
    var r := [x] + s;
    forall i, j | 0 <= i < j < |r| ensures LessEq(r[i], r[j]) {
      if i == 0 && j > 1 {
        LessEqTransitive(x, s[0], r[j]);
      }
    }
  }

  lemma InsertBehind(y: string, x: string, s: seq<string>, rest: seq<string>)
    requires Sorted([y] + s) && LessEq(y, x) && Sorted(rest)
    requires multiset(rest) == multiset(s) + multiset{x}
    ensures Sorted([y] + rest)
  {
    var t := [y] + s;
    forall z | z in rest ensures LessEq(y, z) {
      assert z in multiset(rest);
      if z != x {
        assert z in multiset(s);
        var k :| 0 <= k < |s| && s[k] == z;
        assert t[0] == y && t[k + 1] == z;
      }
    }
    var r := [y] + rest;
    forall i, j | 0 <= i < j < |r| ensures LessEq(r[i], r[j]) {
      if i == 0 {
        assert r[j] == rest[j - 1] && r[j] in rest;
      } else {
        assert r[i] == rest[i - 1] && r[j] == rest[j - 1];
      }
    }
  }

  /** `sorted(s)` for a list of strings. */
  function Sort(s: seq<string>): (r: seq<string>)
    ensures multiset(r) == multiset(s)
    ensures Sorted(r)
  {
    if s == [] then [] else
      assert s == [s[0]] + s[1..];
      Insert(s[0], Sort(s[1..]))
  }

  /** `sep.join(parts)`. */
  function Join(parts: seq<string>, sep: string): string {
    if parts == [] then ""
    else if |parts| == 1 then parts[0]
    else parts[0] + sep + Join(parts[1..], sep)
  }

  /** `text.endswith(suffix)` */
  predicate EndsWith(text: string, suffix: string) {
    |suffix| <= |text| && text[|text| - |suffix|..] == suffix
  }

  lemma EndsWithAppend(prefix: string, suffix: string)
    ensures EndsWith(prefix + suffix, suffix)
  {
    assert (prefix + suffix)[|prefix|..] == suffix;
  }

  /** A string's `repr` when it holds no quote or backslash. */
  function Quote(s: string): string {
    "'" + s + "'"
  }

  /** `x` is a member of `s` that no other member precedes. */
  predicate IsLeast(x: string, s: set<string>) {
    x in s && forall y :: y in s ==> LessEq(x, y)
  }

  lemma {:induction false} LeastExists(s: set<string>)
    requires s != {}
    ensures exists x :: IsLeast(x, s)
    decreases |s|
  {
    var a :| a in s;
    LessEqTotal(a, a);
    if s == {a} {
      assert IsLeast(a, s);
    } else {
      var t := s - {a};
      LeastExists(t);
      var m :| IsLeast(m, t);
      LessEqTotal(a, m);
      if LessEq(a, m) {
        forall y | y in s ensures LessEq(a, y) {
          if y != a {
            LessEqTransitive(a, m, y);
          }
        }
        assert IsLeast(a, s);
      } else {
        assert IsLeast(m, s);
      }
    }
  }

  lemma LeastUnique(s: set<string>)
    ensures forall x, y :: IsLeast(x, s) && IsLeast(y, s) ==> x == y
  {
    forall x, y | IsLeast(x, s) && IsLeast(y, s) ensures x == y {
      LessEqAntisymmetric(x, y);
    }
  }

  /** `sorted()` of a collection without duplicates: its members in ascending order. */
  function SortedSet(s: set<string>): (r: seq<string>)
    ensures |r| == |s|
    ensures forall x :: x in r <==> x in s
    ensures Sorted(r)
    decreases |s|
  {
    if s == {} then []
    else
      LeastExists(s);
      LeastUnique(s);
      var x :| IsLeast(x, s);
      var rest := SortedSet(s - {x});
      LeastFirst(x, s, rest);
      [x] + rest
  }

  /** A sorted sequence listing each member of `s` once is `sorted(s)`. */
  lemma {:induction false} SortedSetUnique(s: set<string>, r: seq<string>)
    requires Sorted(r)
    requires forall i, j :: 0 <= i < j < |r| ==> r[i] != r[j]
    requires forall x :: x in r <==> x in s
    ensures SortedSet(s) == r
    decreases |r|
  {
    if r == [] {
      assert s == {};
    } else {
      var x := r[0];
      assert IsLeast(x, s) by {
        forall y | y in s ensures LessEq(x, y) {
          var k :| 0 <= k < |r| && r[k] == y;
          LessEqTotal(x, x);
        }
      }
      LeastUnique(s);
      var t := s - {x};
      assert forall y :: y in r[1..] <==> y in t by {
        forall y ensures y in r[1..] <==> y in t {
          if y in r[1..] {
            var k :| 0 <= k < |r[1..]| && r[1..][k] == y;
            assert r[k + 1] == y;
          }
          if y in t {
            var k :| 0 <= k < |r| && r[k] == y;
            assert k != 0 && r[1..][k - 1] == y;
          }
        }
      }
      SortedSetUnique(t, r[1..]);
      assert |s| > 0 by { assert x in s; }
      LeastExists(s);
      var least :| IsLeast(least, s);
      assert least == x;
      assert r == [x] + r[1..];
    }
  }

  lemma LeastFirst(x: string, s: set<string>, rest: seq<string>)
    requires IsLeast(x, s) && Sorted(rest)
    requires forall y :: y in rest <==> y in s - {x}
    ensures Sorted([x] + rest)
    ensures forall y :: y in [x] + rest <==> y in s
  {
    var r := [x] + rest;
    forall i, j | 0 <= i < j < |r| ensures LessEq(r[i], r[j]) {
      assert r[j] == rest[j - 1] && rest[j - 1] in rest;
      if i > 0 {
        assert r[i] == rest[i - 1];
      }
    }
  }
}
