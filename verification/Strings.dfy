/** The text operations the kernel relies on: ordering, searching and building of identifiers. */
module Strings {

  /** Lexicographic order by code point, which is the byte order of UTF-8 text. */
  predicate AtMost(a: string, b: string)
    decreases |a|
  {
    a == [] || (b != [] && (a[0] < b[0] || (a[0] == b[0] && AtMost(a[1..], b[1..]))))
  }

  lemma {:induction false} AtMostTotal(a: string, b: string)
    ensures AtMost(a, b) || AtMost(b, a)
    decreases |a|
  {
    if a != [] && b != [] {
      AtMostTotal(a[1..], b[1..]);
    }
  }

  lemma {:induction false} AtMostAntisymmetric(a: string, b: string)
    requires AtMost(a, b) && AtMost(b, a)
    ensures a == b
    decreases |a|
  {
    if a != [] {
      AtMostAntisymmetric(a[1..], b[1..]);
      assert a == [a[0]] + a[1..] && b == [b[0]] + b[1..];
    }
  }

  lemma {:induction false} AtMostTransitive(a: string, b: string, c: string)
    requires AtMost(a, b) && AtMost(b, c)
    ensures AtMost(a, c)
    decreases |a|
  {
    if a != [] && a[0] == b[0] == c[0] {
      AtMostTransitive(a[1..], b[1..], c[1..]);
    }
  }

  /** `a` comes strictly before `b`: it is cut short, or smaller at the first character in which they differ. */
  ghost predicate Earlier(a: string, b: string) {
    || (a <= b && a != b)
    || exists k :: 0 <= k < |a| && k < |b| && a[..k] == b[..k] && a[k] < b[k]
  }

  /** The order is the one of a dictionary. */
  lemma {:induction false} AtMostExact(a: string, b: string)
    ensures AtMost(a, b) <==> a == b || Earlier(a, b)
    decreases |a|
  {
    if a != [] && b != [] && a[0] == b[0] {
      AtMostExact(a[1..], b[1..]);
      assert a == [a[0]] + a[1..] && b == [b[0]] + b[1..];
      if k :| 0 <= k < |a[1..]| && k < |b[1..]| && a[1..][..k] == b[1..][..k] && a[1..][k] < b[1..][k] {
        assert a[..k + 1] == [a[0]] + a[1..][..k] && b[..k + 1] == [b[0]] + b[1..][..k];
        assert a[k + 1] < b[k + 1];
      }
      if k :| 0 <= k < |a| && k < |b| && a[..k] == b[..k] && a[k] < b[k] {
        assert a[1..][..k - 1] == a[..k][1..] && b[1..][..k - 1] == b[..k][1..];
        assert a[1..][k - 1] < b[1..][k - 1];
      }
    } else if a != [] && b != [] {
      if a[0] < b[0] {
        assert a[..0] == b[..0];
      }
      assert forall k :: 0 < k < |a| && k < |b| && a[..k] == b[..k] ==> a[..k][0] == b[..k][0];
    }
  }

  /** True if `part` occurs somewhere inside `s`. */
  predicate Contains(s: string, part: string) {
    exists i :: 0 <= i <= |s| && OccursAt(s, part, i)
  }

  predicate OccursAt(s: string, part: string, i: nat)
    requires i <= |s|
  {
    part <= s[i..]
  }

  predicate StartsWith(s: string, prefix: string) {
    prefix <= s
  }

  /** What a text contains stands somewhere between the rest of it. */
  lemma ContainsSplit(s: string, part: string) returns (before: string, after: string)
    requires Contains(s, part)
    ensures s == before + part + after
  {
    var i :| 0 <= i <= |s| && OccursAt(s, part, i);
    before, after := s[..i], s[i..][|part|..];
  }

  lemma ContainsBetween(before: string, part: string, after: string)
    ensures Contains(before + part + after, part)
  {
    assert (before + part + after)[|before|..] == part + after;
    assert OccursAt(before + part + after, part, |before|);
  }

  lemma ContainsLonger(before: string, s: string, after: string, part: string)
    requires Contains(s, part)
    ensures Contains(before + s + after, part)
  {
    var i :| 0 <= i <= |s| && OccursAt(s, part, i);
    var longer := before + s + after;
    assert longer[|before| + i..] == s[i..] + after;
    assert OccursAt(longer, part, |before| + i);
  }

  /** A text without a separator occurs in joined texts exactly when it occurs in one of them. */
  lemma ContainsAcross(a: string, c: char, b: string, part: string)
    requires c !in part
    ensures Contains(a + [c] + b, part) <==> Contains(a, part) || Contains(b, part)
  {
    var s := a + [c] + b;
    if Contains(s, part) {
      var i :| 0 <= i <= |s| && OccursAt(s, part, i);
      assert s[|a|] == c;
      forall m | i <= m < i + |part|
        ensures s[m] != c
      {
        assert part[m - i] == s[i..][m - i];
      }
      if i + |part| <= |a| {
        assert a[i..][..|part|] == part;
        assert OccursAt(a, part, i);
      } else if i > |a| {
        assert s[i..] == b[i - |a| - 1..];
        assert OccursAt(b, part, i - |a| - 1);
      } else {
        assert false;
      }
    }
    if Contains(a, part) {
      ContainsLonger([], a, [c] + b, part);
      assert [] + a + ([c] + b) == s;
    }
    if Contains(b, part) {
      ContainsLonger(a + [c], b, [], part);
      assert (a + [c]) + b + [] == s;
    }
  }

  /** Every character of a text occurs where the text does. */
  lemma CharOccurs(s: string, part: string, c: char)
    requires c in part
    ensures Contains(s, part) ==> c in s
  {
    var k :| 0 <= k < |part| && part[k] == c;
    if i :| 0 <= i <= |s| && OccursAt(s, part, i) {
      assert s[i..][k] == c && s[i + k] in s;
    }
  }

  function LowerChar(c: char): char {
    if 'A' <= c <= 'Z' then (c as int + 32) as char else c
  }

  /** Upper-case letters become the lower-case letters at the same place of the alphabet; all else stays. */
  lemma LowerCharExact(c: char)
    ensures 'A' <= c <= 'Z' ==>
              'a' <= LowerChar(c) <= 'z' && LowerChar(c) as int - 'a' as int == c as int - 'A' as int
    ensures !('A' <= c <= 'Z') ==> LowerChar(c) == c
  {}

  /** ASCII lower-casing; other characters are kept. */
  function ToLower(s: string): (r: string)
    ensures |r| == |s|
    ensures forall i :: 0 <= i < |s| ==> r[i] == LowerChar(s[i])
  {
    seq(|s|, i requires 0 <= i < |s| => LowerChar(s[i]))
  }

  function Join(parts: seq<string>, separator: string): string {
    if parts == [] then ""
    else if |parts| == 1 then parts[0]
    else parts[0] + separator + Join(parts[1..], separator)
  }

  /** Each further part comes behind one more separator. */
  lemma {:induction false} JoinExact(parts: seq<string>, last: string, separator: string)
    ensures Join([], separator) == ""
    ensures Join(parts + [last], separator) == if parts == [] then last else Join(parts, separator) + separator + last
  {
    var all := parts + [last];
    if |parts| > 1 {
      JoinExact(parts[1..], last, separator);
      assert all[1..] == parts[1..] + [last];
    } else if |parts| == 1 {
      assert all[1..] == [last];
    }
  }

  /** What contains no separator occurs in joined texts exactly when it occurs in one of them. */
  lemma {:induction false} ContainsInJoin(parts: seq<string>, c: char, part: string)
    requires c !in part && parts != []
    ensures Contains(Join(parts, [c]), part) <==> exists i :: 0 <= i < |parts| && Contains(parts[i], part)
  {
    hide Contains;
    if |parts| == 1 {
      assert Join(parts, [c]) == parts[0];
    } else {
      var rest := parts[1..];
      ContainsInJoin(rest, c, part);
      ContainsAcross(parts[0], c, Join(rest, [c]), part);
      if i :| 0 <= i < |rest| && Contains(rest[i], part) {
        assert Contains(parts[i + 1], part);
      }
      if i :| 0 <= i < |parts| && Contains(parts[i], part) {
        assert i > 0 ==> rest[i - 1] == parts[i];
      }
    }
  }

  /** The text before the first `c`, or the whole text when `c` does not occur. */
  function Before(s: string, c: char): (r: string)
    ensures r <= s
    ensures c !in r
    ensures c !in s ==> r == s
    ensures c in s ==> |r| < |s| && s[|r|] == c
  {
    if s == [] || s[0] == c then ""
    else [s[0]] + Before(s[1..], c)
  }

  /** What is before the first `c` is fixed by the text up to and including it. */
  lemma {:induction false} BeforeSeparator(a: string, c: char, b: string)
    requires c !in a
    ensures Before(a + [c] + b, c) == a
  {
    var s := a + [c] + b;
    if a != [] {
      assert a[0] in a && s[0] == a[0];
      assert forall x :: x in a[1..] ==> x in a;
      assert s[1..] == a[1..] + [c] + b;
      BeforeSeparator(a[1..], c, b);
      assert a == [a[0]] + a[1..];
    }
  }

  /** What is left behind the leading `c`s. */
  function TrimStart(s: string, c: char): (r: string)
    ensures r == [] || r[0] != c
    ensures exists n :: 0 <= n <= |s| && r == s[n..] && forall i :: 0 <= i < n ==> s[i] == c
  {
    if s != [] && s[0] == c then
      var r := TrimStart(s[1..], c);
      var n :| 0 <= n <= |s[1..]| && r == s[1..][n..] && forall i :: 0 <= i < n ==> s[1..][i] == c;
      assert r == s[n + 1..];
      assert forall i :: 0 <= i < n + 1 ==> s[i] == if i == 0 then c else s[1..][i - 1];
      r
    else
      assert s == s[0..];
      s
  }

  /** What is left in front of the trailing `c`s. */
  function TrimEnd(s: string, c: char): (r: string)
    ensures r <= s && (r == [] || r[|r| - 1] != c)
    ensures forall i :: |r| <= i < |s| ==> s[i] == c
  {
    if s != [] && s[|s| - 1] == c then TrimEnd(s[..|s| - 1], c) else s
  }

  function ReplaceChar(s: string, old_: char, new_: char): (r: string)
    ensures |r| == |s|
    ensures forall i :: 0 <= i < |s| ==> r[i] == if s[i] == old_ then new_ else s[i]
  {
    seq(|s|, i requires 0 <= i < |s| => if s[i] == old_ then new_ else s[i])
  }

  function Digit(n: nat): char
    requires n < 10
  {
    "0123456789"[n]
  }

  /** Decimal digits of a number, most significant first. */
  function Decimal(n: nat): (r: string)
    ensures |r| >= 1
  {
    if n < 10 then [Digit(n)] else Decimal(n / 10) + [Digit(n % 10)]
  }

  predicate IsDigit(c: char) {
    '0' <= c <= '9'
  }

  /** The number that a row of digits stands for. */
  function ValueOf(s: string): nat
    requires forall i :: 0 <= i < |s| ==> IsDigit(s[i])
  {
    if s == [] then 0
    else
      assert IsDigit(s[|s| - 1]);
      10 * ValueOf(s[..|s| - 1]) + (s[|s| - 1] as int - '0' as int)
  }

  /** Numbers are written with digits alone, so that they read back, and without a leading zero. */
  lemma {:induction false} DecimalReadsBack(n: nat)
    ensures forall i :: 0 <= i < |Decimal(n)| ==> IsDigit(Decimal(n)[i])
    ensures ValueOf(Decimal(n)) == n
    ensures n > 0 ==> Decimal(n)[0] != '0'
  {
    DigitIs(n % 10);
    var s := Decimal(n);
    if n >= 10 {
      DecimalReadsBack(n / 10);
      assert s[..|s| - 1] == Decimal(n / 10);
    } else {
      assert s[..|s| - 1] == [];
    }
  }

  lemma DigitIs(n: nat)
    requires n < 10
    ensures Digit(n) as int == '0' as int + n
  {}

  /** Different numbers are written differently, so numbered ids are unique. */
  lemma {:induction false} DecimalInjective(m: nat, n: nat)
    requires Decimal(m) == Decimal(n)
    ensures m == n
  {
    var a, b := Decimal(m), Decimal(n);
    assert a[|a| - 1] == Digit(m % 10) && b[|b| - 1] == Digit(n % 10);
    assert m % 10 == n % 10;
    if m >= 10 && n >= 10 {
      assert a[..|a| - 1] == Decimal(m / 10) && b[..|b| - 1] == Decimal(n / 10);
      DecimalInjective(m / 10, n / 10);
    }
  }
}
