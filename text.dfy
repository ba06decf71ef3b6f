/**
 * String and character helpers shared by every module: the JavaScript string
 * operations the scanners rely on (`includes`, `startsWith`, `split`, `join`,
 * `lastIndexOf`, `trim`, ASCII case mapping), the character classes used by
 * the regular expressions (`\d`, `\s`, `\w`, line terminators) and an Option
 * type for the values the source spells `T | null` or `T | undefined`.
 */
module Text {

  datatype Option<T> = None | Some(value: T)

  /**
   * The all-lower-case names every object literal inherits from
   * `Object.prototype`: indexing a plain object with one of them yields a
   * truthy value that the object never stored.
   */
  const INHERITED_MEMBERS: seq<string> := ["constructor", "__proto__"]

  // ---------------------------------------------------------------------
  // Substrings

  /** `p` occurs in `s` starting at index `i`. */
  predicate At(s: string, i: int, p: string)
  {
    0 <= i && i + |p| <= |s| && s[i..i + |p|] == p
  }

  /** `s.includes(p)` */
  predicate Contains(s: string, p: string)
  {
    exists i | 0 <= i <= |s| :: At(s, i, p)
  }

  /** `s.startsWith(p)` */
  predicate StartsWith(s: string, p: string)
  {
    At(s, 0, p)
  }

  /** `s.endsWith(p)` */
  predicate EndsWith(s: string, p: string)
  {
    |p| <= |s| && At(s, |s| - |p|, p)
  }

  /** Any occurrence witnesses `includes`. */
  lemma AtContains(s: string, i: int, p: string)
    requires At(s, i, p)
    ensures Contains(s, p)
  {
  }

  /** Every character of a contained string is a character of the container. */
  lemma {:induction false} ContainedChar(s: string, p: string, c: char)
    requires Contains(s, p) && c in p
    ensures c in s
  {
    var i :| 0 <= i <= |s| && At(s, i, p);
    var j :| 0 <= j < |p| && p[j] == c;
    assert s[i..i + |p|][j] == s[i + j];
  }

  /** A string that lacks one character of `p` cannot contain `p`. */
  lemma MissingCharNotContained(s: string, p: string, c: char)
    requires c in p && c !in s
    ensures !Contains(s, p)
  {
    if Contains(s, p) {
      ContainedChar(s, p, c);
    }
  }

  /** A string that contains `p + q` contains `p`. */
  lemma ContainsPrefixPart(s: string, p: string, q: string)
    requires Contains(s, p + q)
    ensures Contains(s, p)
  {
    var i :| 0 <= i <= |s| && At(s, i, p + q);
    assert s[i..i + |p|] == s[i..i + |p + q|][..|p|];
    assert At(s, i, p);
  }

  /** A string that avoids one of `k`'s characters does not contain `k`. */
  lemma AvoidsNotContained(s: string, cs: set<char>, k: string, j: int)
    requires Avoids(s, cs) && 0 <= j < |k| && k[j] in cs
    ensures !Contains(s, k)
  {
    MissingCharNotContained(s, k, k[j]);
  }

  /**
   * `a + b` does not contain `k` when `a` lacks `k`'s first character and `b`,
   * no longer than `k`, is not `k` itself.
   */
  lemma NotContainedAcross(a: string, b: string, k: string)
    requires |k| > 0 && k[0] !in a && |k| >= |b| && b != k
    ensures !Contains(a + b, k)
  {
  }

  /**
   * A string whose first character is the only place `k`'s first character
   * occurs, and whose second character differs from `k`'s, does not contain `k`.
   */
  lemma NotContainedPastHead(s: string, k: string)
    requires |s| >= 2 && |k| >= 2 && s[1] != k[1] && k[0] !in s[1..]
    ensures !Contains(s, k)
  {
  }

  /** A string contains itself. */
  lemma ContainsSelf(s: string)
    ensures Contains(s, s)
  {
    assert At(s, 0, s);
  }

  /** An occurrence in a part is an occurrence in the whole. */
  lemma ContainsInMiddle(a: string, s: string, b: string, p: string)
    requires Contains(s, p)
    ensures Contains(a + s + b, p)
  {
    var i :| 0 <= i <= |s| && At(s, i, p);
    assert (a + s + b)[|a| + i..|a| + i + |p|] == s[i..i + |p|];
    assert At(a + s + b, |a| + i, p);
  }

  // ---------------------------------------------------------------------
  // Character classes

  predicate IsDigit(c: char) { '0' <= c <= '9' }
  predicate IsUpper(c: char) { 'A' <= c <= 'Z' }
  predicate IsLower(c: char) { 'a' <= c <= 'z' }
  predicate IsLetter(c: char) { IsUpper(c) || IsLower(c) }
  predicate IsHexDigit(c: char) { IsDigit(c) || 'a' <= c <= 'f' || 'A' <= c <= 'F' }

  /** `\w` without the `u` flag: ASCII letters, digits and underscore. */
  predicate IsWordChar(c: char) { IsLetter(c) || IsDigit(c) || c == '_' }

  /** The line terminators that `.` in a JavaScript regular expression refuses. */
  predicate IsLineBreak(c: char)
  {
    c == '\n' || c == '\r' || c == '\U{2028}' || c == '\U{2029}'
  }

  /** `\s`, and what `String.prototype.trim` removes: ECMAScript WhiteSpace and LineTerminator. */
  predicate IsSpace(c: char)
  {
    c == ' ' || c == '\t' || c == '\U{000B}' || c == '\U{000C}' || c == '\U{00A0}' || c == '\U{FEFF}'
    || c == '\U{1680}' || ('\U{2000}' <= c <= '\U{200A}') || c == '\U{202F}' || c == '\U{205F}'
    || c == '\U{3000}' || IsLineBreak(c)
  }

  predicate AllDigits(s: string) { forall i | 0 <= i < |s| :: IsDigit(s[i]) }
  predicate AllHexDigits(s: string) { forall i | 0 <= i < |s| :: IsHexDigit(s[i]) }
  predicate AllLetters(s: string) { forall i | 0 <= i < |s| :: IsLetter(s[i]) }
  predicate NoLineBreak(s: string) { forall i | 0 <= i < |s| :: !IsLineBreak(s[i]) }

  /** No character of `s` is one of `cs`. */
  predicate Avoids(s: string, cs: set<char>) { forall i | 0 <= i < |s| :: s[i] !in cs }

  /** `s.trim() === ''` */
  predicate IsBlank(s: string) { forall i | 0 <= i < |s| :: IsSpace(s[i]) }

  // ---------------------------------------------------------------------
  // Case mapping (ASCII letters only)

  function LowerChar(c: char): char
  {
    if IsUpper(c) then (c as int + 32) as char else c
  }

  function UpperChar(c: char): char
  {
    if IsLower(c) then (c as int - 32) as char else c
  }

  function ToLower(s: string): (r: string)
    ensures |r| == |s|
    ensures forall i | 0 <= i < |s| :: r[i] == LowerChar(s[i])
  {
    if |s| == 0 then "" else [LowerChar(s[0])] + ToLower(s[1..])
  }

  function ToUpper(s: string): (r: string)
    ensures |r| == |s|
    ensures forall i | 0 <= i < |s| :: r[i] == UpperChar(s[i])
  {
    if |s| == 0 then "" else [UpperChar(s[0])] + ToUpper(s[1..])
  }

  /** Case mapping leaves every character that is not an ASCII letter alone. */
  lemma LowerKeepsNonLetters(s: string, c: char)
    requires !IsLetter(c)
    ensures c in ToLower(s) <==> c in s
  {
    if c in s {
      var i :| 0 <= i < |s| && s[i] == c;
      assert ToLower(s)[i] == c;
    }
    if c in ToLower(s) {
      var i :| 0 <= i < |s| && ToLower(s)[i] == c;
      assert s[i] == c;
    }
  }

  // ---------------------------------------------------------------------
  // split / join / lastIndexOf / trim

  /** Number of occurrences of `c` in `s`. */
  function Count(s: string, c: char): nat
  {
    if |s| == 0 then 0 else (if s[0] == c then 1 else 0) + Count(s[1..], c)
  }

  /** `s.split(c)` for a one-character separator. */
  function Split(s: string, c: char): (r: seq<string>)
    ensures |r| >= 1
  {
    if |s| == 0 then [""]
    else
      var rest := Split(s[1..], c);
      if s[0] == c then [""] + rest
      else [[s[0]] + rest[0]] + rest[1..]
  }

  /** `parts.join(c)` */
  function Join(parts: seq<string>, c: char): string
  {
    if |parts| == 0 then ""
    else if |parts| == 1 then parts[0]
    else parts[0] + [c] + Join(parts[1..], c)
  }

  /** A character counted in a string occurs in it. */
  lemma {:induction false} CountedIn(s: string, c: char)
    requires Count(s, c) > 0
    ensures c in s
  {
    if s[0] != c {
      CountedIn(s[1..], c);
    }
  }

  /** A character that occurs is counted. */
  lemma {:induction false} CountPositive(s: string, c: char, k: int)
    requires 0 <= k < |s| && s[k] == c
    ensures Count(s, c) > 0
  {
    if k > 0 && s[0] != c {
      CountPositive(s[1..], c, k - 1);
    }
  }

  /** `split` makes one part more than there are separators. */
  lemma {:induction false} SplitLength(s: string, c: char)
    ensures |Split(s, c)| == Count(s, c) + 1
  {
    if |s| > 0 {
      SplitLength(s[1..], c);
    }
  }

  /** No part of a split holds the separator. */
  lemma {:induction false} SplitPartsFree(s: string, c: char)
    ensures forall k | 0 <= k < |Split(s, c)| :: c !in Split(s, c)[k]
  {
    if |s| > 0 {
      SplitPartsFree(s[1..], c);
    }
  }

  /** A string without the separator splits into itself. */
  lemma {:induction false} SplitNoSeparator(s: string, c: char)
    requires c !in s
    ensures Split(s, c) == [s]
  {
    if |s| > 0 {
      SplitNoSeparator(s[1..], c);
      assert [s[0]] + s[1..] == s;
    }
  }

  /** Splitting at the first separator: the text before it is the first part. */
  lemma {:induction false} SplitAtFirst(a: string, b: string, c: char)
    requires c !in a
    ensures Split(a + [c] + b, c) == [a] + Split(b, c)
  {
    var s := a + [c] + b;
    if |a| == 0 {
      assert s[1..] == b;
    } else {
      assert s[1..] == a[1..] + [c] + b;
      SplitAtFirst(a[1..], b, c);
      assert [a[0]] + a[1..] == a;
    }
  }

  /** Joining the parts with the separator gives the string back. */
  lemma {:induction false} JoinSplit(s: string, c: char)
    ensures Join(Split(s, c), c) == s
  {
    if |s| > 0 {
      var rest := Split(s[1..], c);
      JoinSplit(s[1..], c);
      if s[0] == c {
        assert Split(s, c) == [""] + rest;
        assert Join([""] + rest, c) == "" + [c] + Join(rest, c);
      } else {
        var r := [[s[0]] + rest[0]] + rest[1..];
        assert Split(s, c) == r;
        if |rest| == 1 {
          assert Join(r, c) == [s[0]] + rest[0];
        } else {
          assert r[1..] == rest[1..];
          assert Join(rest, c) == rest[0] + [c] + Join(rest[1..], c);
        }
      }
    }
  }

  /** Joining one more part appends the separator and the part. */
  lemma {:induction false} JoinSnoc(parts: seq<string>, last: string, c: char)
    requires |parts| > 0
    ensures Join(parts + [last], c) == Join(parts, c) + [c] + last
  {
    if |parts| > 1 {
      assert (parts + [last])[1..] == parts[1..] + [last];
      JoinSnoc(parts[1..], last, c);
    }
  }

  /** The parts after the first, joined again, are the text after the first separator. */
  lemma {:induction false} JoinTail(s: string, c: char)
    requires c in s
    ensures Join(Split(s, c)[1..], c) == s[IndexOf(s, c) + 1..]
  {
    var rest := Split(s[1..], c);
    if s[0] == c {
      assert Split(s, c)[1..] == rest;
      JoinSplit(s[1..], c);
    } else {
      assert c in s[1..];
      assert Split(s, c)[1..] == rest[1..];
      JoinTail(s[1..], c);
      assert s[1..][IndexOf(s[1..], c) + 1..] == s[IndexOf(s, c) + 1..];
    }
  }

  /** `s.lastIndexOf(c)`: the largest index holding `c`, or -1. */
  function LastIndexOf(s: string, c: char): (r: int)
    ensures -1 <= r < |s|
    ensures r >= 0 ==> s[r] == c
    ensures forall k | r < k < |s| :: s[k] != c
  {
    if |s| == 0 then -1
    else if s[|s| - 1] == c then |s| - 1
    else LastIndexOf(s[..|s| - 1], c)
  }

  /** `s.indexOf(c)`: the smallest index holding `c`, or -1. */
  function IndexOf(s: string, c: char): (r: int)
    ensures -1 <= r < |s|
    ensures r >= 0 ==> s[r] == c
    ensures forall k | 0 <= k < (if r < 0 then |s| else r) :: s[k] != c
  {
    if |s| == 0 then -1
    else if s[0] == c then 0
    else var k := IndexOf(s[1..], c); if k < 0 then -1 else k + 1
  }

  function TrimStart(s: string): (r: string)
    ensures |r| <= |s|
  {
    if |s| > 0 && IsSpace(s[0]) then TrimStart(s[1..]) else s
  }

  function TrimEnd(s: string): (r: string)
    ensures |r| <= |s|
  {
    if |s| > 0 && IsSpace(s[|s| - 1]) then TrimEnd(s[..|s| - 1]) else s
  }

  /** `s.trim()` */
  function Trim(s: string): string
  {
    TrimEnd(TrimStart(s))
  }

  /** `s.substring(0, n)`: the argument is clamped to the string. */
  function Take(s: string, n: int): (r: string)
    ensures |r| == if n < 0 then 0 else if n > |s| then |s| else n
    ensures r <= s
  {
    if n <= 0 then "" else if n >= |s| then s else s[..n]
  }

  function Min(a: int, b: int): int { if a <= b then a else b }
  function Max(a: int, b: int): int { if a >= b then a else b }

  /** `xs.some(x => x.includes(p))` */
  predicate SomeContains(xs: seq<string>, p: string)
  {
    exists i | 0 <= i < |xs| :: Contains(xs[i], p)
  }

  /** `some` over two lists joined is `some` over either. */
  lemma SomeContainsAppend(xs: seq<string>, ys: seq<string>, p: string)
    ensures SomeContains(xs + ys, p) <==> SomeContains(xs, p) || SomeContains(ys, p)
  {
    if SomeContains(xs, p) {
      var i :| 0 <= i < |xs| && Contains(xs[i], p);
      assert (xs + ys)[i] == xs[i];
    }
    if SomeContains(ys, p) {
      var i :| 0 <= i < |ys| && Contains(ys[i], p);
      assert (xs + ys)[|xs| + i] == ys[i];
    }
    if SomeContains(xs + ys, p) && !SomeContains(xs, p) {
      var i :| 0 <= i < |xs + ys| && Contains((xs + ys)[i], p);
      assert ys[i - |xs|] == (xs + ys)[i];
    }
  }

  /**
   * `table[k]` on an object literal used as a dictionary: the value of the
   * entry whose key is `k`, if any.
   */
  function Lookup(table: seq<(string, string)>, k: string): (r: Option<string>)
    ensures r.Some? ==> exists i | 0 <= i < |table| :: table[i] == (k, r.value)
    ensures r.None? <==> forall i | 0 <= i < |table| :: table[i].0 != k
  {
    if |table| == 0 then None
    else if table[0].0 == k then Some(table[0].1)
    else Lookup(table[1..], k)
  }

  /** The lookup finds the first entry with the key. */
  lemma {:induction false} LookupFinds(table: seq<(string, string)>, k: string, i: nat)
    requires i < |table| && table[i].0 == k
    requires forall j | 0 <= j < i :: table[j].0 != k
    ensures Lookup(table, k) == Some(table[i].1)
  {
    if i > 0 {
      assert forall j | 0 <= j < i - 1 :: table[1..][j] == table[j + 1];
      LookupFinds(table[1..], k, i - 1);
    }
  }

  /** `xs.some(x => s.includes(x))` */
  predicate ContainsAny(s: string, xs: seq<string>)
  {
    exists k | 0 <= k < |xs| :: Contains(s, xs[k])
  }

  /** `xs.some(x => s.endsWith(x))` */
  predicate EndsWithAny(s: string, xs: seq<string>)
  {
    exists k | 0 <= k < |xs| :: EndsWith(s, xs[k])
  }

  // ---------------------------------------------------------------------
  // Decimal numerals

  /** `String(n)` for a non-negative integer: its decimal digits, no leading zero. */
  function NatToString(n: nat): (r: string)
    ensures |r| >= 1 && AllDigits(r)
    ensures |r| > 1 ==> r[0] != '0'
  {
    if n < 10 then [DigitChar(n)] else NatToString(n / 10) + [DigitChar(n % 10)]
  }

  function DigitChar(d: nat): (c: char)
    requires d < 10
    ensures IsDigit(c) && c as int - '0' as int == d
  {
    ('0' as int + d) as char
  }

  /** The value of a string of decimal digits. */
  function DigitsValue(s: string): nat
    requires AllDigits(s)
  {
    if |s| == 0 then 0 else 10 * DigitsValue(s[..|s| - 1]) + (s[|s| - 1] as int - '0' as int)
  }

  /** Reading the numeral back gives the number. */
  lemma {:induction false} NatToStringValue(n: nat)
    ensures DigitsValue(NatToString(n)) == n
  {
    if n >= 10 {
      var r := NatToString(n);
      NatToStringValue(n / 10);
      assert r[..|r| - 1] == NatToString(n / 10);
    }
  }

  /** `xs` is `ys` with some elements left out, the rest in their order. */
  ghost predicate Subsequence<X>(xs: seq<X>, ys: seq<X>)
    decreases |ys|
  {
    if |xs| == 0 then true
    else if |ys| == 0 then false
    else
      (xs[|xs| - 1] == ys[|ys| - 1] && Subsequence(xs[..|xs| - 1], ys[..|ys| - 1]))
      || Subsequence(xs, ys[..|ys| - 1])
  }

  /** A subsequence stays one when the longer sequence grows at the end. */
  lemma {:induction false} SubsequenceGrows<X>(xs: seq<X>, ys: seq<X>, y: X)
    requires Subsequence(xs, ys)
    ensures Subsequence(xs, ys + [y])
  {
    assert (ys + [y])[..|ys|] == ys;
  }
}
