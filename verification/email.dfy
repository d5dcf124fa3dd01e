/**
 * The email shape check `/^[^\s@]+@[^\s@]+\.[^\s@]+$/`, used verbatim by the
 * register and add-user controllers and by the Register and Profile pages.
 */
module Email {
  import opened Text

  /** A character of the class `[^\s@]`. */
  predicate PartChar(c: char) {
    !IsSpace(c) && c != '@'
  }

  /** `[^\s@]+`: a non-empty run of such characters. */
  predicate Part(s: string) {
    |s| > 0 && forall i :: 0 <= i < |s| ==> PartChar(s[i])
  }

  /** What the regular expression accepts, read literally: the string splits at an
      `@` (index `i`) and a later `.` (index `j`) into three non-empty `[^\s@]` runs. */
  ghost predicate RegexMatch(s: string) {
    exists i, j :: 0 < i && i + 1 < j && j + 1 < |s| && IsSplit(s, i, j)
  }

  ghost predicate IsSplit(s: string, i: int, j: int)
    requires 0 < i && i + 1 < j && j + 1 < |s|
  {
    s[i] == '@' && s[j] == '.' && Part(s[..i]) && Part(s[i + 1..j]) && Part(s[j + 1..])
  }

  /** The number of occurrences of `c` in `s`. */
  function Count(s: string, c: char): (n: nat)
    ensures n <= |s|
  {
    if s == [] then 0 else (if s[0] == c then 1 else 0) + Count(s[1..], c)
  }

  /** `s.indexOf(c)`, with `|s|` standing for -1 when `c` does not occur. */
  function IndexOf(s: string, c: char): (r: nat)
    ensures r <= |s|
    ensures r < |s| ==> s[r] == c
    ensures forall k :: 0 <= k < r ==> s[k] != c
  {
    if s == [] then 0 else if s[0] == c then 0 else 1 + IndexOf(s[1..], c)
  }

  predicate NoSpace(s: string) {
    forall k :: 0 <= k < |s| ==> !IsSpace(s[k])
  }

  /** The domain has a `.` that is neither its first nor its last character. */
  predicate InnerDot(d: string) {
    exists k :: 0 < k < |d| - 1 && d[k] == '.'
  }

  /** The shape check in plain terms: no whitespace, exactly one `@`, a non-empty
      local part before it, and an inner `.` in the domain after it. */
  predicate ValidEmail(s: string)
    ensures ValidEmail(s) ==> 5 <= |s| && 0 < IndexOf(s, '@') < |s| - 3
  {
    var at := IndexOf(s, '@');
    NoSpace(s) && Count(s, '@') == 1 && 0 < at < |s| && InnerDot(s[at + 1..])
  }

  lemma {:induction false} CountAppend(a: string, b: string, c: char)
    ensures Count(a + b, c) == Count(a, c) + Count(b, c)
    decreases |a|
  {
    if a != [] {
      CountAppend(a[1..], b, c);
      assert (a + b)[0] == a[0];
      assert (a + b)[1..] == a[1..] + b;
    } else {
      assert a + b == b;
    }
  }

  lemma {:induction false} CountZero(s: string, c: char)
    ensures Count(s, c) == 0 <==> c !in s
    decreases |s|
  {
    if s != [] {
      CountZero(s[1..], c);
      assert s == [s[0]] + s[1..];
    }
  }

  /** With exactly one occurrence of `c`, it is the one at the first index. */
  lemma OnlyOccurrence(s: string, c: char, q: nat)
    requires Count(s, c) == 1 && q < |s| && s[q] == c
    ensures q == IndexOf(s, c)
  {
    var p := IndexOf(s, c);
    if p != q {
      if p == |s| {
        CountZero(s, c);
      } else {
        var lo, hi := if p < q then p else q, if p < q then q else p;
        assert s == s[..lo] + [s[lo]] + s[lo + 1..hi] + [s[hi]] + s[hi + 1..];
        CountAppend(s[..lo] + [s[lo]] + s[lo + 1..hi] + [s[hi]], s[hi + 1..], c);
        CountAppend(s[..lo] + [s[lo]] + s[lo + 1..hi], [s[hi]], c);
        CountAppend(s[..lo] + [s[lo]], s[lo + 1..hi], c);
        CountAppend(s[..lo], [s[lo]], c);
        assert false;
      }
    }
  }

  /** After the first occurrence of a character that occurs once, it does not occur again. */
  lemma NoneAfterOnly(s: string, c: char)
    requires Count(s, c) == 1
    ensures IndexOf(s, c) < |s| && c !in s[IndexOf(s, c) + 1..]
  {
    var i := IndexOf(s, c);
    if i == |s| {
      CountZero(s, c);
    }
    var d := s[i + 1..];
    assert s == s[..i] + [s[i]] + d;
    CountAppend(s[..i] + [s[i]], d, c);
    CountAppend(s[..i], [s[i]], c);
    CountZero(d, c);
  }

  lemma ValidEmailIsMatch(s: string)
    requires ValidEmail(s)
    ensures RegexMatch(s)
  {
    var i := IndexOf(s, '@');
    NoneAfterOnly(s, '@');
    var d := s[i + 1..];
    var k :| 0 < k < |d| - 1 && d[k] == '.';
    var j := i + 1 + k;
    forall m | 0 <= m < |s| && m != i ensures PartChar(s[m]) {
      if m > i { assert s[m] == d[m - i - 1]; }
    }
    assert Part(s[..i]);
    var mid, tail := s[i + 1..j], s[j + 1..];
    forall m | 0 <= m < |mid| ensures PartChar(mid[m]) {
      assert mid[m] == s[i + 1 + m] && i + 1 + m != i;
    }
    forall m | 0 <= m < |tail| ensures PartChar(tail[m]) {
      assert tail[m] == s[j + 1 + m] && j + 1 + m != i;
    }
    assert IsSplit(s, i, j);
  }

  /** Three runs free of `@`, joined by an `@` and a `.`, hold exactly one `@`. */
  lemma CountOfSplit(a: string, b: string, c: string)
    requires '@' !in a && '@' !in b && '@' !in c
    ensures Count(a + ['@'] + b + ['.'] + c, '@') == 1
  {
    CountZero(a, '@'); CountZero(b, '@'); CountZero(c, '@');
    CountAppend(a + ['@'] + b + ['.'], c, '@');
    CountAppend(a + ['@'] + b, ['.'], '@');
    CountAppend(a + ['@'], b, '@');
    CountAppend(a, ['@'], '@');
  }

  lemma SplitNoSpace(s: string, i: int, j: int)
    requires 0 < i && i + 1 < j && j + 1 < |s| && IsSplit(s, i, j)
    ensures NoSpace(s)
  {
    var a, b, c := s[..i], s[i + 1..j], s[j + 1..];
    forall m | 0 <= m < |s| ensures !IsSpace(s[m]) {
      if m < i { assert s[m] == a[m]; }
      else if i < m < j { assert s[m] == b[m - i - 1]; }
      else if j < m { assert s[m] == c[m - j - 1]; }
    }
  }

  lemma MatchIsValidEmail(s: string)
    requires RegexMatch(s)
    ensures ValidEmail(s)
  {
    var i, j :| 0 < i && i + 1 < j && j + 1 < |s| && IsSplit(s, i, j);
    var a, b, c := s[..i], s[i + 1..j], s[j + 1..];
    assert s == a + ['@'] + b + ['.'] + c;
    assert '@' !in a && '@' !in b && '@' !in c by {
      assert forall m :: 0 <= m < |a| ==> PartChar(a[m]);
      assert forall m :: 0 <= m < |b| ==> PartChar(b[m]);
      assert forall m :: 0 <= m < |c| ==> PartChar(c[m]);
    }
    CountOfSplit(a, b, c);
    OnlyOccurrence(s, '@', i);
    SplitNoSpace(s, i, j);
    var d := s[i + 1..];
    assert d[j - i - 1] == '.';
    assert InnerDot(d);
  }

  /** The plain-terms check accepts exactly the strings the regular expression accepts. */
  lemma ValidEmailIffMatch(s: string)
    ensures ValidEmail(s) <==> RegexMatch(s)
  {
    if ValidEmail(s) { ValidEmailIsMatch(s); }
    if RegexMatch(s) { MatchIsValidEmail(s); }
  }
}
