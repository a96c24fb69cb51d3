/**
 * Value types and sequence/string helpers shared by the other modules: the
 * JavaScript operations the source relies on (`startsWith`, `includes`,
 * `filter`, `slice`, number-to-string) stated once, with the facts the other
 * modules need about them.
 */
module Common {

  datatype Option<+T> = None | Some(value: T) {
    /** `x || default` / `x ?? default` for a value that is either present or absent. */
    function GetOr(default: T): T {
      match this
      case Some(v) => v
      case None => default
    }
  }

  datatype Result<+T, +E> = Success(value: T) | Failure(error: E)

  function Min(a: int, b: int): int { if a <= b then a else b }
  function Max(a: int, b: int): int { if a >= b then a else b }

  // ---------------------------------------------------------------------------
  // Strings
  // ---------------------------------------------------------------------------

  /** `s.startsWith(p)`, compared character by character. */
  predicate StartsWith(s: string, p: string)
    decreases |p|
  {
    |p| == 0 || (|s| > 0 && s[0] == p[0] && StartsWith(s[1..], p[1..]))
  }

  /** `startsWith` holds exactly when p is the prefix of s of its own length. */
  lemma {:induction false} StartsWithIsPrefix(s: string, p: string)
    ensures StartsWith(s, p) <==> |p| <= |s| && s[..|p|] == p
    decreases |p|
  {
    if |p| > 0 && |s| > 0 {
      StartsWithIsPrefix(s[1..], p[1..]);
      if |p| <= |s| && s[..|p|] == p {
        assert s[1..][..|p| - 1] == s[..|p|][1..];
      }
      if s[0] == p[0] && |p| - 1 <= |s| - 1 && s[1..][..|p| - 1] == p[1..] {
        assert s[..|p|] == [s[0]] + s[1..][..|p| - 1];
        assert p == [p[0]] + p[1..];
      }
    }
  }

  /** `s.includes(t)`: t occurs in s at some position. */
  predicate Contains(s: string, t: string) {
    exists i :: 0 <= i <= |s| - |t| && OccursAt(s, t, i)
  }

  /** An occurrence of t in s, as a position. */
  predicate OccursAt(s: string, t: string, i: int) {
    0 <= i && i + |t| <= |s| && s[i..i + |t|] == t
  }

  lemma SliceOfSlice<T>(s: seq<T>, i: nat, n: nat, j: nat, m: nat)
    requires i + n <= |s| && j + m <= n
    ensures s[i..i + n][j..j + m] == s[i + j..i + j + m]
  {
    var outer := s[i..i + n];
    var x, y := outer[j..j + m], s[i + j..i + j + m];
    forall k | 0 <= k < m ensures x[k] == y[k] {
      assert x[k] == outer[j + k];
    }
  }

  lemma AppendSliceLeft<T>(x: seq<T>, y: seq<T>, i: nat, j: nat)
    requires i <= j <= |x|
    ensures (x + y)[i..j] == x[i..j]
  {
    forall k | 0 <= k < j - i ensures (x + y)[i..j][k] == x[i..j][k] {
      assert (x + y)[i..j][k] == (x + y)[i + k];
    }
  }

  lemma AppendSliceRight<T>(x: seq<T>, y: seq<T>, i: nat, j: nat)
    requires |x| <= i <= j <= |x| + |y|
    ensures (x + y)[i..j] == y[i - |x|..j - |x|]
  {
    forall k | 0 <= k < j - i ensures (x + y)[i..j][k] == y[i - |x|..j - |x|][k] {
      assert (x + y)[i..j][k] == (x + y)[i + k];
    }
  }

  /** A word of the sentence `a + " " + b` that holds no space holds any space-free text found in it. */
  lemma SplitAtSpace(a: string, b: string, t: string)
    requires ' ' !in t
    requires Contains(a + " " + b, t)
    ensures Contains(a, t) || Contains(b, t)
  {
    var s := a + " " + b;
    var i :| OccursAt(s, t, i);
    assert OccursAt(s, t, i);
    if i + |t| <= |a| {
      AppendSliceLeft(a + " ", b, i, i + |t|);
      AppendSliceLeft(a, " ", i, i + |t|);
      assert OccursAt(a, t, i);
    } else if i > |a| {
      AppendSliceRight(a + " ", b, i, i + |t|);
      assert OccursAt(b, t, i - |a| - 1);
    } else {
      SpaceInsideOccurrence(a, b, t, i);
      assert false;
    }
  }

  /** An occurrence in `a + " " + b` that covers the separator holds a space. */
  lemma SpaceInsideOccurrence(a: string, b: string, t: string, i: int)
    requires OccursAt(a + " " + b, t, i) && i <= |a| < i + |t|
    ensures ' ' in t
  {
    var s := a + " " + b;
    assert s[|a|] == ' ';
    assert t[|a| - i] == s[i..i + |t|][|a| - i];
  }

  /** A text holding a character that p lacks does not occur in p. */
  lemma CharRulesOut(p: string, t: string, c: char)
    requires c in t && c !in p
    ensures !Contains(p, t)
  {
    var k :| 0 <= k < |t| && t[k] == c;
    forall i | 0 <= i <= |p| - |t| ensures !OccursAt(p, t, i) {
      assert p[i..i + |t|][k] == p[i + k];
    }
  }

  /** Phrases joined by single spaces. */
  function Sentence(phrases: seq<string>): string
    decreases |phrases|
  {
    if |phrases| == 0 then ""
    else if |phrases| == 1 then phrases[0]
    else phrases[0] + " " + Sentence(phrases[1..])
  }

  /** Every phrase of a sentence occurs in it. */
  lemma {:induction false} SentenceHolds(phrases: seq<string>, k: nat)
    requires k < |phrases|
    ensures Contains(Sentence(phrases), phrases[k])
    decreases |phrases|
  {
    if |phrases| == 1 || k == 0 {
      ContainsSelf(phrases[k]);
      if |phrases| > 1 {
        ContainsInfix("", phrases[0], " " + Sentence(phrases[1..]), phrases[0]);
        assert "" + phrases[0] + (" " + Sentence(phrases[1..])) == Sentence(phrases);
      }
    } else {
      SentenceHolds(phrases[1..], k - 1);
      ContainsInfix(phrases[0] + " ", Sentence(phrases[1..]), "", phrases[k]);
      assert phrases[0] + " " + Sentence(phrases[1..]) + "" == Sentence(phrases);
    }
  }

  /**
   * A space-free text does not occur in a sentence when every phrase lacks one
   * of its characters; `witnesses[k]` is the character phrase k lacks.
   */
  lemma {:induction false} SentenceRulesOut(phrases: seq<string>, t: string, witnesses: seq<char>)
    requires ' ' !in t && |phrases| > 0 && |witnesses| == |phrases|
    requires forall k :: 0 <= k < |phrases| ==> witnesses[k] in t && witnesses[k] !in phrases[k]
    ensures !Contains(Sentence(phrases), t)
    decreases |phrases|
  {
    CharRulesOut(phrases[0], t, witnesses[0]);
    if |phrases| > 1 {
      SentenceRulesOut(phrases[1..], t, witnesses[1..]);
      if Contains(Sentence(phrases), t) {
        SplitAtSpace(phrases[0], Sentence(phrases[1..]), t);
      }
    }
  }

  lemma ContainsSelf(t: string)
    ensures Contains(t, t)
  {
    assert OccursAt(t, t, 0);
  }

  /** Whatever occurs in a part of a text occurs in the text. */
  lemma ContainsInfix(a: string, b: string, c: string, t: string)
    requires Contains(b, t)
    ensures Contains(a + b + c, t)
  {
    var i :| OccursAt(b, t, i);
    assert OccursAt(b, t, i);
    var s := a + b + c;
    assert s[|a| + i..|a| + i + |t|] == b[i..i + |t|];
    assert OccursAt(s, t, |a| + i);
  }

  /** An occurrence of a part of the needle follows from an occurrence of the needle. */
  lemma ContainsTransitive(s: string, t: string, u: string)
    requires Contains(s, t) && Contains(t, u)
    ensures Contains(s, u)
  {
    var i :| OccursAt(s, t, i);
    assert OccursAt(s, t, i);
    var j :| OccursAt(t, u, j);
    assert OccursAt(t, u, j);
    SliceOfSlice(s, i, |t|, j, |u|);
    assert OccursAt(s, u, i + j);
  }

  function DigitChar(d: nat): char
    requires d < 10
  {
    ('0' as int + d) as char
  }

  function DigitValue(c: char): int {
    c as int - '0' as int
  }

  predicate IsDigit(c: char) {
    '0' <= c <= '9'
  }

  /** `String(n)` for a non-negative integer: its decimal digits. */
  function NatToString(n: nat): (r: string)
    ensures |r| >= 1
    ensures forall k :: 0 <= k < |r| ==> IsDigit(r[k])
    decreases n
  {
    if n < 10 then [DigitChar(n)] else NatToString(n / 10) + [DigitChar(n % 10)]
  }

  /** The value of a string of decimal digits, read from the left. */
  function DigitsValue(s: string): int
    decreases |s|
  {
    if |s| == 0 then 0 else DigitsValue(s[..|s| - 1]) * 10 + DigitValue(s[|s| - 1])
  }

  /** Reading the decimal digits back gives the number. */
  lemma {:induction false} NatToStringValue(n: nat)
    ensures DigitsValue(NatToString(n)) == n
    decreases n
  {
    if n >= 10 {
      NatToStringValue(n / 10);
      var r := NatToString(n);
      assert r[..|r| - 1] == NatToString(n / 10);
    }
  }

  /** The lines of a template literal, joined with line breaks. */
  function JoinLines(lines: seq<string>): string
    decreases |lines|
  {
    if |lines| == 0 then ""
    else if |lines| == 1 then lines[0]
    else lines[0] + "\n" + JoinLines(lines[1..])
  }

  /** Every line of a joined text occurs in it. */
  lemma {:induction false} JoinLinesHolds(lines: seq<string>, k: nat)
    requires k < |lines|
    ensures Contains(JoinLines(lines), lines[k])
    decreases |lines|
  {
    if |lines| == 1 || k == 0 {
      ContainsSelf(lines[k]);
      if |lines| > 1 {
        ContainsInfix("", lines[0], "\n" + JoinLines(lines[1..]), lines[0]);
        assert "" + lines[0] + ("\n" + JoinLines(lines[1..])) == JoinLines(lines);
      }
    } else {
      JoinLinesHolds(lines[1..], k - 1);
      ContainsInfix(lines[0] + "\n", JoinLines(lines[1..]), "", lines[k]);
      assert lines[0] + "\n" + JoinLines(lines[1..]) + "" == JoinLines(lines);
    }
  }

  /** A given line of a joined text occurs in it. */
  lemma JoinLinesHas(lines: seq<string>, k: nat, line: string)
    requires k < |lines| && lines[k] == line
    ensures Contains(JoinLines(lines), line)
  {
    JoinLinesHolds(lines, k);
  }

  // ---------------------------------------------------------------------------
  // Sequences
  // ---------------------------------------------------------------------------

  /** `s.slice(0, n)` for n >= 0. */
  function Take<T>(s: seq<T>, n: nat): (r: seq<T>)
    ensures |r| == Min(n, |s|)
    ensures r == s[..|r|]
  {
    if n <= |s| then s[..n] else s
  }

  /** `s.filter(p)`, built from the left as the callback runs. */
  function Filter<T>(p: T -> bool, s: seq<T>): (r: seq<T>)
    ensures |r| <= |s|
    ensures forall x :: x in r ==> x in s && p(x)
    decreases |s|
  {
    if |s| == 0 then []
    else
      var init := Filter(p, s[..|s| - 1]);
      if p(s[|s| - 1]) then init + [s[|s| - 1]] else init
  }

  /** a can be obtained from b by deleting elements (greedy matching from the right). */
  predicate IsSubsequence<T(==)>(a: seq<T>, b: seq<T>)
    decreases |b|
  {
    if |a| == 0 then true
    else if |b| == 0 then false
    else if a[|a| - 1] == b[|b| - 1] then IsSubsequence(a[..|a| - 1], b[..|b| - 1])
    else IsSubsequence(a, b[..|b| - 1])
  }

  /** No element occurs twice. */
  predicate Distinct<T(==)>(s: seq<T>) {
    forall i, j :: 0 <= i < j < |s| ==> s[i] != s[j]
  }

  /** Two duplicate-free sequences with no element in common concatenate to a duplicate-free one. */
  lemma DistinctAppend<T>(a: seq<T>, b: seq<T>)
    requires Distinct(a) && Distinct(b)
    requires forall x :: x in b ==> x !in a
    ensures Distinct(a + b)
  {
    var s := a + b;
    forall i, j | 0 <= i < j < |s| ensures s[i] != s[j] {
      if i < |a| && j >= |a| {
        assert s[j] == b[j - |a|] && s[j] in b;
      } else if j < |a| {
        assert s[i] == a[i] && s[j] == a[j];
      } else {
        assert s[i] == b[i - |a|] && s[j] == b[j - |a|];
      }
    }
  }

  /**
   * What `filter` keeps: an order-preserving selection of the input that holds
   * every element satisfying p exactly as often as the input does, and nothing else.
   */
  lemma {:induction false} FilterSpec<T>(p: T -> bool, s: seq<T>)
    ensures IsSubsequence(Filter(p, s), s)
    ensures forall x :: multiset(Filter(p, s))[x] == if p(x) then multiset(s)[x] else 0
    decreases |s|
  {
    if |s| > 0 {
      var init := s[..|s| - 1];
      var last := s[|s| - 1];
      FilterSpec(p, init);
      assert s == init + [last];
      if p(last) {
        assert Filter(p, s)[..|Filter(p, s)| - 1] == Filter(p, init);
      } else {
        SubsequenceExtend(Filter(p, init), init, last);
      }
    }
  }

  lemma {:induction false} SubsequenceExtend<T>(a: seq<T>, b: seq<T>, x: T)
    requires IsSubsequence(a, b)
    ensures IsSubsequence(a, b + [x])
    decreases |b|, 1
  {
    if |a| > 0 && a[|a| - 1] != x {
      assert (b + [x])[..|b|] == b;
    } else if |a| > 0 {
      assert (b + [x])[..|b|] == b;
      SubsequenceDropLast(a, b);
    }
  }

  lemma {:induction false} SubsequenceDropLast<T>(a: seq<T>, b: seq<T>)
    requires |a| > 0 && IsSubsequence(a, b)
    ensures IsSubsequence(a[..|a| - 1], b)
    decreases |b|, 0
  {
    var a' := a[..|a| - 1];
    if |a'| > 0 && |b| > 0 {
      var b' := b[..|b| - 1];
      if a[|a| - 1] == b[|b| - 1] {
        SubsequenceExtend(a', b', b[|b| - 1]);
        assert b' + [b[|b| - 1]] == b;
      } else {
        SubsequenceDropLast(a, b');
        SubsequenceExtend(a', b', b[|b| - 1]);
        assert b' + [b[|b| - 1]] == b;
      }
    }
  }

  /** Filtering a concatenation filters each part. */
  lemma {:induction false} FilterAppend<T>(p: T -> bool, a: seq<T>, b: seq<T>)
    ensures Filter(p, a + b) == Filter(p, a) + Filter(p, b)
    decreases |b|
  {
    if |b| > 0 {
      var b' := b[..|b| - 1];
      assert (a + b)[..|a + b| - 1] == a + b';
      FilterAppend(p, a, b');
    } else {
      assert a + b == a;
    }
  }

  /**
   * A passing element s[i] sits in the filtered sequence right after the
   * passing elements before it.
   */
  lemma FilterPosition<T>(p: T -> bool, s: seq<T>, i: nat)
    requires i < |s| && p(s[i])
    ensures |Filter(p, s[..i])| < |Filter(p, s)|
    ensures Filter(p, s)[|Filter(p, s[..i])|] == s[i]
  {
    var pre, x, post := s[..i], s[i], s[i + 1..];
    assert (pre + [x])[..|pre|] == pre;
    var head := Filter(p, pre + [x]);
    assert head == Filter(p, pre) + [x];
    assert s == (pre + [x]) + post;
    FilterAppend(p, pre + [x], post);
    assert Filter(p, s) == head + Filter(p, post);
  }
}
