/**
 * The few operations on Python `str` values that the schema parser uses:
 * `split`, `endswith`, slicing, `upper` and the substring test `in`.
 */
module PyStr {

  /** `s.split(sep)` for a one-character separator. */
  function Split(s: string, sep: char): (parts: seq<string>)
    ensures |parts| >= 1
    ensures forall i :: 0 <= i < |parts| ==> sep !in parts[i]
    ensures Join(parts, sep) == s
    decreases |s|
  {
    if |s| == 0 then
      [""]
    else
      var tail := Split(s[1..], sep);
      if s[0] == sep then
        assert s == [sep] + s[1..];
        [""] + tail
      else
        var parts := [[s[0]] + tail[0]] + tail[1..];
        assert parts[1..] == tail[1..];
        assert s == [s[0]] + s[1..];
        parts
  }

  /** `sep.join(parts)`. */
  function Join(parts: seq<string>, sep: char): string
    decreases |parts|
  {
    if |parts| == 0 then ""
    else if |parts| == 1 then parts[0]
    else parts[0] + [sep] + Join(parts[1..], sep)
  }

  /** Splitting a separator-free word is the one-element list of that word. */
  lemma {:induction false} SplitWord(w: string, sep: char)
    requires sep !in w
    ensures Split(w, sep) == [w]
    decreases |w|
  {
    if |w| > 0 {
      assert sep !in w[1..] by {
        forall i | 0 <= i < |w[1..]| ensures w[1..][i] != sep {
          assert w[1..][i] == w[i + 1];
        }
      }
      SplitWord(w[1..], sep);
      assert [w[0]] + w[1..] == w;
    }
  }

  /** A separator-free word followed by the separator splits off as the first part. */
  lemma {:induction false} SplitAfterWord(w: string, sep: char, rest: string)
    requires sep !in w
    ensures Split(w + [sep] + rest, sep) == [w] + Split(rest, sep)
    decreases |w|
  {
    var s := w + [sep] + rest;
    if |w| == 0 {
      assert s[1..] == rest;
    } else {
      assert s[1..] == w[1..] + [sep] + rest;
      assert sep !in w[1..] by {
        forall i | 0 <= i < |w[1..]| ensures w[1..][i] != sep {
          assert w[1..][i] == w[i + 1];
        }
      }
      SplitAfterWord(w[1..], sep, rest);
      assert [w[0]] + w[1..] == w;
    }
  }

  /** The other round trip: splitting a join of separator-free parts gives the parts back. */
  lemma {:induction false} SplitJoin(parts: seq<string>, sep: char)
    requires |parts| >= 1
    requires forall i :: 0 <= i < |parts| ==> sep !in parts[i]
    ensures Split(Join(parts, sep), sep) == parts
    decreases |parts|
  {
    if |parts| == 1 {
      SplitWord(parts[0], sep);
    } else {
      SplitJoin(parts[1..], sep);
      SplitAfterWord(parts[0], sep, Join(parts[1..], sep));
      assert [parts[0]] + parts[1..] == parts;
    }
  }

  /** The last element of a non-empty list, Python's `xs[-1]`. */
  function Last(xs: seq<string>): string
    requires |xs| >= 1
  {
    xs[|xs| - 1]
  }

  /** `s.endswith(suffix)`. */
  predicate EndsWith(s: string, suffix: string) {
    |suffix| <= |s| && s[|s| - |suffix|..] == suffix
  }

  /** `s[0:n]`: at most the first `n` characters. */
  function Take(s: string, n: nat): (r: string)
    ensures |r| == if n <= |s| then n else |s|
    ensures r <= s
  {
    if n <= |s| then s[..n] else s
  }

  /** `s[n:]`: everything after the first `n` characters. */
  function Drop(s: string, n: nat): (r: string)
    ensures Take(s, n) + r == s
  {
    if n <= |s| then s[n..] else ""
  }

  /** `s[:-n]` for n > 0: all but the last `n` characters (empty when `s` is shorter). */
  function DropLast(s: string, n: nat): (r: string)
    ensures |s| >= n ==> |r| == |s| - n && r + s[|s| - n..] == s
    ensures |s| < n ==> r == ""
  {
    if n <= |s| then s[..|s| - n] else ""
  }

  /** ASCII upper-casing of one character. */
  function UpperChar(c: char): char {
    if 'a' <= c <= 'z' then (c as int - 'a' as int + 'A' as int) as char else c
  }

  predicate IsLower(c: char) {
    'a' <= c <= 'z'
  }

  /** `s.upper()`, on ASCII letters. */
  function Upper(s: string): (r: string)
    ensures |r| == |s|
    ensures forall i :: 0 <= i < |s| ==> r[i] == UpperChar(s[i])
  {
    seq(|s|, i requires 0 <= i < |s| => UpperChar(s[i]))
  }

  lemma UpperCharProperties(c: char)
    ensures !IsLower(UpperChar(c))
    ensures UpperChar(UpperChar(c)) == UpperChar(c)
    ensures IsLower(c) <==> UpperChar(c) != c
  {
  }

  /** `a in s` for two strings: `a` occurs somewhere in `s` as a contiguous piece. */
  predicate IsSubstring(a: string, s: string)
    decreases |s|
  {
    a <= s || (|s| > 0 && IsSubstring(a, s[1..]))
  }

  /** `a` occurs in `s` starting at position `i`. */
  predicate OccursAt(a: string, s: string, i: int) {
    0 <= i && i + |a| <= |s| && s[i..i + |a|] == a
  }

  /** The recursive substring test agrees with the positional definition. */
  lemma {:induction false} IsSubstringAt(a: string, s: string)
    ensures IsSubstring(a, s) <==> exists i :: OccursAt(a, s, i)
    decreases |s|
  {
    if a <= s {
      assert s[0..|a|] == a;
      assert OccursAt(a, s, 0);
    } else if |s| > 0 {
      IsSubstringAt(a, s[1..]);
      if IsSubstring(a, s[1..]) {
        var i :| OccursAt(a, s[1..], i);
        assert s[i + 1..i + 1 + |a|] == s[1..][i..i + |a|];
        assert OccursAt(a, s, i + 1);
      }
      if exists i :: OccursAt(a, s, i) {
        var i :| OccursAt(a, s, i);
        if i != 0 {
          assert s[1..][i - 1..i - 1 + |a|] == s[i..i + |a|];
          assert OccursAt(a, s[1..], i - 1);
        }
      }
    }
  }
}
