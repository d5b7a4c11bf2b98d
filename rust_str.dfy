/**
 * The parts of Rust's `str` API that the GPU-name extraction and the GPU
 * classifier rely on: `find`, `contains`, the first item of `lines` and
 * `trim`. Strings are sequences of Unicode scalar values, so a byte index
 * returned by Rust's `find` is modelled as a character index; the slices the
 * program takes at those indices are the same text either way.
 */
module RustStr {

  datatype Option<T> = None | Some(value: T)

  /** `p` occurs in `s` starting at index `i`. */
  ghost predicate OccursAt(s: string, p: string, i: int)
  {
    0 <= i && i + |p| <= |s| && s[i..i + |p|] == p
  }

  /** `p` occurs in `t` somewhere. */
  ghost predicate IsPartOf(p: string, t: string)
  {
    exists i :: OccursAt(t, p, i)
  }

  /** Every character of `s` is whitespace. */
  ghost predicate AllWhitespace(s: string)
  {
    forall i :: 0 <= i < |s| ==> IsWhitespace(s[i])
  }

  /**
   * `char::is_whitespace`: the characters with the Unicode White_Space
   * property, which is what `str::trim` strips.
   */
  predicate IsWhitespace(c: char)
  {
    ('\t' <= c <= '\r') || c == ' ' || c == '\U{85}' || c == '\U{A0}' || c == '\U{1680}'
    || ('\U{2000}' <= c <= '\U{200A}') || c == '\U{2028}' || c == '\U{2029}'
    || c == '\U{202F}' || c == '\U{205F}' || c == '\U{3000}'
  }

  // ---------------------------------------------------------------------------
  // Searching: str::find and str::contains
  // ---------------------------------------------------------------------------

  /** Compares `p[k..]` with `s` from index `i + k`, one character at a time. */
  function MatchesFrom(s: string, p: string, i: nat, k: nat): (b: bool)
    requires k <= |p|
    ensures b <==> i + |p| <= |s| && s[i + k..i + |p|] == p[k..]
    decreases |p| - k
  {
    if k == |p| then i + |p| <= |s|
    else
      var b := i + k < |s| && s[i + k] == p[k] && MatchesFrom(s, p, i, k + 1);
      assert i + |p| <= |s| ==> s[i + k..i + |p|] == [s[i + k]] + s[i + k + 1..i + |p|];
      assert p[k..] == [p[k]] + p[k + 1..];
      b
  }

  /** The first occurrence of `p` in `s` at or after index `i`. */
  function FindFrom(s: string, p: string, i: nat): (r: Option<nat>)
    ensures r.Some? ==> i <= r.value && OccursAt(s, p, r.value)
    ensures r.Some? ==> forall j :: i <= j < r.value ==> !OccursAt(s, p, j)
    ensures r.None? ==> forall j :: i <= j ==> !OccursAt(s, p, j)
    decreases |s| - i
  {
    if |s| < i + |p| then None
    else if MatchesFrom(s, p, i, 0) then Some(i)
    else FindFrom(s, p, i + 1)
  }

  /**
   * `str::find`: the index of the first occurrence of `p` in `s`, or None
   * when `p` does not occur at all.
   */
  function Find(s: string, p: string): (r: Option<nat>)
    ensures r.Some? ==> OccursAt(s, p, r.value)
    ensures r.Some? ==> forall j :: 0 <= j < r.value ==> !OccursAt(s, p, j)
    ensures r.None? ==> forall j :: !OccursAt(s, p, j)
  {
    FindFrom(s, p, 0)
  }

  /** `str::contains`: `p` occurs somewhere in `s`. */
  function Contains(s: string, p: string): (b: bool)
    ensures b <==> exists j :: OccursAt(s, p, j)
  {
    Find(s, p).Some?
  }

  /** An occurrence with no earlier occurrence is the one `find` reports. */
  lemma FindFirst(s: string, p: string, i: nat)
    requires OccursAt(s, p, i)
    requires forall j :: 0 <= j < i ==> !OccursAt(s, p, j)
    ensures Find(s, p) == Some(i)
  {
  }

  /**
   * For a two-character pattern whose characters differ: when `a` lacks it,
   * its first occurrence in `a + p + t` is the one right after `a`.
   */
  lemma FindAfter(a: string, p: string, t: string)
    requires |p| == 2 && p[0] != p[1] && !Contains(a, p)
    ensures Find(a + p + t, p) == Some(|a|)
  {
    var s := a + p + t;
    assert s[|a|..|a| + 2] == p;
    forall j | 0 <= j < |a|
      ensures !OccursAt(s, p, j)
    {
      if j + 2 <= |a| {
        assert s[j..j + 2] == a[j..j + 2];
        assert !OccursAt(a, p, j);
      } else {
        assert s[j + 1] == p[0];
      }
    }
    FindFirst(s, p, |a|);
  }

  /** A pattern with a character that `s` lacks does not occur in `s`. */
  lemma AbsentChar(s: string, p: string, k: nat)
    requires k < |p| && p[k] !in s
    ensures !Contains(s, p)
  {
  }

  /**
   * No occurrence in `a`, none in `b`, and none can straddle the seam
   * because `p`'s first character is absent from the last `|p| - 1`
   * characters of `a`: then none in `a + b`.
   */
  lemma NotContainsAppend(a: string, b: string, p: string)
    requires |p| > 0
    requires !Contains(a, p) && !Contains(b, p)
    requires forall j :: |a| - |p| < j < |a| && 0 <= j ==> a[j] != p[0]
    ensures !Contains(a + b, p)
  {
    var s := a + b;
    forall j | 0 <= j && j + |p| <= |s|
      ensures !OccursAt(s, p, j)
    {
      if j + |p| <= |a| {
        assert a[j..j + |p|] == s[j..j + |p|];
        assert !OccursAt(a, p, j);
      } else if j >= |a| {
        assert b[j - |a|..j - |a| + |p|] == s[j..j + |p|];
        assert !OccursAt(b, p, j - |a|);
      } else {
        assert s[j..j + |p|][0] == a[j] != p[0];
      }
    }
  }

  /** A pattern absent from `t` is absent from every part of `t`. */
  lemma NotContainsInfix(t: string, u: string, i: nat, p: string)
    requires OccursAt(t, u, i)
    requires !Contains(t, p)
    ensures !Contains(u, p)
  {
    forall j | 0 <= j && j + |p| <= |u|
      ensures !OccursAt(u, p, j)
    {
      assert u == t[i..i + |u|];
      SliceOfSlice(t, i, |u|, j, |p|);
      assert !OccursAt(t, p, i + j);
    }
  }

  /**
   * The text of `s` before the first occurrence of `p`; all of `s` when `p`
   * does not occur. It is a prefix of `s` in which `p` does not occur.
   */
  function Before(s: string, p: string): (r: string)
    requires |p| > 0
    ensures r <= s && !Contains(r, p)
    ensures Contains(s, p) ==> OccursAt(s, p, |r|) && Find(s, p) == Some(|r|)
    ensures !Contains(s, p) ==> r == s
  {
    match Find(s, p)
    case Some(end) => NotContainsBeforeFirst(s, p, end); s[..end]
    case None => s
  }

  /** A slice of a slice is a slice of the whole. */
  lemma SliceOfSlice(t: string, i: nat, n: nat, j: nat, m: nat)
    requires i + n <= |t| && j + m <= n
    ensures t[i..i + n][j..j + m] == t[i + j..i + j + m]
  {
    var x, y := t[i..i + n][j..j + m], t[i + j..i + j + m];
    forall k | 0 <= k < m
      ensures x[k] == y[k]
    {
    }
  }

  /** A part of a part of `t` is a part of `t`. */
  lemma PartOfPart(u: string, v: string, t: string)
    requires IsPartOf(u, v) && IsPartOf(v, t)
    ensures IsPartOf(u, t)
  {
    var i :| OccursAt(v, u, i);
    var j :| OccursAt(t, v, j);
    SliceOfSlice(t, j, |v|, i, |u|);
    assert OccursAt(t, u, j + i);
  }

  /** A string that contains `p` contains every part of `p`. */
  lemma ContainsPart(s: string, p: string, q: string)
    requires Contains(s, p) && IsPartOf(q, p)
    ensures Contains(s, q)
  {
    var j :| OccursAt(s, p, j);
    assert IsPartOf(p, s);
    PartOfPart(q, p, s);
  }

  /** A prefix is a part. */
  lemma PrefixIsPart(u: string, t: string)
    requires u <= t
    ensures IsPartOf(u, t)
  {
    assert OccursAt(t, u, 0);
  }

  /** Before the first occurrence of `p` there is no occurrence of `p`. */
  lemma NotContainsBeforeFirst(s: string, p: string, end: nat)
    requires |p| > 0 && Find(s, p) == Some(end)
    ensures !Contains(s[..end], p)
  {
    var t := s[..end];
    forall j | 0 <= j && j + |p| <= |t|
      ensures !OccursAt(t, p, j)
    {
      assert t[j..j + |p|] == s[j..j + |p|];
      assert j < end && !OccursAt(s, p, j);
    }
  }

  // ---------------------------------------------------------------------------
  // str::trim
  // ---------------------------------------------------------------------------

  /** The length of the run of whitespace at the start of `s`. */
  function LeadingWhitespace(s: string): (k: nat)
    ensures k <= |s|
    ensures forall i :: 0 <= i < k ==> IsWhitespace(s[i])
    ensures k < |s| ==> !IsWhitespace(s[k])
  {
    if |s| > 0 && IsWhitespace(s[0]) then 1 + LeadingWhitespace(s[1..]) else 0
  }

  /** The length of the run of whitespace at the end of `s`. */
  function TrailingWhitespace(s: string): (k: nat)
    ensures k <= |s|
    ensures forall i :: |s| - k <= i < |s| ==> IsWhitespace(s[i])
    ensures k < |s| ==> !IsWhitespace(s[|s| - k - 1])
  {
    if |s| > 0 && IsWhitespace(s[|s| - 1]) then 1 + TrailingWhitespace(s[..|s| - 1]) else 0
  }

  /**
   * `str::trim`: `s` without its leading and trailing whitespace. What is
   * left is a contiguous part of `s` that neither starts nor ends with
   * whitespace, and everything removed around it is whitespace.
   */
  function Trim(s: string): (r: string)
    ensures r == [] || (!IsWhitespace(r[0]) && !IsWhitespace(r[|r| - 1]))
    ensures exists i :: OccursAt(s, r, i) && AllWhitespace(s[..i]) && AllWhitespace(s[i + |r|..])
  {
    var start := s[LeadingWhitespace(s)..];
    var r := start[..|start| - TrailingWhitespace(start)];
    var i := LeadingWhitespace(s);
    assert s[i..i + |r|] == r;
    assert s[i + |r|..] == start[|r|..];
    assert OccursAt(s, r, i) && AllWhitespace(s[..i]) && AllWhitespace(s[i + |r|..]);
    r
  }

  /** What `trim` leaves is a part of its input. */
  lemma TrimIsPart(s: string)
    ensures IsPartOf(Trim(s), s)
  {
    var r := Trim(s);
    var i :| OccursAt(s, r, i) && AllWhitespace(s[..i]) && AllWhitespace(s[i + |r|..]);
  }

  /** The leading run of whitespace is determined by where it ends. */
  lemma LeadingWhitespaceIs(s: string, k: nat)
    requires k <= |s| && AllWhitespace(s[..k])
    requires k < |s| ==> !IsWhitespace(s[k])
    ensures LeadingWhitespace(s) == k
  {
    var n := LeadingWhitespace(s);
    assert forall i :: 0 <= i < k ==> s[..k][i] == s[i];
  }

  /** The trailing run of whitespace is determined by where it starts. */
  lemma TrailingWhitespaceIs(s: string, k: nat)
    requires k <= |s| && AllWhitespace(s[|s| - k..])
    requires k < |s| ==> !IsWhitespace(s[|s| - k - 1])
    ensures TrailingWhitespace(s) == k
  {
    var n := TrailingWhitespace(s);
    assert forall i :: |s| - k <= i < |s| ==> s[|s| - k..][i - (|s| - k)] == s[i];
  }

  /**
   * `trim` removes exactly the whitespace around the text: whatever
   * whitespace surrounds a string that neither starts nor ends with
   * whitespace, trimming gives back that string.
   */
  lemma {:induction false} TrimUnique(a: string, r: string, b: string)
    requires AllWhitespace(a) && AllWhitespace(b)
    requires r == [] || (!IsWhitespace(r[0]) && !IsWhitespace(r[|r| - 1]))
    ensures Trim(a + r + b) == r
  {
    var s := a + r + b;
    if r == [] {
      assert s == a + b;
      LeadingWhitespaceIs(s, |s|);
      assert s[|s|..] == [];
    } else {
      assert s[..|a|] == a;
      LeadingWhitespaceIs(s, |a|);
      var start := s[|a|..];
      assert start == r + b;
      assert start[|start| - |b|..] == b;
      TrailingWhitespaceIs(start, |b|);
      assert start[..|r|] == r;
    }
  }

  /** A run of whitespace stays one when a whitespace character is appended. */
  lemma AppendWhitespace(b: string, c: char)
    requires AllWhitespace(b) && IsWhitespace(c)
    ensures AllWhitespace(b + [c])
  {
    assert forall m :: 0 <= m < |b| ==> (b + [c])[m] == b[m];
  }

  /** A text is its part before `i`, the `n` characters from `i`, and the rest. */
  lemma SplitAt(s: string, i: nat, n: nat, c: char)
    requires i + n <= |s|
    ensures s + [c] == s[..i] + s[i..i + n] + (s[i + n..] + [c])
  {
    assert s == s[..i] + s[i..i + n] + s[i + n..];
  }

  /** Whitespace added at the end of a text is removed by `trim`. */
  lemma TrimIgnoresTrailingWhitespace(s: string, c: char)
    requires IsWhitespace(c)
    ensures Trim(s + [c]) == Trim(s)
  {
    var r := Trim(s);
    var i :| OccursAt(s, r, i) && AllWhitespace(s[..i]) && AllWhitespace(s[i + |r|..]);
    var a, b := s[..i], s[i + |r|..];
    SplitAt(s, i, |r|, c);
    assert s + [c] == a + r + (b + [c]);
    AppendWhitespace(b, c);
    TrimUnique(a, r, b + [c]);
  }

  /** Trimming twice is trimming once. */
  lemma TrimIdempotent(s: string)
    ensures Trim(Trim(s)) == Trim(s)
  {
    var r := Trim(s);
    assert [] + r + [] == r;
    TrimUnique([], r, []);
  }

  // ---------------------------------------------------------------------------
  // The first item of str::lines
  // ---------------------------------------------------------------------------

  /**
   * `s.lines().next()`: None for the empty string; otherwise the text before
   * the first '\n' (all of `s` when there is none), without the one '\r'
   * that may stand right before that '\n'. A '\r' not followed by '\n' is
   * kept.
   */
  function FirstLine(s: string): (r: Option<string>)
    ensures r.None? <==> s == []
    ensures r.Some? ==> r.value <= s && '\n' !in r.value
  {
    if s == [] then None
    else match Find(s, "\n")
      case None =>
        assert forall i :: 0 <= i < |s| ==> s[i] != '\n' by {
          forall i | 0 <= i < |s| ensures s[i] != '\n' {
            assert !OccursAt(s, "\n", i);
            assert s[i..i + 1] == [s[i]];
          }
        }
        Some(s)
      case Some(k) =>
        var line := if k > 0 && s[k - 1] == '\r' then s[..k - 1] else s[..k];
        assert forall i :: 0 <= i < k ==> s[i] != '\n' by {
          forall i | 0 <= i < k ensures s[i] != '\n' {
            assert !OccursAt(s, "\n", i);
            assert s[i..i + 1] == [s[i]];
          }
        }
        Some(line)
  }

  /** Text without '\n' is a single line, the whole text. */
  lemma FirstLineSingle(s: string)
    requires s != [] && '\n' !in s
    ensures FirstLine(s) == Some(s)
  {
    AbsentChar(s, "\n", 0);
  }

  /**
   * The first line ends at the first '\n', losing a '\r' right before it;
   * whatever follows that '\n' is ignored.
   */
  lemma FirstLineOfMany(line: string, rest: string)
    requires '\n' !in line
    ensures FirstLine(line + "\n" + rest)
         == Some(if |line| > 0 && line[|line| - 1] == '\r' then line[..|line| - 1] else line)
  {
    var s := line + "\n" + rest;
    assert s[|line|..|line| + 1] == "\n";
    forall j | 0 <= j < |line|
      ensures !OccursAt(s, "\n", j)
    {
      assert s[j..j + 1] == [line[j]];
    }
    FindFirst(s, "\n", |line|);
    assert s[..|line|] == line;
    if |line| > 0 && line[|line| - 1] == '\r' {
      assert s[|line| - 1] == '\r';
      assert s[..|line| - 1] == line[..|line| - 1];
    }
  }
}
