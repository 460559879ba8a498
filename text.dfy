/**
 The few string operations of the host language that the tutorial script relies on:
 substring membership (`t in s`), `str.strip()`, `str.split('\n')` and `str.isdigit()`
 on one character. Whitespace and digits are restricted to ASCII.
 */
module Text {

  /** ASCII part of the host language's notion of whitespace: tab, line feed, vertical
      tab, form feed, carriage return, the four information separators 0x1C-0x1F and space. */
  predicate IsSpace(c: char) {
    ('\t' <= c <= '\r') || ('\U{1C}' <= c <= '\U{1F}') || c == ' '
  }

  /** ASCII part of `str.isdigit()` on a single character. */
  predicate IsDigit(c: char) {
    '0' <= c <= '9'
  }

  predicate AllSpace(s: string) {
    forall i :: 0 <= i < |s| ==> IsSpace(s[i])
  }

  predicate HasDigit(s: string) {
    exists i :: 0 <= i < |s| && IsDigit(s[i])
  }

  /** t occurs in s starting at position i. */
  predicate OccursAt(s: string, t: string, i: int) {
    0 <= i <= |s| - |t| && s[i..i + |t|] == t
  }

  /** `t in s`: t occurs in s as a contiguous substring (the empty string occurs everywhere). */
  predicate Contains(s: string, t: string)
    decreases |s|
  {
    t <= s || (|s| > 0 && Contains(s[1..], t))
  }

  /** Contains agrees with the positional definition of a substring occurrence. */
  lemma {:induction false} ContainsIff(s: string, t: string)
    ensures Contains(s, t) <==> exists i :: OccursAt(s, t, i)
    decreases |s|
  {
    if Contains(s, t) {
      if t <= s {
        assert OccursAt(s, t, 0);
      } else {
        ContainsIff(s[1..], t);
        var i :| OccursAt(s[1..], t, i);
        TailSlice(s, i, |t|);
        assert OccursAt(s, t, i + 1);
      }
    }
    if exists i :: OccursAt(s, t, i) {
      var i :| OccursAt(s, t, i);
      if i == 0 {
        assert t <= s;
      } else {
        TailSlice(s, i - 1, |t|);
        assert OccursAt(s[1..], t, i - 1);
        ContainsIff(s[1..], t);
      }
    }
  }

  /** A slice of the tail is the slice of the whole shifted by one. */
  lemma TailSlice(s: string, i: nat, n: nat)
    requires |s| > 0 && i + n <= |s| - 1
    ensures s[1..][i..i + n] == s[i + 1..i + 1 + n]
  {
  }

  /** An occurrence stays an occurrence when text is appended. */
  lemma ContainsAppend(s: string, t: string, u: string)
    requires Contains(s, t)
    ensures Contains(s + u, t)
  {
    ContainsIff(s, t);
    var i :| OccursAt(s, t, i);
    assert (s + u)[i..i + |t|] == s[i..i + |t|];
    assert OccursAt(s + u, t, i);
    ContainsIff(s + u, t);
  }

  /** Whatever surrounds t, t still occurs in the whole. */
  lemma ContainsInMiddle(a: string, t: string, b: string)
    ensures Contains(a + t + b, t)
  {
    var s := a + t + b;
    assert s[|a|..|a| + |t|] == t;
    assert OccursAt(s, t, |a|);
    ContainsIff(s, t);
  }

  /** A one-character substring test is character membership. */
  lemma ContainsChar(s: string, c: char)
    ensures Contains(s, [c]) <==> c in s
  {
    ContainsIff(s, [c]);
    if c in s {
      var i :| 0 <= i < |s| && s[i] == c;
      assert s[i..i + 1] == [c];
      assert OccursAt(s, [c], i);
    }
    if Contains(s, [c]) {
      var i :| OccursAt(s, [c], i);
      assert s[i] == s[i..i + 1][0];
    }
  }

  // ---------------------------------------------------------------- strip

  /** The forward scan of `strip()`: the first index at or after i whose character is not
      whitespace, or |s|. */
  function SkipSpaceForward(s: string, i: nat): (j: nat)
    requires i <= |s|
    ensures i <= j <= |s|
    ensures forall k :: i <= k < j ==> IsSpace(s[k])
    ensures j == |s| || !IsSpace(s[j])
    decreases |s| - i
  {
    if i < |s| && IsSpace(s[i]) then SkipSpaceForward(s, i + 1) else i
  }

  /** The backward scan of `strip()`, which never goes below lo: the index just past the last
      character before j that is not whitespace, or lo. */
  function SkipSpaceBackward(s: string, lo: nat, j: nat): (i: nat)
    requires lo <= j <= |s|
    ensures lo <= i <= j
    ensures forall k :: i <= k < j ==> IsSpace(s[k])
    ensures i == lo || !IsSpace(s[i - 1])
    decreases j
  {
    if lo < j && IsSpace(s[j - 1]) then SkipSpaceBackward(s, lo, j - 1) else j
  }

  /** `s.strip()`: the part of s between its leading and its trailing whitespace. */
  function Strip(s: string): (r: string)
    ensures |r| <= |s|
    ensures r == [] || (!IsSpace(r[0]) && !IsSpace(r[|r| - 1]))
  {
    var i := SkipSpaceForward(s, 0);
    s[i..SkipSpaceBackward(s, i, |s|)]
  }

  /** The whitespace `strip()` removes in front. */
  function LeadingSpace(s: string): string {
    s[..SkipSpaceForward(s, 0)]
  }

  /** The whitespace `strip()` removes at the back. */
  function TrailingSpace(s: string): string {
    var i := SkipSpaceForward(s, 0);
    s[SkipSpaceBackward(s, i, |s|)..]
  }

  /** Every text is its leading whitespace, its stripped part and its trailing whitespace. */
  lemma StripSplits(s: string)
    ensures AllSpace(LeadingSpace(s)) && AllSpace(TrailingSpace(s))
    ensures s == LeadingSpace(s) + Strip(s) + TrailingSpace(s)
  {
    var i := SkipSpaceForward(s, 0);
    var j := SkipSpaceBackward(s, i, |s|);
    assert s == s[..i] + s[i..j] + s[j..];
  }

  /** Conversely, a text made of whitespace, a part that neither starts nor ends with
      whitespace, and whitespace again strips to that part. */
  lemma StripUnique(a: string, r: string, b: string)
    requires AllSpace(a) && AllSpace(b)
    requires r == [] || (!IsSpace(r[0]) && !IsSpace(r[|r| - 1]))
    ensures Strip(a + r + b) == r
  {
    var s := a + r + b;
    var i := SkipSpaceForward(s, 0);
    var j := SkipSpaceBackward(s, i, |s|);
    if r == [] {
      assert forall k :: 0 <= k < |s| ==> IsSpace(s[k]) by {
        assert s == a + b;
      }
      assert i == |s|;
    } else {
      assert forall k :: 0 <= k < |a| ==> s[k] == a[k];
      assert s[|a|] == r[0];
      assert i == |a|;
      assert forall k :: |a| + |r| <= k < |s| ==> s[k] == b[k - |a| - |r|];
      assert s[|a| + |r| - 1] == r[|r| - 1];
      assert j == |a| + |r|;
      assert s[i..j] == r;
    }
  }

  /** Stripping leaves nothing exactly when the text is all whitespace. */
  lemma StripEmptyIff(s: string)
    ensures Strip(s) == [] <==> AllSpace(s)
  {
    if AllSpace(s) {
      assert s + [] + [] == s;
      StripUnique(s, [], []);
    } else {
      StripSplits(s);
    }
  }

  lemma Regroup(w1: string, l: string, m: string, t: string, w2: string)
    ensures w1 + (l + m + t) + w2 == (w1 + l) + m + (t + w2)
  {
  }

  lemma AllSpaceConcat(x: string, y: string)
    requires AllSpace(x) && AllSpace(y)
    ensures AllSpace(x + y)
  {
  }

  /** Whitespace added at either end of a text does not change what `strip()` returns. */
  lemma StripPadded(w1: string, s: string, w2: string)
    requires AllSpace(w1) && AllSpace(w2)
    ensures Strip(w1 + s + w2) == Strip(s)
  {
    StripSplits(s);
    var l, m, t := LeadingSpace(s), Strip(s), TrailingSpace(s);
    Regroup(w1, l, m, t, w2);
    AllSpaceConcat(w1, l);
    AllSpaceConcat(t, w2);
    StripUnique(w1 + l, m, t + w2);
  }

  /** `strip()` is idempotent. */
  lemma StripIdempotent(s: string)
    ensures Strip(Strip(s)) == Strip(s)
  {
    assert [] + Strip(s) + [] == Strip(s);
    StripUnique([], Strip(s), []);
  }

  // ---------------------------------------------------------------- split

  /** `s.split('\n')`: the pieces between line feeds; never an empty list. */
  function SplitLines(s: string): (lines: seq<string>)
    ensures |lines| >= 1
    ensures forall k :: 0 <= k < |lines| ==> '\n' !in lines[k]
  {
    if s == [] then [""]
    else
      var rest := SplitLines(s[1..]);
      if s[0] == '\n' then [""] + rest
      else [[s[0]] + rest[0]] + rest[1..]
  }

  /** `'\n'.join(lines)`. */
  function JoinLines(lines: seq<string>): string
    requires |lines| >= 1
  {
    if |lines| == 1 then lines[0] else lines[0] + "\n" + JoinLines(lines[1..])
  }

  /** Joining the pieces of a split with line feeds gives back the text. */
  lemma {:induction false} JoinSplit(s: string)
    ensures JoinLines(SplitLines(s)) == s
    decreases |s|
  {
    if s != [] {
      var rest := SplitLines(s[1..]);
      JoinSplit(s[1..]);
      if s[0] == '\n' {
        assert [""] + rest == SplitLines(s);
        assert ([""] + rest)[1..] == rest;
      } else {
        var lines := [[s[0]] + rest[0]] + rest[1..];
        assert lines == SplitLines(s);
        if |rest| > 1 {
          assert lines[1..] == rest[1..];
          assert JoinLines(rest) == rest[0] + "\n" + JoinLines(rest[1..]);
        }
      }
    }
  }

  lemma {:induction false} JoinSnoc(lines: seq<string>)
    requires |lines| >= 2
    ensures JoinLines(lines) == JoinLines(lines[..|lines| - 1]) + "\n" + lines[|lines| - 1]
    decreases |lines|
  {
    if |lines| > 2 {
      JoinSnoc(lines[1..]);
      assert lines[1..][..|lines| - 2] == lines[..|lines| - 1][1..];
    }
  }

  /** L is the last line of s: a suffix of s free of line feeds, reaching back either to the start
      of s or to a line feed. */
  predicate IsLastLine(s: string, line: string) {
    |line| <= |s| && line == s[|s| - |line|..] && '\n' !in line
    && (|line| == |s| || s[|s| - |line| - 1] == '\n')
  }

  /** The last element of the split. */
  function LastLine(s: string): string {
    var lines := SplitLines(s);
    lines[|lines| - 1]
  }

  lemma LastLineIsLastLine(s: string)
    ensures IsLastLine(s, LastLine(s))
  {
    var lines := SplitLines(s);
    var last := lines[|lines| - 1];
    JoinSplit(s);
    if |lines| == 1 {
      assert s == last;
      assert s[|s| - |last|..] == s[0..];
    } else {
      JoinSnoc(lines);
      var before := JoinLines(lines[..|lines| - 1]);
      assert s == before + "\n" + last;
      assert s[|before|] == '\n';
      assert s[|s| - |last|..] == last;
    }
  }

  /** There is only one last line. */
  lemma LastLineUnique(s: string, a: string, b: string)
    requires IsLastLine(s, a) && IsLastLine(s, b)
    ensures a == b
  {
  }
}
