/**
 * Python's `str.splitlines()`, which `_strip_explanations` uses to cut a
 * generated exam into lines.
 */
module PythonLines {
  import opened Strings

  /** The line boundaries of `str.splitlines` (`\r\n` counts as one). */
  const LineBreaks: set<char> := {
    '\n', '\r', '\U{000B}', '\U{000C}', '\U{001C}', '\U{001D}', '\U{001E}', '\U{0085}', '\U{2028}', '\U{2029}'
  }

  predicate IsLine(x: string)
  {
    forall i :: 0 <= i < |x| ==> x[i] !in LineBreaks
  }

  /** Index of the first line boundary, or `|s|`. */
  function BreakIndex(s: string): (n: nat)
    ensures n <= |s|
    decreases |s|
  {
    if |s| == 0 || s[0] in LineBreaks then 0 else 1 + BreakIndex(s[1..])
  }

  /** `BreakIndex` finds the first boundary: none before it, one at it unless the text ends. */
  lemma {:induction false} BreakIndexSpec(s: string)
    ensures var n := BreakIndex(s);
      (n < |s| ==> s[n] in LineBreaks) && IsLine(s[..n])
    decreases |s|
  {
    if |s| > 0 && s[0] !in LineBreaks {
      BreakIndexSpec(s[1..]);
      var n := BreakIndex(s);
      assert s[..n] == [s[0]] + s[1..][..n - 1];
    }
  }

  /** The first boundary of `s` is at `n` when `s[..n]` holds none. */
  lemma {:induction false} BreakIndexAt(s: string, n: nat)
    requires n <= |s| && IsLine(s[..n])
    requires n < |s| ==> s[n] in LineBreaks
    ensures BreakIndex(s) == n
    decreases n
  {
    if n > 0 {
      assert s[0] == s[..n][0];
      assert s[1..][..n - 1] == s[..n][1..];
      BreakIndexAt(s[1..], n - 1);
    }
  }

  /** `s.splitlines()`: no trailing empty line for a final boundary, and `[]` for `""`. */
  function SplitLines(s: string): (lines: seq<string>)
    ensures |lines| <= |s|
    decreases |s|
  {
    if |s| == 0 then []
    else
      var n := BreakIndex(s);
      if n == |s| then [s]
      else
        var width := if s[n] == '\r' && n + 1 < |s| && s[n + 1] == '\n' then 2 else 1;
        [s[..n]] + SplitLines(s[n + width..])
  }

  /** No line of `s.splitlines()` holds a line boundary. */
  lemma {:induction false} SplitLinesAreLines(s: string)
    ensures forall i :: 0 <= i < |SplitLines(s)| ==> IsLine(SplitLines(s)[i])
    decreases |s|
  {
    if |s| > 0 {
      var n := BreakIndex(s);
      BreakIndexSpec(s);
      if n == |s| {
        assert s[..n] == s;
      } else {
        var width := if s[n] == '\r' && n + 1 < |s| && s[n + 1] == '\n' then 2 else 1;
        SplitLinesAreLines(s[n + width..]);
        var lines := SplitLines(s);
        assert lines == [s[..n]] + SplitLines(s[n + width..]);
        forall i | 0 <= i < |lines| ensures IsLine(lines[i]) {
          if i > 0 { assert lines[i] == SplitLines(s[n + width..])[i - 1]; }
        }
      }
    }
  }

  /** A line holds no `\n`. */
  lemma LineHasNoNewline(x: string)
    requires IsLine(x)
    ensures '\n' !in x
  {
  }

  /** A non-empty text without boundaries is one line. */
  lemma SplitOneLine(s: string)
    requires |s| > 0 && IsLine(s)
    ensures SplitLines(s) == [s]
  {
    assert s[..|s|] == s;
    BreakIndexAt(s, |s|);
  }

  /** Two lines joined by `\n`, the second non-empty and without boundaries. */
  lemma SplitTwoLines(x: string, y: string)
    requires IsLine(x) && IsLine(y) && |y| > 0
    ensures SplitLines(x + "\n" + y) == [x, y]
  {
    var s := x + "\n" + y;
    assert s[..|x|] == x;
    BreakIndexAt(s, |x|);
    assert s[|x| + 1..] == y;
    SplitOneLine(y);
  }
}
