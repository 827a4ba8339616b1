/**
 * The question agents' `_strip_explanations`: a one-flag, line-by-line state
 * machine that drops answer and explanation blocks from a generated exam,
 * followed by the post-pass of `NewlineCollapse`.
 */
module ExplanationStripper {
  import opened Strings
  import opened PythonLines
  import opened StripperPatterns
  import opened NewlineCollapse
  import opened Subsequences

  /**
   * The lines kept from `lines` when the scan starts with the flag
   * `inBlock`, for the line classifiers `opens` and `closes`: outside a
   * block a line that opens one is dropped and opens it, any other line is
   * kept; inside a block lines are dropped until one that closes it, which
   * is kept and closes the block.
   */
  function FilterFrom(lines: seq<string>, inBlock: bool, opens: string -> bool, closes: string -> bool): seq<string>
    decreases |lines|
  {
    if |lines| == 0 then []
    else if inBlock then
      if closes(lines[0]) then [lines[0]] + FilterFrom(lines[1..], false, opens, closes)
      else FilterFrom(lines[1..], true, opens, closes)
    else
      if opens(lines[0]) then FilterFrom(lines[1..], true, opens, closes)
      else [lines[0]] + FilterFrom(lines[1..], false, opens, closes)
  }

  /** Outside a block, lines that open none pass through unchanged. */
  lemma {:induction false} UnmarkedLinesKept(lines: seq<string>, opens: string -> bool, closes: string -> bool)
    requires forall i :: 0 <= i < |lines| ==> !opens(lines[i])
    ensures FilterFrom(lines, false, opens, closes) == lines
    decreases |lines|
  {
    if |lines| > 0 {
      UnmarkedLinesKept(lines[1..], opens, closes);
      assert lines == [lines[0]] + lines[1..];
    }
  }

  /**
   * Inside a block, everything before the first closing line is dropped;
   * that line is kept and closes the block, whether or not it would also
   * open one.
   */
  lemma {:induction false} BlockEndsAtFirstBoundary(lines: seq<string>, k: nat, opens: string -> bool, closes: string -> bool)
    requires k < |lines| && closes(lines[k])
    requires forall i :: 0 <= i < k ==> !closes(lines[i])
    ensures FilterFrom(lines, true, opens, closes) == [lines[k]] + FilterFrom(lines[k + 1..], false, opens, closes)
    decreases k
  {
    if k > 0 {
      var rest := lines[1..];
      assert !closes(lines[0]);
      forall i | 0 <= i < k - 1 ensures !closes(rest[i]) {
        assert rest[i] == lines[i + 1];
      }
      BlockEndsAtFirstBoundary(rest, k - 1, opens, closes);
      assert rest[k - 1] == lines[k];
      assert rest[k..] == lines[k + 1..];
    }
  }

  /** A block that meets no closing line swallows the rest of the text. */
  lemma {:induction false} BlockRunsToEnd(lines: seq<string>, opens: string -> bool, closes: string -> bool)
    requires forall i :: 0 <= i < |lines| ==> !closes(lines[i])
    ensures FilterFrom(lines, true, opens, closes) == []
    decreases |lines|
  {
    if |lines| > 0 {
      var rest := lines[1..];
      forall i | 0 <= i < |rest| ensures !closes(rest[i]) {
        assert rest[i] == lines[i + 1];
      }
      BlockRunsToEnd(rest, opens, closes);
    }
  }

  /** The scan only drops lines: what it keeps is in order. */
  lemma {:induction false} FilterIsSubsequence(lines: seq<string>, inBlock: bool, opens: string -> bool, closes: string -> bool)
    ensures IsSubsequence(FilterFrom(lines, inBlock, opens, closes), lines)
    decreases |lines|
  {
    if |lines| > 0 {
      var x, rest := lines[0], lines[1..];
      assert lines == [x] + rest;
      var kept := FilterFrom(rest, false, opens, closes);
      var dropped := FilterFrom(rest, true, opens, closes);
      if (inBlock && closes(x)) || (!inBlock && !opens(x)) {
        FilterIsSubsequence(rest, false, opens, closes);
        KeepHead(x, kept, rest);
      } else {
        FilterIsSubsequence(rest, true, opens, closes);
        DropHead(x, dropped, rest);
      }
    }
  }

  lemma SubsequenceKeepsNoNewlines(a: seq<string>, b: seq<string>)
    requires IsSubsequence(a, b) && NoNewlines(b)
    ensures NoNewlines(a)
  {
    forall i | 0 <= i < |a| ensures '\n' !in a[i] {
      SubsequenceElements(a, b, i);
    }
  }

  // ---------------------------------------------------------------------
  // The whole of `_strip_explanations`
  // ---------------------------------------------------------------------

  /** The lines the scan keeps from `text`. */
  function KeptLines(text: string): seq<string>
  {
    FilterFrom(SplitLines(text), false, IsStartLine, IsBoundaryLine)
  }

  /** `_strip_explanations`, as a function of its input. */
  function StripExplanationsSpec(text: string): string
  {
    Normalize(Join("\n", KeptLines(text)))
  }

  /** The lines of the question-only text, in terms of the input's lines. */
  function QuestionOnlyLines(text: string): seq<string>
  {
    NormalizeLines(KeptLines(text))
  }

  lemma SplitLinesHaveNoNewlines(text: string)
    ensures NoNewlines(SplitLines(text))
  {
    var lines := SplitLines(text);
    SplitLinesAreLines(text);
    forall i | 0 <= i < |lines| ensures '\n' !in lines[i] {
      LineHasNoNewline(lines[i]);
    }
  }

  /** The kept lines are in order, and none holds a newline. */
  lemma KeptLinesFacts(text: string)
    ensures IsSubsequence(KeptLines(text), SplitLines(text))
    ensures NoNewlines(KeptLines(text))
  {
    SplitLinesHaveNoNewlines(text);
    FilterIsSubsequence(SplitLines(text), false, IsStartLine, IsBoundaryLine);
    SubsequenceKeepsNoNewlines(KeptLines(text), SplitLines(text));
  }

  /** The question-only lines are in order, and none holds a newline. */
  lemma QuestionOnlyLinesFacts(text: string)
    ensures IsSubsequence(QuestionOnlyLines(text), SplitLines(text))
    ensures NoNewlines(QuestionOnlyLines(text))
  {
    var f := KeptLines(text);
    KeptLinesFacts(text);
    NormalizeLinesIsSubsequence(f);
    SubsequenceTransitive(QuestionOnlyLines(text), f, SplitLines(text));
    SplitLinesHaveNoNewlines(text);
    SubsequenceKeepsNoNewlines(QuestionOnlyLines(text), SplitLines(text));
  }

  /** The result is the question-only lines joined with newlines. */
  lemma StripIsJoin(text: string)
    ensures StripExplanationsSpec(text) == Join("\n", QuestionOnlyLines(text))
  {
    KeptLinesFacts(text);
    NormalizeJoin(KeptLines(text));
  }

  /**
   * `_strip_explanations` only removes lines: its result is the join of a
   * subsequence of `text.splitlines()`, and splitting a non-empty result on
   * newlines gives back exactly that subsequence.
   */
  lemma StripOnlyDropsLines(text: string)
    ensures StripExplanationsSpec(text) == Join("\n", QuestionOnlyLines(text))
    ensures IsSubsequence(QuestionOnlyLines(text), SplitLines(text))
    ensures StripExplanationsSpec(text) != "" ==> SplitOn(StripExplanationsSpec(text), '\n') == QuestionOnlyLines(text)
  {
    StripIsJoin(text);
    QuestionOnlyLinesFacts(text);
    var m := QuestionOnlyLines(text);
    if StripExplanationsSpec(text) != "" {
      assert |m| >= 1;
      SplitJoin(m, '\n');
    }
  }

  /** A text in which no line opens a block loses nothing but blank-line runs and blank ends. */
  lemma NothingToStrip(text: string)
    requires forall i :: 0 <= i < |SplitLines(text)| ==> !IsStartLine(SplitLines(text)[i])
    ensures StripExplanationsSpec(text) == Normalize(Join("\n", SplitLines(text)))
  {
    UnmarkedLinesKept(SplitLines(text), IsStartLine, IsBoundaryLine);
  }

  /** The result keeps no run of three newlines and no newline at either end. */
  lemma StripShape(text: string)
    ensures !Contains(StripExplanationsSpec(text), "\n\n\n")
    ensures var r := StripExplanationsSpec(text); r == [] || (r[0] != '\n' && r[|r| - 1] != '\n')
  {
    NormalizeShape(Join("\n", KeptLines(text)));
  }

  /** One step of the scan, at line `i`. */
  lemma FilterStep(lines: seq<string>, i: nat, inBlock: bool, opens: string -> bool, closes: string -> bool)
    requires i < |lines|
    ensures var x, rest := lines[i], lines[i + 1..];
      FilterFrom(lines[i..], inBlock, opens, closes)
      == if inBlock then
           if closes(x) then [x] + FilterFrom(rest, false, opens, closes) else FilterFrom(rest, true, opens, closes)
         else
           if opens(x) then FilterFrom(rest, true, opens, closes) else [x] + FilterFrom(rest, false, opens, closes)
  {
    assert lines[i..] == [lines[i]] + lines[i + 1..];
  }

  /** `_strip_explanations`. */
  method StripExplanations(text: string) returns (result: string)
    ensures result == StripExplanationsSpec(text)
    ensures result == Join("\n", QuestionOnlyLines(text))
    ensures IsSubsequence(QuestionOnlyLines(text), SplitLines(text))
    ensures !Contains(result, "\n\n\n")
    ensures result == [] || (result[0] != '\n' && result[|result| - 1] != '\n')
  {
    var lines := SplitLines(text);
    var filtered: seq<string> := [];
    var inStripBlock := false;
    for i := 0 to |lines|
      invariant filtered + FilterFrom(lines[i..], inStripBlock, IsStartLine, IsBoundaryLine) == KeptLines(text)
    {
      var line := lines[i];
      FilterStep(lines, i, inStripBlock, IsStartLine, IsBoundaryLine);
      if inStripBlock {
        if IsBoundaryLine(line) {
          inStripBlock := false;
          ConcatAssoc(filtered, [line], FilterFrom(lines[i + 1..], false, IsStartLine, IsBoundaryLine));
          filtered := filtered + [line];
        }
      } else {
        if IsStartLine(line) {
          inStripBlock := true;
        } else {
          ConcatAssoc(filtered, [line], FilterFrom(lines[i + 1..], false, IsStartLine, IsBoundaryLine));
          filtered := filtered + [line];
        }
      }
    }
    assert FilterFrom(lines[|lines|..], inStripBlock, IsStartLine, IsBoundaryLine) == [];
    assert filtered + [] == filtered;
    assert filtered == KeptLines(text);
    result := Normalize(Join("\n", filtered));
    StripOnlyDropsLines(text);
    StripShape(text);
  }
}
