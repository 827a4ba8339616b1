/**
 * Worked consequences of the stripper's patterns and of its one-flag scan,
 * on concrete lines.
 */
module StripperExamples {
  import opened Strings
  import opened PythonLines
  import opened StripperPatterns
  import opened NewlineCollapse
  import opened ExplanationStripper

  lemma BareAnswerMentionsNoLabel()
    ensures !MentionsLabel("答案：A")
  {
    var line := "答案：A";
    forall i | 0 <= i < |InlineLabels| ensures !CaseFoldContains(line, InlineLabels[i]) {
      var t := InlineLabels[i];
      forall k | 0 <= k <= |line| - |t| ensures !CaseFoldOccursAt(line, t, k) {
        if 0 <= k && k + |t| <= |line| {
          if t[0] == '答' {
            assert !CaseFoldMatch(line[k + 2], t[2]);
          } else {
            assert !CaseFoldMatch(line[k], t[0]);
          }
        }
      }
    }
  }

  lemma BareAnswerHasNoLeadingLabel()
    ensures !StartsWithLabel("答案：A")
  {
    var line := "答案：A";
    assert LStrip(line, PyWhitespace) == line;
    forall i | 0 <= i < |StartLabels| ensures !CaseFoldOccursAt(line, StartLabels[i], 0) {
      var t := StartLabels[i];
      if |t| <= |line| {
        if t[0] == '答' {
          assert !CaseFoldMatch(line[2], t[2]);
        } else {
          assert !CaseFoldMatch(line[0], t[0]);
        }
      }
    }
  }

  lemma BareAnswerHasNoShortOrBracketLabel()
    ensures !StartsWithShortLabel("答案：A") && !StartsWithBracketLabel("答案：A")
  {
    var line := "答案：A";
    assert LStrip(line, PyWhitespace) == line;
    assert LStrip(line[1..], PyWhitespace) == line[1..];
    assert !IsPrefix(BracketLabels[1], line) && !IsPrefix(BracketLabels[2], line);
  }

  /** A bare "答案：A" line opens no block. */
  lemma BareAnswerIsNotStart()
    ensures !IsStartLine("答案：A")
  {
    BareAnswerMentionsNoLabel();
    BareAnswerHasNoLeadingLabel();
    BareAnswerHasNoShortOrBracketLabel();
  }

  /** An option line that mentions 解析 opens a block. */
  lemma OptionMentioningExplanationIsStart()
    ensures IsStartLine("A. 见解析")
  {
    assert CaseFoldOccursAt("A. 见解析", InlineLabels[5], 4);
  }

  /** "1.解析" both closes a block, as a numbered item, and opens one, as it mentions 解析. */
  lemma NumberedExplanationLine()
    ensures IsBoundaryLine("1.解析") && IsStartLine("1.解析")
  {
    var line := "1.解析";
    assert LStrip(line, PyWhitespace) == line;
    assert LStrip(line[1..], DecimalDigits) == line[1..];
    assert LStrip(line, DecimalDigits) == line[1..];
    assert LStrip(line[1..], PyWhitespace) == line[1..];
    assert IsNumberedItem(line);
    assert CaseFoldOccursAt(line, InlineLabels[5], 2);
  }

  lemma ExampleLines()
    ensures SplitLines("解析\n1.解析") == ["解析", "1.解析"]
    ensures SplitLines("1.解析") == ["1.解析"]
  {
    assert IsLine("解析") && IsLine("1.解析");
    assert "解析" + "\n" + "1.解析" == "解析\n1.解析";
    SplitTwoLines("解析", "1.解析");
    SplitOneLine("1.解析");
  }

  lemma ExplanationLineIsStart()
    ensures IsStartLine("解析")
  {
    assert CaseFoldOccursAt("解析", InlineLabels[5], 0);
  }

  /** On the first pass the block opened by "解析" is closed, and kept, by "1.解析". */
  lemma FirstPassKeeps()
    ensures KeptLines("解析\n1.解析") == ["1.解析"]
  {
    ExampleLines();
    NumberedExplanationLine();
    ExplanationLineIsStart();
    var lines := ["解析", "1.解析"];
    assert lines[1..] == ["1.解析"];
    assert FilterFrom(lines[1..], true, IsStartLine, IsBoundaryLine) == ["1.解析"] + FilterFrom([], false, IsStartLine, IsBoundaryLine);
  }

  /** On a second pass "1.解析" opens a block and is dropped. */
  lemma SecondPassDrops()
    ensures KeptLines("1.解析") == []
  {
    ExampleLines();
    NumberedExplanationLine();
    var lines := ["1.解析"];
    assert lines[1..] == [];
  }

  /**
   * The stripper is not idempotent: a numbered line that mentions 解析 is
   * kept when it closes a block, and dropped as a start line on a second
   * pass.
   */
  lemma NotIdempotent()
    ensures StripExplanationsSpec("解析\n1.解析") == "1.解析"
    ensures StripExplanationsSpec(StripExplanationsSpec("解析\n1.解析")) == ""
  {
    FirstPassKeeps();
    StripIsJoin("解析\n1.解析");
    var one := ["1.解析"];
    assert DropLeadingEmpty(one) == one;
    assert DropTrailingEmpty(one) == one;
    assert SquashEmpty(one) == one;
    assert QuestionOnlyLines("解析\n1.解析") == one;
    assert Join("\n", one) == "1.解析";
    SecondPassDrops();
    StripIsJoin("1.解析");
  }
}
