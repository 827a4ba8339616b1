/**
 * `KGAgentWrapper._extract_topic`, the same in both web apps: the words that
 * ask for a knowledge graph are deleted one keyword at a time, the rest is
 * trimmed, and the input itself is the topic when nothing is left.
 */
module TopicExtraction {
  import opened Strings
  import opened Subsequences

  /** The trigger keywords, deleted in this order. */
  const TriggerKeywords: seq<string> := [
    "知识图谱", "思维导图", "mindmap", "图谱", "生成", "制作", "构建", "画", "帮我", "请", "关于", "：", ":"
  ]

  /** The characters `lstrip` removes after the trim. */
  const LeadingPunctuation: set<char> := {'，', ',', '。', ' ', '、'}

  /** The one-character keywords: none survives the deletions. */
  const SingleCharKeywords: set<char> := {'画', '请', '：', ':'}

  /** `s.replace(kw, "")`; an empty `kw` leaves `s` as it is. */
  function Delete(s: string, kw: string): string
  {
    if kw == [] then s else ReplaceAll(s, kw, "")
  }

  /** `s` after `s = s.replace(kw, "")` for each `kw` of `kws` in turn. */
  function RemoveKeywords(s: string, kws: seq<string>): string
    decreases |kws|
  {
    if kws == [] then s else RemoveKeywords(Delete(s, kws[0]), kws[1..])
  }

  /** The keywords deleted, then the text trimmed. */
  function CleanTopic(userInput: string): string
  {
    LStrip(Strip(RemoveKeywords(userInput, TriggerKeywords)), LeadingPunctuation)
  }

  /** The topic `_extract_topic` returns. */
  function TopicOf(userInput: string): string
  {
    OrInput(CleanTopic(userInput), userInput)
  }

  /**
   * What the deletions and trims leave: none of 画, 请, ：, :, no leading
   * punctuation and no trailing white space.
   */
  predicate Tidy(t: string)
  {
    (forall c :: c in SingleCharKeywords ==> c !in t)
    && (t == [] || (t[0] !in LeadingPunctuation && t[|t| - 1] !in PyWhitespace))
  }

  /** The cleaned topic, or the whole input when cleaning left nothing. */
  function OrInput(t: string, userInput: string): string
  {
    if t != "" then t else userInput
  }

  /** Deleting a pattern only drops characters. */
  lemma {:induction false} DeleteIsSubsequence(s: string, pat: string)
    requires pat != []
    ensures IsSubsequence(ReplaceAll(s, pat, ""), s)
    decreases |s|
  {
    if |s| > 0 {
      if IsPrefix(pat, s) {
        DeleteIsSubsequence(s[|pat|..], pat);
        SubsequenceOfSuffix(s, |pat|);
        assert "" + ReplaceAll(s[|pat|..], pat, "") == ReplaceAll(s[|pat|..], pat, "");
        SubsequenceTransitive(ReplaceAll(s[|pat|..], pat, ""), s[|pat|..], s);
      } else {
        DeleteIsSubsequence(s[1..], pat);
        KeepHead(s[0], ReplaceAll(s[1..], pat, ""), s[1..]);
        assert [s[0]] + s[1..] == s;
      }
    }
  }

  /** Deleting a one-character pattern leaves none of that character. */
  lemma {:induction false} DeleteCharRemovesIt(s: string, c: char)
    ensures c !in ReplaceAll(s, [c], "")
    decreases |s|
  {
    if |s| > 0 {
      DeleteCharRemovesIt(s[1..], c);
      if !IsPrefix([c], s) {
        assert s[0] != c;
      }
    }
  }

  /** A character absent from the text stays absent through the deletions. */
  lemma AbsentStaysAbsent(a: string, b: string, c: char)
    requires IsSubsequence(a, b) && c !in b
    ensures c !in a
  {
    if c in a {
      var i :| 0 <= i < |a| && a[i] == c;
      SubsequenceElements(a, b, i);
    }
  }

  /**
   * The sequential deletions only drop characters, and leave no
   * one-character keyword from `kws` behind.
   */
  lemma {:induction false} RemoveKeywordsSpec(s: string, kws: seq<string>)
    ensures IsSubsequence(RemoveKeywords(s, kws), s)
    ensures forall i :: 0 <= i < |kws| && |kws[i]| == 1 ==> kws[i][0] !in RemoveKeywords(s, kws)
    decreases |kws|
  {
    if kws == [] {
      SubsequenceReflexive(s);
    } else {
      var s' := Delete(s, kws[0]);
      var r := RemoveKeywords(s, kws);
      RemoveKeywordsSpec(s', kws[1..]);
      if kws[0] == [] {
        SubsequenceReflexive(s);
      } else {
        DeleteIsSubsequence(s, kws[0]);
      }
      SubsequenceTransitive(r, s', s);
      forall i | 0 <= i < |kws| && |kws[i]| == 1 ensures kws[i][0] !in r {
        if i == 0 {
          assert kws[0] == [kws[0][0]];
          DeleteCharRemovesIt(s, kws[0][0]);
          AbsentStaysAbsent(r, s', kws[0][0]);
        } else {
          assert kws[i] == kws[1..][i - 1];
        }
      }
    }
  }

  /** The single-character keywords are among the trigger keywords. */
  lemma SingleCharKeywordsListed(c: char)
    requires c in SingleCharKeywords
    ensures exists i :: 0 <= i < |TriggerKeywords| && |TriggerKeywords[i]| == 1 && TriggerKeywords[i][0] == c
  {
    if c == '画' { assert TriggerKeywords[7] == "画"; }
    else if c == '请' { assert TriggerKeywords[9] == "请"; }
    else if c == '：' { assert TriggerKeywords[11] == "："; }
    else { assert TriggerKeywords[12] == ":"; }
  }

  /** Trimming keeps a contiguous piece of the text. */
  lemma TrimIsSubsequence(s: string)
    ensures IsSubsequence(LStrip(Strip(s), LeadingPunctuation), s)
  {
    var l := LStrip(s, PyWhitespace);
    var r := RStrip(l, PyWhitespace);
    var t := LStrip(r, LeadingPunctuation);
    LStripSpec(s, PyWhitespace);
    RStripSpec(l, PyWhitespace);
    LStripSpec(r, LeadingPunctuation);
    SubsequenceOfSuffix(s, |s| - |l|);
    SubsequenceOfPrefix(l, |r|);
    SubsequenceOfSuffix(r, |r| - |t|);
    SubsequenceTransitive(r, l, s);
    SubsequenceTransitive(t, r, s);
  }

  /** The trimmed text starts with no leading punctuation and ends with no white space. */
  lemma TrimEnds(s: string)
    ensures var t := LStrip(Strip(s), LeadingPunctuation);
      t == [] || (t[0] !in LeadingPunctuation && t[|t| - 1] !in PyWhitespace)
  {
    var r := Strip(s);
    var t := LStrip(r, LeadingPunctuation);
    StripCharsSpec(s, PyWhitespace);
    LStripSpec(r, LeadingPunctuation);
    if t != [] {
      assert t[|t| - 1] == r[|r| - 1];
    }
  }

  /** The cleaned text, before the fall-back to the input, is a piece of the input free of 画, 请, ：, :. */
  lemma CleanedTopicSpec(userInput: string)
    ensures IsSubsequence(CleanTopic(userInput), userInput) && Tidy(CleanTopic(userInput))
  {
    var removed := RemoveKeywords(userInput, TriggerKeywords);
    var t := LStrip(Strip(removed), LeadingPunctuation);
    RemoveKeywordsSpec(userInput, TriggerKeywords);
    TrimIsSubsequence(removed);
    TrimEnds(removed);
    SubsequenceTransitive(t, removed, userInput);
    forall c | c in SingleCharKeywords ensures c !in t {
      SingleCharKeywordsListed(c);
      AbsentStaysAbsent(t, removed, c);
    }
  }

  /**
   * The topic is the input itself, or a non-empty piece of it with
   * characters dropped: it holds none of 画, 请, ：, :, does not start with
   * leading punctuation and does not end with white space. It is never
   * longer than the input, and empty only for an empty input.
   */
  lemma TopicOfSpec(userInput: string)
    ensures var t := TopicOf(userInput);
      IsSubsequence(t, userInput) && |t| <= |userInput| && (t == [] <==> userInput == [])
    ensures TopicOf(userInput) == userInput || (TopicOf(userInput) != [] && Tidy(TopicOf(userInput)))
  {
    var t := CleanTopic(userInput);
    CleanedTopicSpec(userInput);
    FallBack(userInput, t);
  }

  /** The facts of `TopicOfSpec`, for any cleaned text `t` with the facts of `CleanedTopicSpec` and `TrimEnds`. */
  lemma FallBack(userInput: string, t: string)
    requires IsSubsequence(t, userInput) && Tidy(t)
    ensures var r := OrInput(t, userInput);
      IsSubsequence(r, userInput) && |r| <= |userInput| && (r == [] <==> userInput == [])
    ensures OrInput(t, userInput) == userInput || (OrInput(t, userInput) != [] && Tidy(OrInput(t, userInput)))
  {
    if t != [] {
      SubsequenceLength(t, userInput);
    } else {
      SubsequenceReflexive(userInput);
    }
  }

  /** One deletion, at position `i` of the keyword list. */
  lemma RemoveKeywordsStep(s: string, kws: seq<string>, i: nat)
    requires i < |kws|
    ensures RemoveKeywords(s, kws[i..]) == RemoveKeywords(Delete(s, kws[i]), kws[i + 1..])
  {
    assert kws[i..][1..] == kws[i + 1..];
  }

  /** `_extract_topic`. */
  method ExtractTopic(userInput: string) returns (topic: string)
    ensures topic == TopicOf(userInput)
  {
    var keywords := TriggerKeywords;
    assert keywords[0..] == keywords;
    topic := userInput;
    for i := 0 to |keywords|
      invariant RemoveKeywords(topic, keywords[i..]) == RemoveKeywords(userInput, keywords)
    {
      RemoveKeywordsStep(topic, keywords, i);
      topic := Delete(topic, keywords[i]);
    }
    assert keywords[|keywords|..] == [];
    topic := LStrip(Strip(topic), LeadingPunctuation);
    if topic == "" {
      topic := userInput;
    }
  }
}
