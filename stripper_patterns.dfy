/**
 * The regular expressions `_strip_explanations` classifies lines with,
 * written out as predicates over one line. A line never holds a line break,
 * so a trailing `.*$` always matches and is left out.
 */
module StripperPatterns {
  import opened Strings

  /** Labels that open an explanation when a line starts with them (after whitespace). */
  const StartLabels: seq<string> := [
    "正确答案", "正答案", "参考答案", "标准答案", "答案解析", "解析", "解答", "讲解", "答案是", "答案为", "Answer", "Explanation"
  ]

  /** Labels that open an explanation wherever they occur in a line. */
  const InlineLabels: seq<string> := [
    "正确答案", "正答案", "参考答案", "标准答案", "答案解析", "解析", "解答", "答案是", "答案为", "Answer", "Explanation"
  ]

  const BracketLabels: seq<string> := ["答案", "解析", "参考答案"]

  const NumberedHeadings: seq<string> := ["题目", "选择题", "判断题", "简答题"]

  const SectionHeadings: seq<string> := ["选择题", "判断题", "简答题"]

  /** The decimal digits `\d` is modelled with: ASCII and fullwidth. */
  const DecimalDigits: set<char> := {
    '0', '1', '2', '3', '4', '5', '6', '7', '8', '9',
    '０', '１', '２', '３', '４', '５', '６', '７', '８', '９'
  }

  predicate IsAsciiLetter(c: char)
  {
    'A' <= c <= 'Z' || 'a' <= c <= 'z'
  }

  /**
   * Character `x` of the text matches character `p` of a pattern compiled
   * with `re.IGNORECASE`: ASCII letters match either case, `i` also matches
   * `İ` and `ı`, and `s` also matches `ſ`.
   */
  predicate CaseFoldMatch(x: char, p: char)
  {
    x == p
    || (IsAsciiLetter(p) && LowerChar(x) == LowerChar(p))
    || (LowerChar(p) == 'i' && (x == '\U{0130}' || x == '\U{0131}'))
    || (LowerChar(p) == 's' && x == '\U{017F}')
  }

  predicate CaseFoldOccursAt(s: string, t: string, k: int)
  {
    0 <= k && k + |t| <= |s| && forall j :: 0 <= j < |t| ==> CaseFoldMatch(s[k + j], t[j])
  }

  predicate CaseFoldContains(s: string, t: string)
  {
    exists k | 0 <= k <= |s| - |t| :: CaseFoldOccursAt(s, t, k)
  }

  /** `^\s*(?:正确?答案|…|Answer|Explanation)\s*[:：】\])]?.*$`, case-insensitive. */
  predicate StartsWithLabel(line: string)
  {
    var t := LStrip(line, PyWhitespace);
    exists i | 0 <= i < |StartLabels| :: CaseFoldOccursAt(t, StartLabels[i], 0)
  }

  /** `^\s*[（(【\[]?(?:答|解)\s*[：:]\s*.*$`. */
  predicate StartsWithShortLabel(line: string)
  {
    var t := LStrip(line, PyWhitespace);
    var u := if |t| > 0 && t[0] in {'（', '(', '【', '['} then t[1..] else t;
    |u| > 0 && u[0] in {'答', '解'} &&
    var v := LStrip(u[1..], PyWhitespace);
    |v| > 0 && v[0] in {'：', ':'}
  }

  /** `^\s*[【\[]?(?:答案|解析|参考答案)[】\]]\s*.*$`. */
  predicate StartsWithBracketLabel(line: string)
  {
    var t := LStrip(line, PyWhitespace);
    var u := if |t| > 0 && t[0] in {'【', '['} then t[1..] else t;
    exists i | 0 <= i < |BracketLabels| ::
      IsPrefix(BracketLabels[i], u) && |u| > |BracketLabels[i]| && u[|BracketLabels[i]|] in {'】', ']'}
  }

  /** The inline pattern, searched anywhere in the line, case-insensitive. */
  predicate MentionsLabel(line: string)
  {
    exists i | 0 <= i < |InlineLabels| :: CaseFoldContains(line, InlineLabels[i])
  }

  /** `is_start`: a line that opens an answer or explanation block. */
  predicate IsStartLine(line: string)
  {
    StartsWithLabel(line) || StartsWithShortLabel(line) || StartsWithBracketLabel(line) || MentionsLabel(line)
  }

  /** `^\s*(?:题目|选择题|判断题|简答题)\s*\d+`. */
  predicate IsNumberedHeading(line: string)
  {
    var t := LStrip(line, PyWhitespace);
    exists i | 0 <= i < |NumberedHeadings| ::
      IsPrefix(NumberedHeadings[i], t) &&
      var v := LStrip(t[|NumberedHeadings[i]|..], PyWhitespace);
      |v| > 0 && v[0] in DecimalDigits
  }

  /** `^\s*(?:选择题|判断题|简答题)\s*[：:]\s*$`. */
  predicate IsSectionHeading(line: string)
  {
    var t := LStrip(line, PyWhitespace);
    exists i | 0 <= i < |SectionHeadings| ::
      IsPrefix(SectionHeadings[i], t) &&
      var v := LStrip(t[|SectionHeadings[i]|..], PyWhitespace);
      |v| > 0 && v[0] in {'：', ':'} && LStrip(v[1..], PyWhitespace) == []
  }

  /** `^\s*\d+\s*[、\.\)．]`. */
  predicate IsNumberedItem(line: string)
  {
    var t := LStrip(line, PyWhitespace);
    |t| > 0 && t[0] in DecimalDigits &&
    var v := LStrip(LStrip(t, DecimalDigits), PyWhitespace);
    |v| > 0 && v[0] in {'、', '.', ')', '．'}
  }

  /** `is_boundary`: a line that starts the next question and closes a block. */
  predicate IsBoundaryLine(line: string)
  {
    IsNumberedHeading(line) || IsSectionHeading(line) || IsNumberedItem(line)
  }
}
