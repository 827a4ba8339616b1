/**
 * The chat page's `tryParseQuiz` (JavaScript): it recognises a generated
 * exam in a reply, cuts it into one chunk per question title and reads
 * each chunk's stem, options, answer and explanation line by line.
 *
 * JavaScript's `\s` is `JsWhitespace`, its `\d` the ASCII digits, and `.`
 * matches anything but a line terminator.
 */
module QuizParser {
  import opened Wrappers
  import opened Strings

  datatype Question = Question(title: string, stem: string, options: seq<string>, answer: string, explanation: string)

  // ---------------------------------------------------------------------
  // Line patterns
  // ---------------------------------------------------------------------

  const AsciiDigits: set<char> := {'0', '1', '2', '3', '4', '5', '6', '7', '8', '9'}
  const Colons: set<char> := {':', '：'}
  /** `[A-DＡ-Ｄ]`. */
  predicate IsOptionLetter(c: char)
  {
    'A' <= c <= 'D' || 'Ａ' <= c <= 'Ｄ'
  }
  const OptionMarks: set<char> := {'.', '．', '、'}
  /** What `.` does not match. */
  const LineTerminators: set<char> := {'\n', '\r', '\U{2028}', '\U{2029}'}

  const TitleLabels: seq<string> := ["题目", "选择题", "判断题", "简答题"]
  const StemLabels: seq<string> := ["题干"]
  const AnswerLabels: seq<string> := ["正确答案", "正答案", "参考答案"]
  const ExplainLabels: seq<string> := ["解析", "答案解析", "解答", "讲解"]
  /** The labels the indicator accepts before a colon. */
  const IndicatorColonLabels: seq<string> := ["题干", "正确答案", "参考答案", "解析"]

  predicate NoTerminator(s: string)
  {
    forall i :: 0 <= i < |s| ==> s[i] !in LineTerminators
  }

  /**
   * The first of `tags` that starts `s`. No label of an alternation below
   * is a prefix of another (`LabelsArePrefixFree`), so at most one of them
   * starts a line and the regular expression's backtracking over the other
   * alternatives never finds another match.
   */
  function LeadingTag(s: string, tags: seq<string>): (r: Option<string>)
    ensures r.Some? ==> r.value in tags && IsPrefix(r.value, s)
    decreases |tags|
  {
    if |tags| == 0 then None
    else if IsPrefix(tags[0], s) then Some(tags[0])
    else LeadingTag(s, tags[1..])
  }

  /** `\s*(.*)$`: the rest of the line after white space, if it holds no line terminator. */
  function RestOfLine(s: string): Option<string>
  {
    var rest := LStrip(s, JsWhitespace);
    if NoTerminator(rest) then Some(rest) else None
  }

  /** `^(?:label|…)\s*[:：]\s*(.*)$`: the captured rest of the line. */
  function CaptureAny(line: string, labels: seq<string>): Option<string>
  {
    match LeadingTag(line, labels)
    case None => None
    case Some(t) =>
      var v := LStrip(line[|t|..], JsWhitespace);
      if |v| == 0 || v[0] !in Colons then None else RestOfLine(v[1..])
  }

  function StemCapture(line: string): Option<string> { CaptureAny(line, StemLabels) }
  function AnswerCapture(line: string): Option<string> { CaptureAny(line, AnswerLabels) }
  function ExplainCapture(line: string): Option<string> { CaptureAny(line, ExplainLabels) }

  /** `^[A-DＡ-Ｄ]\s*[\.．、]\s*(.*)$`: the option text. */
  function OptionCapture(line: string): Option<string>
  {
    if |line| == 0 || !IsOptionLetter(line[0]) then None
    else
      var v := LStrip(line[1..], JsWhitespace);
      if |v| == 0 || v[0] !in OptionMarks then None else RestOfLine(v[1..])
  }

  /** `(?:tag|…)\s*` then a character of `next`, at the start of `s`. */
  predicate TagThen(s: string, tags: seq<string>, next: set<char>)
  {
    match LeadingTag(s, tags)
    case None => false
    case Some(t) => var v := LStrip(s[|t|..], JsWhitespace); |v| > 0 && v[0] in next
  }

  /** `^(?:题目|选择题|判断题|简答题)\s*\d+`. */
  predicate IsTitleLine(line: string)
  {
    TagThen(line, TitleLabels, AsciiDigits)
  }

  predicate PrefixFree(tags: seq<string>)
  {
    forall i, j :: 0 <= i < |tags| && 0 <= j < |tags| && i != j ==> !IsPrefix(tags[i], tags[j])
  }

  /** A line that ends an explanation's continuation lines. */
  predicate IsBreakLine(line: string)
  {
    StemCapture(line).Some? || OptionCapture(line).Some? || AnswerCapture(line).Some? || IsTitleLine(line)
  }

  /** The indicator pattern matches at `k`: a title label and a number, or a label and a colon. */
  predicate IndicatorAt(text: string, k: nat)
  {
    k <= |text| && (TagThen(text[k..], TitleLabels, AsciiDigits) || TagThen(text[k..], IndicatorColonLabels, Colons))
  }

  /** The indicator pattern matches at `k` or later. */
  predicate IndicatorFrom(text: string, k: nat)
    decreases |text| - k
  {
    k <= |text| && (IndicatorAt(text, k) || IndicatorFrom(text, k + 1))
  }

  /** `indicatorRegex.test(text)`. */
  predicate HasIndicator(text: string)
  {
    IndicatorFrom(text, 0)
  }

  /** A successful search has a position where the pattern matches. */
  lemma {:induction false} IndicatorFromWitness(text: string, k: nat)
    requires IndicatorFrom(text, k)
    ensures exists j :: k <= j <= |text| && IndicatorAt(text, j)
    decreases |text| - k
  {
    if !IndicatorAt(text, k) {
      IndicatorFromWitness(text, k + 1);
    }
  }

  /** A search from `k` reaches any match at `j` or later. */
  lemma {:induction false} IndicatorFromReaches(text: string, k: nat, j: nat)
    requires k <= j <= |text| && IndicatorAt(text, j)
    ensures IndicatorFrom(text, k)
    decreases j - k
  {
    if k < j {
      IndicatorFromReaches(text, k + 1, j);
    }
  }

  /** The search finds a match exactly when there is one. */
  lemma IndicatorFromSpec(text: string, k: nat)
    ensures IndicatorFrom(text, k) <==> exists j :: k <= j <= |text| && IndicatorAt(text, j)
  {
    if IndicatorFrom(text, k) {
      IndicatorFromWitness(text, k);
    }
    if exists j :: k <= j <= |text| && IndicatorAt(text, j) {
      var j :| k <= j <= |text| && IndicatorAt(text, j);
      IndicatorFromReaches(text, k, j);
    }
  }

  lemma HasIndicatorSpec(text: string)
    ensures HasIndicator(text) <==> exists j :: 0 <= j <= |text| && IndicatorAt(text, j)
  {
    IndicatorFromSpec(text, 0);
  }

  /** Fullwidth Ａ–Ｄ as ASCII A–D (code point minus 65248); other characters unchanged. */
  function AsciiLetter(c: char): (a: char)
    ensures IsOptionLetter(c) ==> 'A' <= a <= 'D'
  {
    if 'Ａ' <= c <= 'Ｄ' then (c as int - 65248) as char else c
  }

  /** An option line as shown: the ASCII letter, `. `, and the option text. */
  function FormatOption(line: string): (r: string)
    requires OptionCapture(line).Some?
    ensures |r| >= 3 && 'A' <= r[0] <= 'D' && r[1..3] == ". " && r[3..] == OptionCapture(line).value
  {
    [AsciiLetter(line[0])] + ". " + OptionCapture(line).value
  }

  // ---------------------------------------------------------------------
  // Lines
  // ---------------------------------------------------------------------

  /** `text.split(/\r?\n/)`: split at `\n`, dropping one `\r` before each. */
  function SplitCrLf(text: string): (pieces: seq<string>)
    ensures |pieces| >= 1
  {
    var ps := SplitOn(text, '\n');
    seq(|ps|, i requires 0 <= i < |ps| =>
      if i < |ps| - 1 && |ps[i]| > 0 && ps[i][|ps[i]| - 1] == '\r' then ps[i][..|ps[i]| - 1] else ps[i])
  }

  /** `.map(l => l.trim()).filter(l => l.length > 0)`. */
  function TrimNonBlank(pieces: seq<string>): (lines: seq<string>)
    ensures forall i :: 0 <= i < |lines| ==> lines[i] != ""
    ensures |lines| <= |pieces|
  {
    if |pieces| == 0 then []
    else
      var t := Trim(pieces[0]);
      (if t == "" then [] else [t]) + TrimNonBlank(pieces[1..])
  }

  function QuizLines(text: string): seq<string>
  {
    TrimNonBlank(SplitCrLf(text))
  }

  // ---------------------------------------------------------------------
  // Chunks
  // ---------------------------------------------------------------------

  /** The indices of the title lines at or after `i`, in order. */
  function TitleIndicesFrom(lines: seq<string>, i: nat): (ix: seq<nat>)
    ensures forall k :: 0 <= k < |ix| ==> i <= ix[k] < |lines|
    ensures forall k, l :: 0 <= k < l < |ix| ==> ix[k] < ix[l]
    decreases |lines| - i
  {
    if i >= |lines| then []
    else (if IsTitleLine(lines[i]) then [i] else []) + TitleIndicesFrom(lines, i + 1)
  }

  /** The chunk boundaries: the title indices (or just 0) and the number of lines. */
  function Bounds(lines: seq<string>): (b: seq<nat>)
  {
    var ix := TitleIndicesFrom(lines, 0);
    (if ix == [] then [0] else ix) + [|lines|]
  }

  predicate ValidBounds(lines: seq<string>, b: seq<nat>)
  {
    |b| >= 1 && (forall k :: 0 <= k < |b| ==> b[k] <= |lines|) && (forall k, l :: 0 <= k < l < |b| ==> b[k] < b[l])
  }

  lemma BoundsValid(lines: seq<string>)
    requires |lines| > 0
    ensures ValidBounds(lines, Bounds(lines)) && |Bounds(lines)| >= 2
    ensures |Bounds(lines)| - 1 == if TitleIndicesFrom(lines, 0) == [] then 1 else |TitleIndicesFrom(lines, 0)|
  {
    var ix := TitleIndicesFrom(lines, 0);
    var head: seq<nat> := if ix == [] then [0] else ix;
    assert Bounds(lines) == head + [|lines|];
    ConcatIncreasing(lines, head);
  }

  lemma ConcatIncreasing(lines: seq<string>, head: seq<nat>)
    requires forall k :: 0 <= k < |head| ==> head[k] < |lines|
    requires forall k, l :: 0 <= k < l < |head| ==> head[k] < head[l]
    ensures ValidBounds(lines, head + [|lines|])
  {
    var b := head + [|lines|];
    forall k, l | 0 <= k < l < |b|
      ensures b[k] < b[l]
    {
      if l < |head| { assert b[k] == head[k] && b[l] == head[l]; }
      else { assert b[k] == head[k]; }
    }
  }

  // ---------------------------------------------------------------------
  // Line kinds
  // ---------------------------------------------------------------------

  /** What a line of a chunk is, with the text its pattern captures. */
  datatype LineKind =
    | TitleLine
    | StemLine(stem: string)
    | OptionLine(option: string)
    | AnswerLine(answer: string)
    | ExplainLine(explanation: string)
    | OtherLine

  /** A line's kind: the first of the title, stem, option, answer and explanation patterns that matches it. */
  function KindOf(line: string): LineKind
  {
    if IsTitleLine(line) then TitleLine
    else if StemCapture(line).Some? then StemLine(StemCapture(line).value)
    else if OptionCapture(line).Some? then OptionLine(FormatOption(line))
    else if AnswerCapture(line).Some? then AnswerLine(AnswerCapture(line).value)
    else if ExplainCapture(line).Some? then ExplainLine(ExplainCapture(line).value)
    else OtherLine
  }

  function Kinds(chunk: seq<string>): (ks: seq<LineKind>)
    ensures |ks| == |chunk|
    ensures forall i {:trigger ks[i]} :: 0 <= i < |chunk| ==> ks[i] == KindOf(chunk[i])
  {
    if |chunk| == 0 then [] else [KindOf(chunk[0])] + Kinds(chunk[1..])
  }

  /** The kinds that end an explanation's continuation lines. */
  predicate IsBreak(k: LineKind)
  {
    k.TitleLine? || k.StemLine? || k.OptionLine? || k.AnswerLine?
  }

  lemma BreakKind(line: string)
    ensures IsBreak(KindOf(line)) <==> IsBreakLine(line)
  {
  }

  lemma PrefixStart(t: string, line: string)
    requires IsPrefix(t, line) && |t| >= 2
    ensures |line| >= 2 && line[0] == t[0] && line[1] == t[1]
  {
    assert line[..|t|] == t;
    assert line[..|t|][0] == line[0] && line[..|t|][1] == line[1];
  }

  /** The first characters of a title line. */
  lemma TitleLineStart(line: string)
    requires IsTitleLine(line)
    ensures |line| >= 2 && (line[0] == '题' || line[0] == '选' || line[0] == '判' || line[0] == '简')
    ensures line[0] == '题' ==> line[1] == '目'
  {
    PrefixStart(LeadingTag(line, TitleLabels).value, line);
  }

  /** The first characters of a stem line. */
  lemma StemLineStart(line: string)
    requires StemCapture(line).Some?
    ensures |line| >= 2 && line[0] == '题' && line[1] == '干'
  {
    PrefixStart(LeadingTag(line, StemLabels).value, line);
  }

  /** The first character of an answer line. */
  lemma AnswerLineStart(line: string)
    requires AnswerCapture(line).Some?
    ensures |line| >= 2 && (line[0] == '正' || line[0] == '参')
  {
    PrefixStart(LeadingTag(line, AnswerLabels).value, line);
  }

  /** The first character of an explanation line. */
  lemma ExplainLineStart(line: string)
    requires ExplainCapture(line).Some?
    ensures |line| >= 2 && (line[0] == '解' || line[0] == '答' || line[0] == '讲')
  {
    PrefixStart(LeadingTag(line, ExplainLabels).value, line);
  }

  /** A title line matches none of the other patterns. */
  lemma TitleMatchesNothingElse(line: string)
    requires IsTitleLine(line)
    ensures StemCapture(line).None? && OptionCapture(line).None?
    ensures AnswerCapture(line).None? && ExplainCapture(line).None?
  {
    TitleLineStart(line);
    if StemCapture(line).Some? { StemLineStart(line); }
    if AnswerCapture(line).Some? { AnswerLineStart(line); }
    if ExplainCapture(line).Some? { ExplainLineStart(line); }
  }

  /** A line is an option line exactly when the option pattern matches it. */
  lemma KindOfOption(line: string)
    ensures KindOf(line).OptionLine? <==> OptionCapture(line).Some?
    ensures OptionCapture(line).Some? ==> KindOf(line).option == FormatOption(line)
  {
    if IsTitleLine(line) {
      TitleMatchesNothingElse(line);
    } else if StemCapture(line).Some? {
      StemLineStart(line);
    }
  }

  /** A line is an answer line exactly when the answer pattern matches it. */
  lemma KindOfAnswer(line: string)
    ensures KindOf(line).AnswerLine? <==> AnswerCapture(line).Some?
    ensures AnswerCapture(line).Some? ==> KindOf(line).answer == AnswerCapture(line).value
  {
    if IsTitleLine(line) {
      TitleMatchesNothingElse(line);
    } else if AnswerCapture(line).Some? {
      AnswerLineStart(line);
      if StemCapture(line).Some? { StemLineStart(line); }
    }
  }

  /** A line is a stem line exactly when the stem pattern matches it. */
  lemma KindOfStem(line: string)
    ensures KindOf(line).StemLine? <==> StemCapture(line).Some?
    ensures StemCapture(line).Some? ==> KindOf(line).stem == StemCapture(line).value
  {
    if IsTitleLine(line) {
      TitleMatchesNothingElse(line);
    }
  }

  // ---------------------------------------------------------------------
  // One question
  // ---------------------------------------------------------------------

  datatype Fields = Fields(stem: string, options: seq<string>, answer: string, explanation: string)

  const NoFields := Fields("", [], "", "")

  /** The first index at or after `from` whose line ends an explanation, or the chunk's length. */
  function ContinuationEnd(kinds: seq<LineKind>, from: nat): (e: nat)
    requires from <= |kinds|
    ensures from <= e <= |kinds|
    decreases |kinds| - from
  {
    if from == |kinds| || IsBreak(kinds[from]) then from else ContinuationEnd(kinds, from + 1)
  }

  /** The lines from `from` up to `e` continue an explanation, and line `e`, if any, ends it. */
  predicate IsContinuation(kinds: seq<LineKind>, from: nat, e: nat)
    requires from <= e <= |kinds|
  {
    (forall t :: from <= t < e ==> !IsBreak(kinds[t])) && (e == |kinds| || IsBreak(kinds[e]))
  }

  lemma {:induction false} ContinuationEndSpec(kinds: seq<LineKind>, from: nat)
    requires from <= |kinds|
    ensures IsContinuation(kinds, from, ContinuationEnd(kinds, from))
    decreases |kinds| - from
  {
    if from < |kinds| && !IsBreak(kinds[from]) {
      ContinuationEndSpec(kinds, from + 1);
    }
  }

  /** Where the per-line loop goes next, and the fields read so far. */
  datatype Step = Step(next: nat, fields: Fields)

  /**
   * One turn of the per-line loop at line `i`. A title line is skipped:
   * the source tests only the first line for a title, but a later title
   * line matches no other pattern (`TitleMatchesNothingElse`) and is
   * skipped as well. A stem, option or answer line sets its field; an
   * explanation line takes the lines after it up to the next break line;
   * any other line is ignored.
   */
  function ParseStep(kinds: seq<LineKind>, chunk: seq<string>, i: nat, f: Fields): (st: Step)
    requires |kinds| == |chunk| && i < |chunk|
    ensures i < st.next <= |chunk|
  {
    match kinds[i]
    case TitleLine => Step(i + 1, f)
    case StemLine(t) => Step(i + 1, f.(stem := t))
    case OptionLine(t) => Step(i + 1, f.(options := f.options + [t]))
    case AnswerLine(t) => Step(i + 1, f.(answer := t))
    case ExplainLine(t) =>
      var e := ContinuationEnd(kinds, i + 1);
      Step(e, f.(explanation := Join("\n", [t] + chunk[i + 1..e])))
    case OtherLine => Step(i + 1, f)
  }

  /** The per-line loop from line `i` on, starting from the fields `f`. */
  function ParseFrom(kinds: seq<LineKind>, chunk: seq<string>, i: nat, f: Fields): Fields
    requires |kinds| == |chunk| && i <= |chunk|
    decreases |chunk| - i
  {
    if i == |chunk| then f
    else
      var st := ParseStep(kinds, chunk, i, f);
      ParseFrom(kinds, chunk, st.next, st.fields)
  }

  /** `chunk.slice(1).find(…)`: the first line that is no option, answer or explanation line. */
  function FirstPlain(lines: seq<string>): (r: Option<string>)
    ensures r.Some? ==> r.value in lines && OptionCapture(r.value).None? && AnswerCapture(r.value).None? && ExplainCapture(r.value).None?
  {
    if |lines| == 0 then None
    else if OptionCapture(lines[0]).None? && AnswerCapture(lines[0]).None? && ExplainCapture(lines[0]).None? then Some(lines[0])
    else FirstPlain(lines[1..])
  }

  /** The question a non-empty chunk becomes. */
  function ChunkQuestion(chunk: seq<string>): Question
    requires |chunk| > 0
  {
    var f := ParseFrom(Kinds(chunk), chunk, 0, NoFields);
    var stem := if f.stem == "" then FirstPlain(chunk[1..]).GetOr("") else f.stem;
    Question(RemoveChars(chunk[0], JsWhitespace), stem, f.options, f.answer, f.explanation)
  }

  /** The chunks from boundary `k` on: the lines between consecutive bounds; an empty one is skipped. */
  function ChunksFrom(lines: seq<string>, b: seq<nat>, k: nat): (cs: seq<seq<string>>)
    requires ValidBounds(lines, b)
    ensures forall c :: 0 <= c < |cs| ==> |cs[c]| > 0
    decreases |b| - k
  {
    if k + 1 >= |b| then []
    else
      var chunk := lines[b[k]..b[k + 1]];
      (if |chunk| > 0 then [chunk] else []) + ChunksFrom(lines, b, k + 1)
  }

  /** One question per chunk. */
  function QuestionsOf(chunks: seq<seq<string>>): (qs: seq<Question>)
    requires forall c :: 0 <= c < |chunks| ==> |chunks[c]| > 0
    ensures |qs| == |chunks|
  {
    if |chunks| == 0 then [] else [ChunkQuestion(chunks[0])] + QuestionsOf(chunks[1..])
  }

  /** `tryParseQuiz`: `None` is `null`. */
  function Quiz(text: string): Option<seq<Question>>
  {
    var lines := QuizLines(text);
    if !HasIndicator(text) || |lines| == 0 then None
    else
      BoundsValid(lines);
      Some(QuestionsOf(ChunksFrom(lines, Bounds(lines), 0)))
  }

  // ---------------------------------------------------------------------
  // Properties
  // ---------------------------------------------------------------------

  /** Every chunk between strictly increasing bounds is non-empty, so none is skipped. */
  lemma {:induction false} ChunksCount(lines: seq<string>, b: seq<nat>, k: nat)
    requires ValidBounds(lines, b) && k < |b|
    ensures |ChunksFrom(lines, b, k)| == |b| - 1 - k
    decreases |b| - k
  {
    if k + 1 < |b| {
      ChunksCount(lines, b, k + 1);
      assert b[k] < b[k + 1];
    }
  }

  /** The `q`-th chunk from boundary `k` holds the lines between bounds `k + q` and `k + q + 1`. */
  lemma {:induction false} ChunkAt(lines: seq<string>, b: seq<nat>, k: nat, q: nat)
    requires ValidBounds(lines, b) && k + q + 1 < |b|
    ensures |ChunksFrom(lines, b, k)| == |b| - 1 - k
    ensures b[k + q] < b[k + q + 1]
    ensures ChunksFrom(lines, b, k)[q] == lines[b[k + q]..b[k + q + 1]]
    decreases q
  {
    ChunksCount(lines, b, k);
    assert b[k] < b[k + 1];
    assert b[k + q] < b[k + q + 1];
    if q > 0 {
      ChunkAt(lines, b, k + 1, q - 1);
    }
  }

  /** The questions, one per chunk, each titled by its chunk's first line. */
  predicate TitledByChunks(lines: seq<string>, b: seq<nat>, qs: seq<Question>)
  {
    |b| == |qs| + 1 &&
    forall q {:trigger qs[q]} :: 0 <= q < |qs| ==> b[q] < b[q + 1] <= |lines| && qs[q].title == RemoveChars(lines[b[q]], JsWhitespace)
  }

  /**
   * `tryParseQuiz` gives `null` exactly when no indicator occurs or no
   * non-blank line remains; otherwise one question per title line (one
   * when there is none), the `q`-th made of the lines from its boundary to
   * the next, with the first line, white space removed, as its title.
   */
  lemma QuizSpec(text: string)
    ensures Quiz(text).None? <==> !HasIndicator(text) || QuizLines(text) == []
    ensures Quiz(text).Some? ==>
      var lines := QuizLines(text);
      var b := Bounds(lines);
      var qs := Quiz(text).value;
      |qs| == (if TitleIndicesFrom(lines, 0) == [] then 1 else |TitleIndicesFrom(lines, 0)|)
      && TitledByChunks(lines, b, qs)
  {
    var lines := QuizLines(text);
    if HasIndicator(text) && |lines| > 0 {
      BoundsValid(lines);
      ChunksTitled(lines, Bounds(lines));
    }
  }

  lemma ChunksTitled(lines: seq<string>, b: seq<nat>)
    requires ValidBounds(lines, b)
    ensures TitledByChunks(lines, b, QuestionsOf(ChunksFrom(lines, b, 0)))
  {
    ChunksCount(lines, b, 0);
    var cs := ChunksFrom(lines, b, 0);
    var qs := QuestionsOf(cs);
    forall q {:trigger qs[q]} | 0 <= q < |qs|
      ensures b[q] < b[q + 1] <= |lines| && qs[q].title == RemoveChars(lines[b[q]], JsWhitespace)
    {
      ChunkAt(lines, b, 0, q);
      QuestionsOfAt(cs, q);
      ChunkTitle(cs[q]);
    }
  }

  lemma ChunkTitle(chunk: seq<string>)
    requires |chunk| > 0
    ensures ChunkQuestion(chunk).title == RemoveChars(chunk[0], JsWhitespace)
  {
  }

  // ---------------------------------------------------------------------
  // What one chunk's fields hold
  // ---------------------------------------------------------------------

  /** The texts of the option lines from `i` on, in order and as shown. */
  function OptionsFrom(kinds: seq<LineKind>, i: nat): seq<string>
    requires i <= |kinds|
    decreases |kinds| - i
  {
    if i == |kinds| then []
    else (if kinds[i].OptionLine? then [kinds[i].option] else []) + OptionsFrom(kinds, i + 1)
  }

  datatype Field = StemField | AnswerField

  function Capture(k: Field, kind: LineKind): Option<string>
  {
    match k
    case StemField => if kind.StemLine? then Some(kind.stem) else None
    case AnswerField => if kind.AnswerLine? then Some(kind.answer) else None
  }

  function Get(k: Field, f: Fields): string
  {
    match k
    case StemField => f.stem
    case AnswerField => f.answer
  }

  /** The text of the last line of field `k` from `i` on, or `d` when there is none. */
  function LastFrom(kinds: seq<LineKind>, i: nat, k: Field, d: string): string
    requires i <= |kinds|
    decreases |kinds| - i
  {
    if i == |kinds| then d else LastFrom(kinds, i + 1, k, Capture(k, kinds[i]).GetOr(d))
  }

  /** Continuation lines hold no option. */
  lemma {:induction false} ContinuationHasNoOptions(kinds: seq<LineKind>, i: nat, e: nat)
    requires i <= e <= |kinds| && IsContinuation(kinds, i, e)
    ensures OptionsFrom(kinds, i) == OptionsFrom(kinds, e)
    decreases e - i
  {
    if i < e {
      assert !IsBreak(kinds[i]);
      ContinuationHasNoOptions(kinds, i + 1, e);
    }
  }

  /** Continuation lines hold no stem and no answer. */
  lemma {:induction false} ContinuationHasNoCaptures(kinds: seq<LineKind>, i: nat, e: nat, k: Field, d: string)
    requires i <= e <= |kinds| && IsContinuation(kinds, i, e)
    ensures LastFrom(kinds, i, k, d) == LastFrom(kinds, e, k, d)
    decreases e - i
  {
    if i < e {
      assert !IsBreak(kinds[i]);
      ContinuationHasNoCaptures(kinds, i + 1, e, k, d);
    }
  }

  /** One turn adds the option of the line it reads, if that is an option line, and no other. */
  lemma StepOptions(kinds: seq<LineKind>, chunk: seq<string>, i: nat, f: Fields)
    requires |kinds| == |chunk| && i < |chunk|
    ensures var st := ParseStep(kinds, chunk, i, f);
      st.fields.options + OptionsFrom(kinds, st.next) == f.options + OptionsFrom(kinds, i)
  {
    var st := ParseStep(kinds, chunk, i, f);
    var rest := OptionsFrom(kinds, i + 1);
    if kinds[i].OptionLine? {
      assert OptionsFrom(kinds, i) == [kinds[i].option] + rest;
      assert st.next == i + 1 && st.fields.options == f.options + [kinds[i].option];
      ConcatAssoc(f.options, [kinds[i].option], rest);
    } else {
      assert OptionsFrom(kinds, i) == rest;
      if kinds[i].ExplainLine? {
        ExplanationOptions(kinds, chunk, i, f);
      } else {
        assert st.next == i + 1 && st.fields.options == f.options;
      }
    }
  }

  /** An explanation line and its continuation lines add no option. */
  lemma ExplanationOptions(kinds: seq<LineKind>, chunk: seq<string>, i: nat, f: Fields)
    requires |kinds| == |chunk| && i < |chunk| && kinds[i].ExplainLine?
    ensures var st := ParseStep(kinds, chunk, i, f);
      st.fields.options == f.options && OptionsFrom(kinds, st.next) == OptionsFrom(kinds, i + 1)
  {
    var e := ContinuationEnd(kinds, i + 1);
    ContinuationEndSpec(kinds, i + 1);
    ContinuationHasNoOptions(kinds, i + 1, e);
  }

  /** One turn sets the stem (answer) to the text of the line it reads, if that is a stem (answer) line. */
  lemma StepLast(kinds: seq<LineKind>, chunk: seq<string>, i: nat, f: Fields, k: Field)
    requires |kinds| == |chunk| && i < |chunk|
    ensures var st := ParseStep(kinds, chunk, i, f);
      LastFrom(kinds, st.next, k, Get(k, st.fields)) == LastFrom(kinds, i, k, Get(k, f))
  {
    if kinds[i].ExplainLine? {
      ContinuationEndSpec(kinds, i + 1);
      ContinuationHasNoCaptures(kinds, i + 1, ContinuationEnd(kinds, i + 1), k, Get(k, f));
    }
  }

  /** The loop collects every option line's text, in the order of the lines. */
  lemma {:induction false} ParsedOptions(kinds: seq<LineKind>, chunk: seq<string>, i: nat, f: Fields)
    requires |kinds| == |chunk| && i <= |chunk|
    ensures ParseFrom(kinds, chunk, i, f).options == f.options + OptionsFrom(kinds, i)
    decreases |chunk| - i
  {
    if i < |chunk| {
      var st := ParseStep(kinds, chunk, i, f);
      ParsedOptions(kinds, chunk, st.next, st.fields);
      StepOptions(kinds, chunk, i, f);
    }
  }

  /** The loop leaves the stem (answer) of the last stem (answer) line. */
  lemma {:induction false} ParsedLast(kinds: seq<LineKind>, chunk: seq<string>, i: nat, f: Fields, k: Field)
    requires |kinds| == |chunk| && i <= |chunk|
    ensures Get(k, ParseFrom(kinds, chunk, i, f)) == LastFrom(kinds, i, k, Get(k, f))
    decreases |chunk| - i
  {
    if i < |chunk| {
      var st := ParseStep(kinds, chunk, i, f);
      ParsedLast(kinds, chunk, st.next, st.fields, k);
      StepLast(kinds, chunk, i, f, k);
    }
  }

  /** The lines from `i` on that the option pattern matches, as shown. */
  function OptionLinesFrom(lines: seq<string>, i: nat): seq<string>
    requires i <= |lines|
    decreases |lines| - i
  {
    if i == |lines| then []
    else (if OptionCapture(lines[i]).Some? then [FormatOption(lines[i])] else []) + OptionLinesFrom(lines, i + 1)
  }

  /** The text of the last line from `i` on that the answer pattern matches, or `d`. */
  function LastAnswerFrom(lines: seq<string>, i: nat, d: string): string
    requires i <= |lines|
    decreases |lines| - i
  {
    if i == |lines| then d else LastAnswerFrom(lines, i + 1, AnswerCapture(lines[i]).GetOr(d))
  }

  /** The text of the last line from `i` on that the stem pattern matches, or `d`. */
  function LastStemFrom(lines: seq<string>, i: nat, d: string): string
    requires i <= |lines|
    decreases |lines| - i
  {
    if i == |lines| then d else LastStemFrom(lines, i + 1, StemCapture(lines[i]).GetOr(d))
  }

  lemma {:induction false} OptionKinds(chunk: seq<string>, i: nat)
    requires i <= |chunk|
    ensures OptionsFrom(Kinds(chunk), i) == OptionLinesFrom(chunk, i)
    decreases |chunk| - i
  {
    if i < |chunk| {
      KindOfOption(chunk[i]);
      OptionKinds(chunk, i + 1);
    }
  }

  lemma {:induction false} AnswerKinds(chunk: seq<string>, i: nat, d: string)
    requires i <= |chunk|
    ensures LastFrom(Kinds(chunk), i, AnswerField, d) == LastAnswerFrom(chunk, i, d)
    decreases |chunk| - i
  {
    if i < |chunk| {
      KindOfAnswer(chunk[i]);
      AnswerKinds(chunk, i + 1, AnswerCapture(chunk[i]).GetOr(d));
    }
  }

  lemma {:induction false} StemKinds(chunk: seq<string>, i: nat, d: string)
    requires i <= |chunk|
    ensures LastFrom(Kinds(chunk), i, StemField, d) == LastStemFrom(chunk, i, d)
    decreases |chunk| - i
  {
    if i < |chunk| {
      KindOfStem(chunk[i]);
      StemKinds(chunk, i + 1, StemCapture(chunk[i]).GetOr(d));
    }
  }

  /** A line is an explanation line exactly when the explanation pattern matches it. */
  lemma KindOfExplain(line: string)
    ensures KindOf(line).ExplainLine? <==> ExplainCapture(line).Some?
    ensures ExplainCapture(line).Some? ==> KindOf(line).explanation == ExplainCapture(line).value
  {
    if IsTitleLine(line) {
      TitleMatchesNothingElse(line);
    } else if ExplainCapture(line).Some? {
      ExplainLineStart(line);
      if StemCapture(line).Some? { StemLineStart(line); }
      if AnswerCapture(line).Some? { AnswerLineStart(line); }
    }
  }

  /**
   * The explanation the lines from `i` on leave, `d` when there is none:
   * at a line the explanation pattern matches, its text and every line up
   * to the next stem, option, answer or title line, after which the walk
   * goes on; the last such explanation wins.
   */
  function LastExplanationFrom(lines: seq<string>, i: nat, d: string): string
    requires i <= |lines|
    decreases |lines| - i
  {
    if i == |lines| then d
    else
      match ExplainCapture(lines[i])
      case None => LastExplanationFrom(lines, i + 1, d)
      case Some(t) =>
        var e := ContinuationEnd(Kinds(lines), i + 1);
        LastExplanationFrom(lines, e, Join("\n", [t] + lines[i + 1..e]))
  }

  lemma {:induction false} ParsedExplanation(chunk: seq<string>, i: nat, f: Fields)
    requires i <= |chunk|
    ensures ParseFrom(Kinds(chunk), chunk, i, f).explanation == LastExplanationFrom(chunk, i, f.explanation)
    decreases |chunk| - i
  {
    if i < |chunk| {
      var kinds := Kinds(chunk);
      var st := ParseStep(kinds, chunk, i, f);
      assert kinds[i] == KindOf(chunk[i]);
      KindOfExplain(chunk[i]);
      ParsedExplanation(chunk, st.next, st.fields);
    }
  }

  /**
   * An explanation line right after another is no break line: it is taken
   * into the first explanation, label and all.
   */
  lemma SwallowedExplanationLabel()
    ensures ChunkQuestion(["题目1", "解析：甲", "解析：乙"]).explanation == "甲\n解析：乙"
  {
    var chunk := ["题目1", "解析：甲", "解析：乙"];
    ParsedExplanation(chunk, 0, NoFields);
    ExplanationWalk(chunk);
  }

  /** The walk over the three lines: nothing at the title, then line 1 with line 2 as its continuation. */
  lemma ExplanationWalk(chunk: seq<string>)
    requires chunk == ["题目1", "解析：甲", "解析：乙"]
    ensures LastExplanationFrom(chunk, 0, "") == "甲\n解析：乙"
  {
    NoExplanationInTitle();
    FirstExplanationLine();
    SecondExplanationContinues(chunk);
    assert LastExplanationFrom(chunk, 0, "") == LastExplanationFrom(chunk, 1, "");
    assert chunk[2..3] == ["解析：乙"];
    assert LastExplanationFrom(chunk, 1, "") == LastExplanationFrom(chunk, 3, Join("\n", ["甲", "解析：乙"]));
  }

  lemma FirstExplanationLine()
    ensures ExplainCapture("解析：甲") == Some("甲")
  {
    var line := "解析：甲";
    assert IsPrefix(ExplainLabels[0], line);
    assert line[2..] == "：甲";
    assert LStrip("：甲", JsWhitespace) == "：甲";
    assert "：甲"[1..] == "甲";
    assert LStrip("甲", JsWhitespace) == "甲";
  }

  lemma NoExplanationInTitle()
    ensures ExplainCapture("题目1").None?
  {
    if ExplainCapture("题目1").Some? { ExplainLineStart("题目1"); }
  }

  /** The last line of the chunk is no break line, so the explanation at line 1 runs to the end. */
  lemma SecondExplanationContinues(chunk: seq<string>)
    requires chunk == ["题目1", "解析：甲", "解析：乙"]
    ensures ContinuationEnd(Kinds(chunk), 2) == 3
  {
    var line := chunk[2];
    if IsTitleLine(line) { TitleLineStart(line); }
    if StemCapture(line).Some? { StemLineStart(line); }
    if AnswerCapture(line).Some? { AnswerLineStart(line); }
    assert !IsBreakLine(line);
    assert ContinuesTo(chunk, 2, 3);
    ContinuationEndUnique(chunk, 2, 3);
  }

  /**
   * A question's options are the texts of its chunk's option lines, in
   * order; its answer is the text of the last answer line (empty without
   * one); its stem is the text of the last stem line, or, without a
   * non-empty one, the first line after the title that is no option,
   * answer or explanation line; its explanation is the last one the lines
   * leave, with its continuation lines.
   */
  lemma ChunkFields(chunk: seq<string>)
    requires |chunk| > 0
    ensures ChunkQuestion(chunk).options == OptionLinesFrom(chunk, 0)
    ensures ChunkQuestion(chunk).explanation == LastExplanationFrom(chunk, 0, "")
    ensures ChunkQuestion(chunk).answer == LastAnswerFrom(chunk, 0, "")
    ensures var s := LastStemFrom(chunk, 0, "");
      ChunkQuestion(chunk).stem == if s != "" then s else FirstPlain(chunk[1..]).GetOr("")
  {
    var f := ParseFrom(Kinds(chunk), chunk, 0, NoFields);
    ParsedFields(chunk);
    ParsedExplanation(chunk, 0, NoFields);
    assert ChunkQuestion(chunk).options == f.options && ChunkQuestion(chunk).answer == f.answer;
    assert ChunkQuestion(chunk).stem == if f.stem == "" then FirstPlain(chunk[1..]).GetOr("") else f.stem;
  }

  /** What the per-line loop leaves in the fields, over the whole chunk. */
  lemma ParsedFields(chunk: seq<string>)
    ensures var f := ParseFrom(Kinds(chunk), chunk, 0, NoFields);
      f.options == OptionLinesFrom(chunk, 0) && f.answer == LastAnswerFrom(chunk, 0, "") && f.stem == LastStemFrom(chunk, 0, "")
  {
    var kinds := Kinds(chunk);
    ParsedOptions(kinds, chunk, 0, NoFields);
    OptionKinds(chunk, 0);
    ParsedLast(kinds, chunk, 0, NoFields, AnswerField);
    AnswerKinds(chunk, 0, "");
    ParsedLast(kinds, chunk, 0, NoFields, StemField);
    StemKinds(chunk, 0, "");
  }

  // ---------------------------------------------------------------------
  // The parser
  // ---------------------------------------------------------------------


  /** The lines from `from` up to `e` are no break lines, and line `e`, if any, is one. */
  predicate ContinuesTo(chunk: seq<string>, from: nat, e: nat)
    requires from <= e <= |chunk|
  {
    (forall t {:trigger IsBreakLine(chunk[t])} :: from <= t < e ==> !IsBreakLine(chunk[t])) && (e == |chunk| || IsBreakLine(chunk[e]))
  }

  /** Only one index ends the continuation: the one `ContinuationEnd` finds. */
  lemma {:induction false} ContinuationEndUnique(chunk: seq<string>, from: nat, e: nat)
    requires from <= e <= |chunk| && ContinuesTo(chunk, from, e)
    ensures ContinuationEnd(Kinds(chunk), from) == e
    decreases e - from
  {
    if from < |chunk| {
      assert Kinds(chunk)[from] == KindOf(chunk[from]);
      BreakKind(chunk[from]);
    }
    if from < e {
      ContinuationEndUnique(chunk, from + 1, e);
    }
  }

  /**
   * The lines an explanation line at `i` takes with it: its text `first`,
   * then every following line up to the next stem, option, answer or title
   * line; `last` is the index of the last line taken.
   */
  method TakeExplanation(chunk: seq<string>, i: nat, first: string) returns (parts: seq<string>, last: nat)
    requires i < |chunk|
    ensures i <= last < |chunk| && last + 1 == ContinuationEnd(Kinds(chunk), i + 1)
    ensures parts == [first] + chunk[i + 1..last + 1]
  {
    parts := [first];
    last := i;
    var j := i + 1;
    assert chunk[i + 1..j] == [];
    while j < |chunk|
      invariant Taken(chunk, i, first, parts, j) && last == j - 1
      decreases |chunk| - j
    {
      var next := chunk[j];
      if IsBreakLine(next) {
        break;
      }
      TakeOne(chunk, i, first, parts, j);
      parts := parts + [next];
      last := j;
      j := j + 1;
    }
    TakenAll(chunk, i, first, parts, j);
  }

  /** The loop of `TakeExplanation` before line `j`: it has taken every line from `i + 1` up to `j`, and none of them is a break line. */
  predicate Taken(chunk: seq<string>, i: nat, first: string, parts: seq<string>, j: nat)
  {
    i < j <= |chunk| && parts == [first] + chunk[i + 1..j]
    && forall t {:trigger IsBreakLine(chunk[t])} :: i + 1 <= t < j ==> !IsBreakLine(chunk[t])
  }

  /** Taking a line that is no break line. */
  lemma TakeOne(chunk: seq<string>, i: nat, first: string, parts: seq<string>, j: nat)
    requires Taken(chunk, i, first, parts, j) && j < |chunk| && !IsBreakLine(chunk[j])
    ensures Taken(chunk, i, first, parts + [chunk[j]], j + 1)
  {
    assert chunk[i + 1..j + 1] == chunk[i + 1..j] + [chunk[j]];
    ConcatAssoc([first], chunk[i + 1..j], [chunk[j]]);
  }

  /** The loop stops at a break line or at the chunk's end: the continuation ends there. */
  lemma TakenAll(chunk: seq<string>, i: nat, first: string, parts: seq<string>, j: nat)
    requires Taken(chunk, i, first, parts, j) && (j == |chunk| || IsBreakLine(chunk[j]))
    ensures j == ContinuationEnd(Kinds(chunk), i + 1) && parts == [first] + chunk[i + 1..j]
  {
    ContinuationEndUnique(chunk, i + 1, j);
  }

  /** The turn of the loop at line `i`, read off the patterns in the order the page tries them. */
  lemma StepByPatterns(chunk: seq<string>, i: nat, f: Fields)
    requires i < |chunk|
    ensures var line, st := chunk[i], ParseStep(Kinds(chunk), chunk, i, f);
      (IsTitleLine(line) ==> st == Step(i + 1, f))
      && (!IsTitleLine(line) && StemCapture(line).Some? ==> st == Step(i + 1, f.(stem := StemCapture(line).value)))
      && (!IsTitleLine(line) && StemCapture(line).None? && OptionCapture(line).Some?
          ==> st == Step(i + 1, f.(options := f.options + [FormatOption(line)])))
      && (!IsTitleLine(line) && StemCapture(line).None? && OptionCapture(line).None? && AnswerCapture(line).Some?
          ==> st == Step(i + 1, f.(answer := AnswerCapture(line).value)))
      && (!IsTitleLine(line) && StemCapture(line).None? && OptionCapture(line).None? && AnswerCapture(line).None?
          && ExplainCapture(line).None?
          ==> st == Step(i + 1, f))
  {
    assert Kinds(chunk)[i] == KindOf(chunk[i]);
  }

  /** A line that only the explanation pattern matches is an explanation line. */
  lemma ExplanationKind(chunk: seq<string>, i: nat)
    requires i < |chunk| && !IsTitleLine(chunk[i]) && StemCapture(chunk[i]).None? && OptionCapture(chunk[i]).None?
    requires AnswerCapture(chunk[i]).None? && ExplainCapture(chunk[i]).Some?
    ensures Kinds(chunk)[i] == ExplainLine(ExplainCapture(chunk[i]).value)
  {
  }

  /** The turn of the loop at an explanation line with text `t` whose continuation ends after line `last`. */
  lemma StepAtExplanation(chunk: seq<string>, i: nat, f: Fields, t: string, last: nat)
    requires i < |chunk| && Kinds(chunk)[i] == ExplainLine(t)
    requires i <= last < |chunk| && ContinuationEnd(Kinds(chunk), i + 1) == last + 1
    ensures ParseStep(Kinds(chunk), chunk, i, f) == Step(last + 1, f.(explanation := Join("\n", [t] + chunk[i + 1..last + 1])))
  {
  }

  /** `for` over the lines of a chunk: the body for line `i`. */
  method ParseLine(chunk: seq<string>, i: nat, f: Fields) returns (next: nat, g: Fields)
    requires i < |chunk|
    ensures Step(next, g) == ParseStep(Kinds(chunk), chunk, i, f)
  {
    var line := chunk[i];
    StepByPatterns(chunk, i, f);
    if IsTitleLine(line) {
      TitleMatchesNothingElse(line);
    }
    next, g := i + 1, f;
    if i == 0 && IsTitleLine(line) {
    } else if StemCapture(line).Some? {
      g := f.(stem := StemCapture(line).value);
    } else if OptionCapture(line).Some? {
      g := f.(options := f.options + [FormatOption(line)]);
    } else if AnswerCapture(line).Some? {
      g := f.(answer := AnswerCapture(line).value);
    } else if ExplainCapture(line).Some? {
      ExplanationKind(chunk, i);
      var parts, last := TakeExplanation(chunk, i, ExplainCapture(line).value);
      StepAtExplanation(chunk, i, f, ExplainCapture(line).value, last);
      next := last + 1;
      g := f.(explanation := Join("\n", parts));
    }
  }

  /** The per-chunk part of `tryParseQuiz`. */
  method ParseChunk(chunk: seq<string>) returns (q: Question)
    requires |chunk| > 0
    ensures q == ChunkQuestion(chunk)
  {
    var title := RemoveChars(chunk[0], JsWhitespace);
    var fields := NoFields;
    var i := 0;
    ghost var goal := ParseFrom(Kinds(chunk), chunk, 0, NoFields);
    while i < |chunk|
      invariant 0 <= i <= |chunk|
      invariant ParseFrom(Kinds(chunk), chunk, i, fields) == goal
      decreases |chunk| - i
    {
      i, fields := ParseLine(chunk, i, fields);
    }
    var stem := fields.stem;
    if stem == "" {
      stem := FirstPlain(chunk[1..]).GetOr("");
    }
    q := Question(title, stem, fields.options, fields.answer, fields.explanation);
  }

  /** The indices of the title lines, in order. */
  method TitleIndices(lines: seq<string>) returns (indices: seq<nat>)
    ensures indices == TitleIndicesFrom(lines, 0)
  {
    indices := [];
    for i := 0 to |lines|
      invariant indices + TitleIndicesFrom(lines, i) == TitleIndicesFrom(lines, 0)
    {
      if IsTitleLine(lines[i]) {
        ConcatAssoc(indices, [i], TitleIndicesFrom(lines, i + 1));
        indices := indices + [i];
      }
    }
  }

  /** `tryParseQuiz`. */
  method TryParseQuiz(text: string) returns (r: Option<seq<Question>>)
    ensures r == Quiz(text)
  {
    if !HasIndicator(text) {
      return None;
    }
    var lines := QuizLines(text);
    if |lines| == 0 {
      return None;
    }
    var indices := TitleIndices(lines);
    if |indices| == 0 {
      indices := [0];
    }
    indices := indices + [|lines|];
    BoundsValid(lines);
    var questions := ParseChunks(lines, indices);
    r := Some(questions);
  }

  /** One question per chunk between consecutive bounds. */
  method ParseChunks(lines: seq<string>, bounds: seq<nat>) returns (questions: seq<Question>)
    requires ValidBounds(lines, bounds)
    ensures questions == QuestionsOf(ChunksFrom(lines, bounds, 0))
  {
    questions := [];
    ghost var goal := QuestionsOf(ChunksFrom(lines, bounds, 0));
    for k := 0 to |bounds| - 1
      invariant questions + QuestionsOf(ChunksFrom(lines, bounds, k)) == goal
    {
      var chunk := lines[bounds[k]..bounds[k + 1]];
      ghost var rest := ChunksFrom(lines, bounds, k + 1);
      if |chunk| > 0 {
        var q := ParseChunk(chunk);
        assert ChunksFrom(lines, bounds, k) == [chunk] + rest;
        QuestionsOfCons(chunk, rest);
        ConcatAssoc(questions, [q], QuestionsOf(rest));
        questions := questions + [q];
      } else {
        assert ChunksFrom(lines, bounds, k) == rest;
      }
    }
  }

  lemma QuestionsOfCons(chunk: seq<string>, rest: seq<seq<string>>)
    requires |chunk| > 0 && forall c :: 0 <= c < |rest| ==> |rest[c]| > 0
    ensures QuestionsOf([chunk] + rest) == [ChunkQuestion(chunk)] + QuestionsOf(rest)
  {
    ConsParts(chunk, rest);
  }

  lemma {:induction false} QuestionsOfAt(chunks: seq<seq<string>>, q: nat)
    requires forall c :: 0 <= c < |chunks| ==> |chunks[c]| > 0
    requires q < |chunks|
    ensures QuestionsOf(chunks)[q] == ChunkQuestion(chunks[q])
    decreases q
  {
    if q > 0 {
      QuestionsOfAt(chunks[1..], q - 1);
    }
  }
}
