/**
 * The exam-question agents' answer cache (`JindaishiQuestionAgent` and the
 * identical `XigaiQuestionAgent`): a request that asks for answers reads the
 * last generated exam back, any other request generates a new exam, caches
 * it whole and returns it with the answers stripped.
 *
 * Generation by the base agent and by the multimodal agent are parameters:
 * `generate` never fails (the base agent catches its own errors), `describe`
 * may raise, which is a `Failure`.
 */
module QuestionAgent {
  import opened Wrappers
  import opened Strings
  import opened Subsequences
  import opened PythonLines
  import opened ExplanationStripper

  /** Keywords by which a request asks for the answers to the last exam. */
  const AnswerKeywords: seq<string> := ["解析", "答案", "讲解", "答案解析", "参考答案"]

  /** Keywords by which a request with an image asks for an exam. */
  const ExamKeywords: seq<string> := ["出题", "生成题目", "题目", "选择题", "判断题", "简答题", "试题", "练习"]

  /** The reply to an answer request when nothing has been generated. */
  const NoQuestionMessage: string := "当前没有可供解析的题目，请先提出出题需求。"

  /** The two cache fields, `_last_full_output` and `_last_question_only_output`. */
  datatype Cache = Cache(full: string, questionOnly: string)

  const EmptyCache := Cache("", "")

  predicate IsAnswerRequest(input: string)
  {
    ContainsAny(input, AnswerKeywords)
  }

  predicate IsExamRequest(input: string)
  {
    ContainsAny(input, ExamKeywords)
  }

  /** The reply to an answer request: the full last exam, or the notice when there is none. */
  function CachedAnswer(full: string): (r: string)
    ensures r != ""
    ensures r == full || (full == "" && r == NoQuestionMessage)
  {
    if full != "" then full else NoQuestionMessage
  }

  /** The cache after generating `full`, and the reply. */
  function Generated(full: string): (Cache, string)
  {
    var stripped := StripExplanationsSpec(full);
    (Cache(full, stripped), stripped)
  }

  /** `process_request`: the new cache and the reply. */
  function Request(c: Cache, input: string, generate: string -> string): (Cache, string)
  {
    if IsAnswerRequest(input) then (c, CachedAnswer(c.full))
    else Generated(generate(input))
  }

  /** `process_multimodal_request`: the new cache and the reply. */
  function MultimodalRequest(c: Cache, text: string, imagePath: Option<string>, hasMultimodalAgent: bool,
                             generate: string -> string, describe: (string, string) -> Result<string, string>): (Cache, string)
  {
    if imagePath.None? || imagePath.value == "" || !hasMultimodalAgent then Request(c, text, generate)
    else if IsAnswerRequest(text) then (c, CachedAnswer(c.full))
    else
      match describe(text, imagePath.value)
      case Failure(_) => Request(c, text, generate)
      case Success(full) =>
        if IsExamRequest(text) then Generated(full)
        else (Cache(full, c.questionOnly), full)
  }

  // ---------------------------------------------------------------------
  // Properties of the cache
  // ---------------------------------------------------------------------

  /** An answer request returns the cached exam, or the notice, and changes nothing. */
  lemma AnswerRequestReadsCache(c: Cache, input: string, generate: string -> string)
    requires IsAnswerRequest(input)
    ensures Request(c, input, generate).0 == c
    ensures var r := Request(c, input, generate).1;
      (c.full != "" ==> r == c.full) && (c.full == "" ==> r == NoQuestionMessage)
  {
  }

  /**
   * Any other request caches the generated text and its stripped form and
   * returns that stripped form, whose lines are lines of the generated text
   * in their order.
   */
  lemma OtherRequestRegenerates(c: Cache, input: string, generate: string -> string)
    requires !IsAnswerRequest(input)
    ensures var (c', r) := Request(c, input, generate);
      c'.full == generate(input) && c'.questionOnly == r && r == StripExplanationsSpec(generate(input))
    ensures IsSubsequence(QuestionOnlyLines(generate(input)), SplitLines(generate(input)))
    ensures Request(c, input, generate).1 == Join("\n", QuestionOnlyLines(generate(input)))
  {
    StripOnlyDropsLines(generate(input));
  }

  /**
   * After a request that generated a non-empty exam, an answer request gets
   * that exam back whole, whatever was cached before.
   */
  lemma AnswersFollowLastExam(c: Cache, first: string, second: string, generate: string -> string)
    requires !IsAnswerRequest(first) && IsAnswerRequest(second)
    requires generate(first) != ""
    ensures Request(Request(c, first, generate).0, second, generate).1 == generate(first)
  {
  }

  /** Without an image, or without a multimodal agent, the multimodal entry is `process_request`. */
  lemma NoImageIsPlainRequest(c: Cache, text: string, imagePath: Option<string>, hasMultimodalAgent: bool,
                              generate: string -> string, describe: (string, string) -> Result<string, string>)
    requires imagePath.None? || imagePath.value == "" || !hasMultimodalAgent
    ensures MultimodalRequest(c, text, imagePath, hasMultimodalAgent, generate, describe) == Request(c, text, generate)
  {
  }

  /**
   * The answer keywords are checked before the multimodal agent is asked:
   * the outcome then does not depend on it, and the cache is unchanged.
   */
  lemma MultimodalAnswerFirst(c: Cache, text: string, imagePath: string, generate: string -> string,
                              describe: (string, string) -> Result<string, string>, describe': (string, string) -> Result<string, string>)
    requires imagePath != "" && IsAnswerRequest(text)
    ensures MultimodalRequest(c, text, Some(imagePath), true, generate, describe)
         == MultimodalRequest(c, text, Some(imagePath), true, generate, describe')
         == (c, CachedAnswer(c.full))
  {
  }

  /**
   * A successful multimodal generation always replaces the full cache; the
   * question-only cache is replaced, and the stripped text returned, exactly
   * when the request asks for an exam.
   */
  lemma MultimodalSuccess(c: Cache, text: string, imagePath: string, generate: string -> string,
                          describe: (string, string) -> Result<string, string>)
    requires imagePath != "" && !IsAnswerRequest(text) && describe(text, imagePath).Success?
    ensures var full := describe(text, imagePath).value;
      var (c', r) := MultimodalRequest(c, text, Some(imagePath), true, generate, describe);
      c'.full == full
      && (IsExamRequest(text) ==> c'.questionOnly == r == StripExplanationsSpec(full))
      && (!IsExamRequest(text) ==> c'.questionOnly == c.questionOnly && r == full)
  {
  }

  /** A multimodal generation that raises falls back to `process_request` on the text. */
  lemma MultimodalFailureFallsBack(c: Cache, text: string, imagePath: string, generate: string -> string,
                                   describe: (string, string) -> Result<string, string>)
    requires imagePath != "" && !IsAnswerRequest(text) && describe(text, imagePath).Failure?
    ensures MultimodalRequest(c, text, Some(imagePath), true, generate, describe) == Generated(generate(text))
  {
  }

  /** The agent object, with the two cache fields it updates in place. */
  class QuestionAgent {
    var lastFullOutput: string
    var lastQuestionOnlyOutput: string
    /** Whether building the multimodal agent succeeded at construction. */
    const hasMultimodalAgent: bool

    function Snapshot(): Cache
      reads this
    {
      Cache(lastFullOutput, lastQuestionOnlyOutput)
    }

    constructor (hasMultimodalAgent: bool)
      ensures Snapshot() == EmptyCache && this.hasMultimodalAgent == hasMultimodalAgent
    {
      this.hasMultimodalAgent := hasMultimodalAgent;
      lastFullOutput := "";
      lastQuestionOnlyOutput := "";
    }

    /** `process_request`. */
    method ProcessRequest(userInput: string, generate: string -> string) returns (reply: string)
      modifies this
      ensures (Snapshot(), reply) == Request(old(Snapshot()), userInput, generate)
    {
      if IsAnswerRequest(userInput) {
        if lastFullOutput != "" {
          return lastFullOutput;
        }
        return NoQuestionMessage;
      }
      var fullOutput := generate(userInput);
      lastFullOutput := fullOutput;
      lastQuestionOnlyOutput := StripExplanations(fullOutput);
      return lastQuestionOnlyOutput;
    }

    /** `process_multimodal_request`; a raised exception is a `Failure` from `describe`. */
    method ProcessMultimodalRequest(textInput: string, imagePath: Option<string>, generate: string -> string,
                                    describe: (string, string) -> Result<string, string>) returns (reply: string)
      modifies this
      ensures (Snapshot(), reply) == MultimodalRequest(old(Snapshot()), textInput, imagePath, hasMultimodalAgent, generate, describe)
    {
      if imagePath.None? || imagePath.value == "" || !hasMultimodalAgent {
        reply := ProcessRequest(textInput, generate);
        return;
      }
      if IsAnswerRequest(textInput) {
        return if lastFullOutput != "" then lastFullOutput else NoQuestionMessage;
      }
      var outcome := describe(textInput, imagePath.value);
      if outcome.Failure? {
        reply := ProcessRequest(textInput, generate);
        return;
      }
      var fullOutput := outcome.value;
      lastFullOutput := fullOutput;
      if IsExamRequest(textInput) {
        lastQuestionOnlyOutput := StripExplanations(fullOutput);
        return lastQuestionOnlyOutput;
      }
      return fullOutput;
    }
  }
}
