/**
 * The ideology-and-law answer agent (`SixiangDaodeFazhiAnswerAgent`): how a
 * question with an optional image is routed between OCR, the vision agent
 * and the retrieval-augmented text answer, and how that answer is built
 * and cleaned.
 *
 * OCR, the vector store search, the language model and the vision agent
 * are parameters. OCR, the model and the vision agent report an exception
 * as a `Failure` that the agent handles; a search that raises is not
 * handled here, and `process_request` then fails with its error.
 */
module QaAgent {
  import opened Wrappers
  import opened Strings
  import LlmWrapper
  import KnowledgeGraph
  import RetrievalAgent

  const SubjectName := "思想道德与法治"
  const OcrHeader := "\n\n以下是 OCR 自动识别的图片文字，请据此解答：\n"
  const DefaultImagePrompt := "请根据图片中的题目进行解答。"
  const Apology := "抱歉，回答过程中出现问题，请稍后再试。"
  /** The longest OCR excerpt that goes into a question. */
  const OcrLimit := 1500
  /** The `k` passed to the search (which `retrieval_k` overrides) and the most snippets used. */
  const ContextSize := 5

  /**
   * The agent: its subject, whether the vision agent could be built, and
   * the retrieval state of its base agent.
   */
  datatype AnswerAgent = AnswerAgent(subjectName: string, hasMultimodalAgent: bool, retriever: RetrievalAgent.Retriever)

  // ---------------------------------------------------------------------
  // The text answer
  // ---------------------------------------------------------------------

  /** `docs[:5]`. */
  function FirstSnippets(docs: seq<string>): (r: seq<string>)
    ensures |r| <= ContextSize && |r| <= |docs| && r == docs[..|r|]
    ensures |docs| <= ContextSize ==> r == docs
  {
    if |docs| <= ContextSize then docs else docs[..ContextSize]
  }

  /** The reference material: at most five snippets, separated by blank lines. */
  function Context(docs: seq<string>): string
  {
    Join("\n\n", FirstSnippets(docs))
  }

  /** The fixed instructions that follow the subject: the answer's sections, then the heading of the material. */
  const Instructions := "的教师，请以结构化 Markdown 输出，条理清晰、重点明确。请优先完整与准确，适度展开，避免冗余。若下方\"参考资料\"足够，请严格基于资料作答；否则结合你的专业知识回答。\n\n请按照以下结构组织你的回答（如不适用可省略某些小节）：\n### 核心结论\n- 用1-2句加粗给出直接答案或观点。\n\n### 关键要点\n- 3-6条要点，每条不超过两句，必要处使用**加粗关键词**。\n\n### 依据与推理\n- 用2-5句解释你的论证链条，可引用资料中的关键句（简洁转述）。\n\n### 示例或应用（可选）\n- 给出1个贴近教学的例子或场景来帮助理解。\n\n### 小结与延伸（可选）\n- 用1-2句总结，并提出1个进一步思考方向。\n\n参考资料（可能为空）：\n"

  function PromptHead(subjectName: string): string
  {
    "你是一位精通" + subjectName + Instructions
  }

  /** `_build_prompt`: the instructions, the material, and last the student's question and the answer cue. */
  function BuildPrompt(agent: AnswerAgent, question: string, context: string): (p: string)
    ensures IsSuffix("\n\n学生问题：" + question + "\n回答：", p)
    ensures IsPrefix(PromptHead(agent.subjectName) + context, p)
  {
    var head := PromptHead(agent.subjectName) + context;
    var tail := "\n\n学生问题：" + question + "\n回答：";
    assert (head + tail)[|head + tail| - |tail|..] == tail;
    assert (head + tail)[..|head|] == head;
    head + tail
  }

  /** How the system message asks the answer to be laid out. */
  const SystemInstructions := "解答专家。请使用结构化 Markdown（标题、列表、加粗）输出，层次清晰，美观易读；在保证准确性的前提下适度展开，覆盖关键要点。"

  function SystemPrompt(subjectName: string): string
  {
    "你是一位严谨的" + subjectName + SystemInstructions
  }

  const Backtick: set<char> := {'`'}

  /** `re.sub(r"^`+|`+$", "", answer).strip()` on the stripped reply: one leading and one trailing run of backticks removed. */
  function CleanAnswer(raw: string): string
  {
    Strip(RStrip(LStrip(Strip(raw), Backtick), Backtick))
  }

  /**
   * `process_request`: the snippets found for the question and subject, at
   * most five of them, the system prompt and the built prompt to the model,
   * and its reply cleaned; the apology when the model raises. A search that
   * raises is not caught.
   */
  function ProcessRequest(agent: AnswerAgent, question: string,
                          search: (string, nat) -> Result<seq<string>, string>,
                          invoke: seq<LlmWrapper.ChatMessage> -> Result<string, string>): Result<string, string>
  {
    match RetrievalAgent.RetrieveDocs(agent.retriever, KnowledgeGraph.RetrievalQuery(agent.subjectName, question), ContextSize, search)
    case Failure(e) => Failure(e)
    case Success(docs) =>
      var prompt := BuildPrompt(agent, question, Context(docs));
      var messages := [LlmWrapper.ChatMessage(LlmWrapper.SystemKind, SystemPrompt(agent.subjectName)),
                       LlmWrapper.ChatMessage(LlmWrapper.HumanKind, prompt)];
      match invoke(messages)
      case Failure(_) => Success(Apology)
      case Success(reply) => Success(CleanAnswer(reply))
  }

  // ---------------------------------------------------------------------
  // Properties of the text answer
  // ---------------------------------------------------------------------

  /** `lstrip` keeps a slice of the text that ends where the text ends. */
  lemma LStripSlice(raw: string, a: nat, b: nat, cs: set<char>)
    requires a <= b <= |raw|
    ensures var r := LStrip(raw[a..b], cs); a <= b - |r| && r == raw[b - |r|..b]
  {
    var s := raw[a..b];
    LStripSpec(s, cs);
    var r := LStrip(s, cs);
    assert s[|s| - |r|..] == raw[b - |r|..b];
  }

  /** `rstrip` keeps a slice of the text that starts where the text starts. */
  lemma RStripSlice(raw: string, a: nat, b: nat, cs: set<char>)
    requires a <= b <= |raw|
    ensures var r := RStrip(raw[a..b], cs); a + |r| <= b && r == raw[a..a + |r|]
  {
    var s := raw[a..b];
    RStripSpec(s, cs);
    var r := RStrip(s, cs);
    assert s[..|r|] == raw[a..a + |r|];
  }

  ghost predicate SliceOf(t: string, raw: string)
  {
    exists a, b :: 0 <= a <= b <= |raw| && t == raw[a..b]
  }

  lemma SliceLStrip(t: string, raw: string, cs: set<char>)
    requires SliceOf(t, raw)
    ensures SliceOf(LStrip(t, cs), raw)
  {
    var a, b :| 0 <= a <= b <= |raw| && t == raw[a..b];
    LStripSlice(raw, a, b, cs);
  }

  lemma SliceRStrip(t: string, raw: string, cs: set<char>)
    requires SliceOf(t, raw)
    ensures SliceOf(RStrip(t, cs), raw)
  {
    var a, b :| 0 <= a <= b <= |raw| && t == raw[a..b];
    RStripSlice(raw, a, b, cs);
  }

  /** The cleaned answer is one piece of the model's reply. */
  lemma CleanAnswerIsSlice(raw: string)
    ensures exists a, b :: 0 <= a <= b <= |raw| && CleanAnswer(raw) == raw[a..b]
  {
    assert raw[0..|raw|] == raw;
    var l1 := LStrip(raw, PyWhitespace);
    SliceLStrip(raw, raw, PyWhitespace);
    var s := RStrip(l1, PyWhitespace);
    SliceRStrip(l1, raw, PyWhitespace);
    var l2 := LStrip(s, Backtick);
    SliceLStrip(s, raw, Backtick);
    var r2 := RStrip(l2, Backtick);
    SliceRStrip(l2, raw, Backtick);
    var l3 := LStrip(r2, PyWhitespace);
    SliceLStrip(r2, raw, PyWhitespace);
    SliceRStrip(l3, raw, PyWhitespace);
    assert CleanAnswer(raw) == RStrip(l3, PyWhitespace);
  }

  /**
   * The cleaned answer has no white space at either end, and it is the
   * stripped reply itself when that neither starts nor ends with a backtick.
   */
  lemma CleanAnswerTrimmed(raw: string)
    ensures var c := CleanAnswer(raw); c == [] || (c[0] !in PyWhitespace && c[|c| - 1] !in PyWhitespace)
    ensures var s := Strip(raw); s == [] || (s[0] != '`' && s[|s| - 1] != '`') ==> CleanAnswer(raw) == s
  {
    var s := Strip(raw);
    StripCharsSpec(RStrip(LStrip(s, Backtick), Backtick), PyWhitespace);
    if s == [] || (s[0] != '`' && s[|s| - 1] != '`') {
      assert LStrip(s, Backtick) == s;
      assert RStrip(s, Backtick) == s;
      StripCharsSpec(raw, PyWhitespace);
      StripCharsSpec(s, PyWhitespace);
    }
  }

  /** `lstrip` drops a prefix made of its characters, up to a character it keeps. */
  lemma {:induction false} LStripPrefix(p: string, t: string, cs: set<char>)
    requires forall i :: 0 <= i < |p| ==> p[i] in cs
    requires t == [] || t[0] !in cs
    ensures LStrip(p + t, cs) == t
    decreases |p|
  {
    if p == [] {
      assert p + t == t;
    } else {
      assert (p + t)[0] == p[0];
      assert (p + t)[1..] == p[1..] + t;
      LStripPrefix(p[1..], t, cs);
    }
  }

  /** `rstrip` drops a suffix made of its characters, back to a character it keeps. */
  lemma {:induction false} RStripSuffix(t: string, p: string, cs: set<char>)
    requires forall i :: 0 <= i < |p| ==> p[i] in cs
    requires t == [] || t[|t| - 1] !in cs
    ensures RStrip(t + p, cs) == t
    decreases |p|
  {
    if p == [] {
      assert t + p == t;
    } else {
      var n := |t + p|;
      assert (t + p)[n - 1] == p[|p| - 1];
      assert (t + p)[..n - 1] == t + p[..|p| - 1];
      RStripSuffix(t, p[..|p| - 1], cs);
    }
  }

  /** A reply fenced by three backticks on each side gives its body, stripped. */
  lemma FencedAnswer(body: string)
    requires body != [] && body[0] != '`' && body[|body| - 1] != '`'
    ensures CleanAnswer("```" + body + "```") == Strip(body)
  {
    var raw := "```" + body + "```";
    StripCharsSpec(raw, PyWhitespace);
    assert Strip(raw) == raw;
    assert raw == "```" + (body + "```");
    LStripPrefix("```", body + "```", Backtick);
    RStripSuffix(body, "```", Backtick);
  }

  /** A reply made only of backticks cleans to nothing. */
  lemma OnlyBackticks(raw: string)
    requires forall i :: 0 <= i < |raw| ==> raw[i] == '`'
    ensures CleanAnswer(raw) == []
  {
    if raw != [] {
      StripCharsSpec(raw, PyWhitespace);
      assert Strip(raw) == raw;
      assert raw + [] == raw;
      LStripPrefix(raw, [], Backtick);
    }
  }

  /**
   * The search is asked about "question subject" with `retrieval_k`
   * documents; when it raises, so does the request. Otherwise the model is
   * asked about the question and at most five of the snippets, joined with
   * blank lines; a model that raises gives the apology, and otherwise the
   * answer is the cleaned reply.
   */
  lemma ProcessRequestSpec(agent: AnswerAgent, question: string,
                           search: (string, nat) -> Result<seq<string>, string>,
                           invoke: seq<LlmWrapper.ChatMessage> -> Result<string, string>)
    ensures var found := RetrievalAgent.RetrieveDocs(agent.retriever, question + " " + agent.subjectName, 5, search);
      && (found.Failure? ==> ProcessRequest(agent, question, search, invoke) == Failure(found.error))
      && (found.Success? ==>
            var prompt := BuildPrompt(agent, question, Join("\n\n", FirstSnippets(found.value)));
            var call := invoke([LlmWrapper.ChatMessage(LlmWrapper.SystemKind, SystemPrompt(agent.subjectName)),
                                LlmWrapper.ChatMessage(LlmWrapper.HumanKind, prompt)]);
            && (call.Failure? ==> ProcessRequest(agent, question, search, invoke) == Success(Apology))
            && (call.Success? ==> ProcessRequest(agent, question, search, invoke) == Success(CleanAnswer(call.value))))
    ensures ProcessRequest(agent, question, search, invoke).Failure? ==>
      agent.retriever.hasVectorStore
      && search(question + " " + agent.subjectName, RetrievalAgent.SearchSize(agent.retriever, 5)).Failure?
  {
  }

  // ---------------------------------------------------------------------
  // Questions with an image
  // ---------------------------------------------------------------------

  /** `_extract_text_from_image`: the OCR text stripped, or nothing when OCR raises. */
  function ExtractText(imagePath: string, ocr: string -> Result<string, string>): (t: string)
    ensures ocr(imagePath).Failure? ==> t == ""
    ensures ocr(imagePath).Success? ==> t == Strip(ocr(imagePath).value)
  {
    match ocr(imagePath)
    case Failure(_) => ""
    case Success(text) => Strip(text)
  }

  /** A question followed by the OCR header and at most 1500 characters of the OCR text. */
  function WithOcr(base: string, extracted: string): (q: string)
    ensures IsPrefix(base + OcrHeader, q)
    ensures |q| <= |base| + |OcrHeader| + OcrLimit
    ensures |extracted| <= OcrLimit ==> q == base + OcrHeader + extracted
    ensures IsPrefix(q[|base| + |OcrHeader|..], extracted)
  {
    var q := base + OcrHeader + Take(extracted, OcrLimit);
    assert q[..|base + OcrHeader|] == base + OcrHeader;
    assert q[|base| + |OcrHeader|..] == Take(extracted, OcrLimit);
    q
  }

  /**
   * `process_multimodal_request`. Without an image: the text answer.
   * Without a vision agent: the text answer to the question with the OCR
   * text (an empty question replaced by the default one), or to the bare
   * question when OCR found nothing. Otherwise the vision agent answers the
   * question with the OCR text, stripped; when it raises, the text answer
   * to the OCR text, or to the question when OCR found nothing.
   */
  function ProcessMultimodalRequest(agent: AnswerAgent, textInput: string, imagePath: Option<string>,
                                    ocr: string -> Result<string, string>,
                                    search: (string, nat) -> Result<seq<string>, string>,
                                    invoke: seq<LlmWrapper.ChatMessage> -> Result<string, string>,
                                    describe: (string, string) -> Result<string, string>): Result<string, string>
  {
    if imagePath.None? || imagePath.value == "" then ProcessRequest(agent, textInput, search, invoke)
    else
      var extracted := ExtractText(imagePath.value, ocr);
      if !agent.hasMultimodalAgent then
        if extracted != "" then
          var base := if textInput != "" then textInput else DefaultImagePrompt;
          ProcessRequest(agent, WithOcr(base, extracted), search, invoke)
        else ProcessRequest(agent, textInput, search, invoke)
      else
        var combined := if extracted != "" then WithOcr(textInput, extracted) else textInput;
        match describe(combined, imagePath.value)
        case Success(response) => Success(Strip(response))
        case Failure(_) =>
          if extracted != "" then ProcessRequest(agent, extracted, search, invoke)
          else ProcessRequest(agent, textInput, search, invoke)
  }

  /** Without an image (none, or an empty path) the request is a text question. */
  lemma MultimodalWithoutImage(agent: AnswerAgent, textInput: string, imagePath: Option<string>,
                               ocr: string -> Result<string, string>,
                               search: (string, nat) -> Result<seq<string>, string>,
                               invoke: seq<LlmWrapper.ChatMessage> -> Result<string, string>,
                               describe: (string, string) -> Result<string, string>)
    requires imagePath.None? || imagePath.value == ""
    ensures ProcessMultimodalRequest(agent, textInput, imagePath, ocr, search, invoke, describe)
         == ProcessRequest(agent, textInput, search, invoke)
  {
  }

  /**
   * Without a vision agent the image counts only through its OCR text:
   * appended to the question (or to the default question when there is no
   * text), and the bare question when OCR found nothing.
   */
  lemma MultimodalWithoutVision(agent: AnswerAgent, textInput: string, imagePath: string,
                                ocr: string -> Result<string, string>,
                                search: (string, nat) -> Result<seq<string>, string>,
                                invoke: seq<LlmWrapper.ChatMessage> -> Result<string, string>,
                                describe: (string, string) -> Result<string, string>)
    requires imagePath != "" && !agent.hasMultimodalAgent
    ensures var r := ProcessMultimodalRequest(agent, textInput, Some(imagePath), ocr, search, invoke, describe);
      var extracted := ExtractText(imagePath, ocr);
      && (extracted == "" ==> r == ProcessRequest(agent, textInput, search, invoke))
      && (extracted != "" && textInput == "" ==> r == ProcessRequest(agent, WithOcr(DefaultImagePrompt, extracted), search, invoke))
      && (extracted != "" && textInput != "" ==> r == ProcessRequest(agent, WithOcr(textInput, extracted), search, invoke))
  {
  }

  /**
   * With a vision agent, it gets the question with the OCR text appended
   * and its reply is stripped; when it raises, the OCR text (or, failing
   * that, the question) is answered as text.
   */
  lemma MultimodalWithVision(agent: AnswerAgent, textInput: string, imagePath: string,
                             ocr: string -> Result<string, string>,
                             search: (string, nat) -> Result<seq<string>, string>,
                             invoke: seq<LlmWrapper.ChatMessage> -> Result<string, string>,
                             describe: (string, string) -> Result<string, string>)
    requires imagePath != "" && agent.hasMultimodalAgent
    ensures var r := ProcessMultimodalRequest(agent, textInput, Some(imagePath), ocr, search, invoke, describe);
      var extracted := ExtractText(imagePath, ocr);
      var combined := if extracted != "" then WithOcr(textInput, extracted) else textInput;
      && (describe(combined, imagePath).Success? ==> r == Success(Strip(describe(combined, imagePath).value)))
      && (describe(combined, imagePath).Failure? && extracted != "" ==> r == ProcessRequest(agent, extracted, search, invoke))
      && (describe(combined, imagePath).Failure? && extracted == "" ==> r == ProcessRequest(agent, textInput, search, invoke))
  {
  }

  /**
   * OCR text never reaches the model in full beyond 1500 characters: the
   * question the vision agent gets is the user's text, the header and at
   * most 1500 characters of what OCR read.
   */
  lemma OcrIsTruncated(textInput: string, imagePath: string, ocr: string -> Result<string, string>)
    requires ExtractText(imagePath, ocr) != ""
    ensures var q := WithOcr(textInput, ExtractText(imagePath, ocr));
      |q| <= |textInput| + |OcrHeader| + 1500 && IsPrefix(textInput, q)
  {
    var q := WithOcr(textInput, ExtractText(imagePath, ocr));
    assert q[..|textInput|] == (textInput + OcrHeader)[..|textInput|];
  }
}
