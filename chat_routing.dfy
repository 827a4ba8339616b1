/**
 * The `/chat` handlers of the two web apps that route a message to the
 * knowledge-graph, answering or exam-generation agent, and the response-mode
 * table every handler applies to the agent it calls.
 *
 * The agents are not called here: the handler's decision is an
 * `AgentCall`, and running it is a parameter that may raise.
 */
module ChatRouting {
  import opened Wrappers
  import opened Strings

  // ---------------------------------------------------------------------
  // Response mode
  // ---------------------------------------------------------------------

  /** The arguments of `set_generation_params`. */
  datatype GenerationParams = GenerationParams(maxTokens: nat, timeout: nat, retrievalK: nat)

  /** `(data.get("response_mode") or "balanced").lower()`. */
  function ModeName(responseMode: Option<string>): string
  {
    LowerAscii(if responseMode.None? || responseMode.value == "" then "balanced" else responseMode.value)
  }

  /** `apply_mode`: fast, detailed, and everything else. */
  function ModeParams(mode: string): GenerationParams
  {
    if mode == "fast" then GenerationParams(400, 15, 3)
    else if mode == "detailed" then GenerationParams(1600, 45, 7)
    else GenerationParams(1000, 30, 5)
  }

  predicate Below(a: GenerationParams, b: GenerationParams)
  {
    a.maxTokens < b.maxTokens && a.timeout < b.timeout && a.retrievalK < b.retrievalK
  }

  /**
   * Fast asks for less than the default in every parameter and detailed
   * for more; the mode is read case-insensitively and a missing one is the
   * default.
   */
  lemma ModeTableSpec(responseMode: Option<string>)
    ensures Below(ModeParams("fast"), ModeParams("balanced")) && Below(ModeParams("balanced"), ModeParams("detailed"))
    ensures ModeName(Some("FAST")) == "fast" && ModeName(Some("Detailed")) == "detailed"
    ensures responseMode.None? ==> ModeParams(ModeName(responseMode)) == GenerationParams(1000, 30, 5)
    ensures var p := ModeParams(ModeName(responseMode));
      p == GenerationParams(400, 15, 3) || p == GenerationParams(1000, 30, 5) || p == GenerationParams(1600, 45, 7)
  {
    assert LowerAscii("FAST") == "fast";
    assert LowerAscii("Detailed") == "detailed";
    assert LowerAscii("balanced") == "balanced";
  }

  // ---------------------------------------------------------------------
  // Routing
  // ---------------------------------------------------------------------

  const GraphKeywords: seq<string> := ["知识图谱", "思维导图", "mindmap", "图谱"]
  const AnswerKeywords: seq<string> := ["解答", "答案", "解析", "请回答", "帮我回答", "帮我解答"]
  const ExamKeywords: seq<string> := ["出题", "生成题目", "选择题", "判断题", "简答题", "试题", "练习"]

  const OptionLetters: set<char> := {'A', 'B', 'C', 'D', 'Ａ', 'Ｂ', 'Ｃ', 'Ｄ'}
  const OptionMarks: set<char> := {'.', '．', '、'}

  /** `re.search(r"[A-DＡ-Ｄ][\.．、]\s?", m)`: an option letter followed by a dot or a comma mark. */
  predicate HasOptionMark(m: string)
  {
    exists k | 0 <= k < |m| - 1 :: m[k] in OptionLetters && m[k + 1] in OptionMarks
  }

  /**
   * The same search as written in the second app, `r"[A-DＡ-Ｄ][\.．、]\\s?"`:
   * in a raw string `\\` is a backslash the text must contain, so the mark
   * must be followed by `\`.
   */
  predicate HasOptionMarkAsWritten(m: string)
  {
    exists k | 0 <= k < |m| - 2 :: m[k] in OptionLetters && m[k + 1] in OptionMarks && m[k + 2] == '\\'
  }

  datatype Route = KnowledgeGraph | Answering | ExamGeneration | DefaultAnswering

  /** The keyword priority of `/chat`, for an option-mark detector. */
  function RouteOf(m: string, hasOptionMark: string -> bool): Route
  {
    if ContainsAny(m, GraphKeywords) then KnowledgeGraph
    else if ContainsAny(m, AnswerKeywords) || hasOptionMark(m) then Answering
    else if ContainsAny(m, ExamKeywords) then ExamGeneration
    else DefaultAnswering
  }

  /**
   * Graph keywords win over everything; then answer keywords and option
   * marks; then exam keywords; the rest is answered by default.
   */
  lemma RoutePriority(m: string, hasOptionMark: string -> bool)
    ensures RouteOf(m, hasOptionMark) == KnowledgeGraph <==> ContainsAny(m, GraphKeywords)
    ensures RouteOf(m, hasOptionMark) == Answering
      <==> !ContainsAny(m, GraphKeywords) && (ContainsAny(m, AnswerKeywords) || hasOptionMark(m))
    ensures RouteOf(m, hasOptionMark) == ExamGeneration
      <==> !ContainsAny(m, GraphKeywords) && !ContainsAny(m, AnswerKeywords) && !hasOptionMark(m) && ContainsAny(m, ExamKeywords)
  {
  }

  /** Any option letter written with a dot or a comma mark, anywhere in the text, is detected. */
  lemma OptionMarkDetected(before: string, letter: char, mark: char, after: string)
    requires letter in OptionLetters && mark in OptionMarks
    ensures HasOptionMark(before + [letter, mark] + after)
  {
    var m := before + [letter, mark] + after;
    assert m[|before|] == letter && m[|before| + 1] == mark;
  }

  /** Every text with the second app's mark also has the first app's, not the other way round. */
  lemma OptionMarkAsWrittenIsNarrower(m: string)
    ensures HasOptionMarkAsWritten(m) ==> HasOptionMark(m)
  {
    if HasOptionMarkAsWritten(m) {
      var k :| 0 <= k < |m| - 2 && m[k] in OptionLetters && m[k + 1] in OptionMarks && m[k + 2] == '\\';
      assert 0 <= k < |m| - 1 && m[k] in OptionLetters && m[k + 1] in OptionMarks;
    }
  }

  // ---------------------------------------------------------------------
  // The handler
  // ---------------------------------------------------------------------

  /** Which agents loaded, and which of them offer `process_multimodal_request`. */
  datatype Agents = Agents(kgLoaded: bool, qaLoaded: bool, qaMultimodal: bool, questionLoaded: bool, questionMultimodal: bool)

  /** The agent call a request is dispatched to. */
  datatype AgentCall =
    | KgRequest(text: string)
    | QaRequest(text: string)
    | QaMultimodalRequest(text: string, imagePath: string)
    | QuestionRequest(text: string)
    | QuestionMultimodalRequest(text: string, maybeImage: Option<string>)

  /** A fixed reply, or an agent call after `apply_mode`. */
  datatype Dispatch = Fixed(text: string) | Call(call: AgentCall, params: GenerationParams)

  /** The JSON reply: `{"error": …}` with a status, or `{"response": …}` with 200. */
  datatype Reply = ErrorReply(status: nat, error: string) | ResponseReply(response: string)

  /** A reply and the temporary image file deleted after it, if one was saved. */
  datatype ChatOutcome = ChatOutcome(reply: Reply, removedFile: Option<string>)

  const NoInputError := "请输入文本或上传图片"
  const ImageError := "图片处理失败"
  const ImageOnlyPrompt := "请结合图片进行分析并回答问题。"
  const KgImageNotice := "知识图谱生成功能暂时不支持图片输入，请使用纯文本描述您需要的知识图谱主题。"
  const KgMissing := "知识图谱助手未成功加载，无法处理您的请求。"
  const QaMissing := "问答助手未成功加载，无法处理您的请求。"
  const QuestionMissing := "出题助手未成功加载，无法处理您的请求。"
  const QuestionImageNotice := "当前版本暂时不支持图片分析，请使用纯文本提问。"
  const InternalErrorPrefix := "处理您的请求时发生内部错误: "

  /** Which of the two apps: they differ in the option-mark search and in the exam branch. */
  datatype App = XiJinpingThoughtApp | IdeologyAndLawApp

  /** The answering agent's call: multimodal only with an image and the method. */
  function QaDispatch(m: string, imagePath: Option<string>, agents: Agents, params: GenerationParams): Dispatch
  {
    if !agents.qaLoaded then Fixed(QaMissing)
    else if imagePath.Some? && agents.qaMultimodal then Call(QaMultimodalRequest(m, imagePath.value), params)
    else Call(QaRequest(m), params)
  }

  /**
   * The exam agent's call. The first app asks for multimodal handling only
   * with an image; the second whenever the agent has the method.
   */
  function QuestionDispatch(app: App, m: string, imagePath: Option<string>, agents: Agents, params: GenerationParams): Dispatch
  {
    if !agents.questionLoaded then Fixed(QuestionMissing)
    else if agents.questionMultimodal && (app == IdeologyAndLawApp || imagePath.Some?) then
      Call(QuestionMultimodalRequest(m, imagePath), params)
    else if imagePath.Some? then Fixed(QuestionImageNotice)
    else Call(QuestionRequest(m), params)
  }

  /**
   * Each app's option-mark search: the first app's finds a plain `A.`, the
   * second app's, as written, only a mark followed by a backslash.
   */
  function OptionMarkSearch(app: App): string -> bool
  {
    if app == IdeologyAndLawApp then HasOptionMarkAsWritten else HasOptionMark
  }

  /**
   * The branch of `/chat` a non-empty message and an optional saved image
   * take, with the app's own option-mark search.
   */
  function DispatchOf(app: App, m: string, imagePath: Option<string>, agents: Agents, params: GenerationParams): Dispatch
  {
    match RouteOf(m, OptionMarkSearch(app))
    case KnowledgeGraph =>
      if !agents.kgLoaded then Fixed(KgMissing)
      else if imagePath.Some? then Fixed(KgImageNotice)
      else Call(KgRequest(m), params)
    case Answering => QaDispatch(m, imagePath, agents, params)
    case ExamGeneration => QuestionDispatch(app, m, imagePath, agents, params)
    case DefaultAnswering => QaDispatch(m, imagePath, agents, params)
  }

  /** The reply text once the dispatch has run; a raised exception becomes a message. */
  function ResponseText(d: Dispatch, run: AgentCall -> Result<string, string>): string
  {
    match d
    case Fixed(text) => text
    case Call(call, _) =>
      match run(call)
      case Success(text) => text
      case Failure(e) => InternalErrorPrefix + e
  }

  /** `/chat`. */
  function Chat(app: App, message: Option<string>, imageData: Option<string>, responseMode: Option<string>, agents: Agents,
                save: string -> Option<string>, run: AgentCall -> Result<string, string>): ChatOutcome
  {
    var m := Strip(message.GetOr(""));
    var hasImage := imageData.Some? && imageData.value != "";
    if m == "" && !hasImage then ChatOutcome(ErrorReply(400, NoInputError), None)
    else
      var saved := if hasImage then save(imageData.value) else None;
      if hasImage && (saved.None? || saved.value == "") then ChatOutcome(ErrorReply(400, ImageError), None)
      else
        var m' := if m == "" then ImageOnlyPrompt else m;
        var d := DispatchOf(app, m', saved, agents, ModeParams(ModeName(responseMode)));
        ChatOutcome(ResponseReply(ResponseText(d, run)), saved)
  }

  // ---------------------------------------------------------------------
  // Properties of the handler
  // ---------------------------------------------------------------------

  /**
   * `/chat` answers 400 exactly when there is neither text nor image, or
   * the image cannot be saved; otherwise it always answers with a
   * response, and the saved image file is deleted afterwards.
   */
  lemma ChatStatus(app: App, message: Option<string>, imageData: Option<string>, responseMode: Option<string>, agents: Agents,
                   save: string -> Option<string>, run: AgentCall -> Result<string, string>)
    ensures var out := Chat(app, message, imageData, responseMode, agents, save, run);
      var m := Strip(message.GetOr(""));
      var hasImage := imageData.Some? && imageData.value != "";
      (out.reply == ErrorReply(400, NoInputError) <==> m == "" && !hasImage)
      && (out.reply == ErrorReply(400, ImageError)
          <==> (m != "" || hasImage) && hasImage && (save(imageData.value).None? || save(imageData.value).value == ""))
      && (out.reply.ResponseReply? <==> (m != "" || hasImage) && (hasImage ==> save(imageData.value).Some? && save(imageData.value).value != ""))
      && (out.reply.ResponseReply? && hasImage ==> out.removedFile == save(imageData.value))
      && (out.reply.ErrorReply? ==> out.removedFile.None?)
  {
  }

  /** A graph request with an image never reaches the graph agent. */
  lemma GraphRequestWithImage(app: App, m: string, imagePath: string, agents: Agents, params: GenerationParams)
    requires ContainsAny(m, GraphKeywords)
    ensures DispatchOf(app, m, Some(imagePath), agents, params) == Fixed(if agents.kgLoaded then KgImageNotice else KgMissing)
  {
  }

  /** An agent that raises turns into a reply carrying the exception's message. */
  lemma RaisedErrorsAreReplies(d: Dispatch, run: AgentCall -> Result<string, string>)
    requires d.Call? && run(d.call).Failure?
    ensures ResponseText(d, run) == InternalErrorPrefix + run(d.call).error
  {
  }

  /**
   * Without an image the second app still sends exam requests to the
   * multimodal entry when the agent has one; the first app never does.
   */
  lemma ExamWithoutImage(m: string, agents: Agents, params: GenerationParams)
    requires agents.questionLoaded && agents.questionMultimodal
    ensures QuestionDispatch(IdeologyAndLawApp, m, None, agents, params) == Call(QuestionMultimodalRequest(m, None), params)
    ensures QuestionDispatch(XiJinpingThoughtApp, m, None, agents, params) == Call(QuestionRequest(m), params)
  {
  }

  /**
   * The option-mark search as written in the second app misses a plain
   * `A.`: "选择题 A." is an answering request for the first app and an
   * exam request for the second.
   */
  lemma OptionMarkDiscrepancy()
    ensures HasOptionMark("选择题 A.") && !HasOptionMarkAsWritten("选择题 A.")
    ensures RouteOf("选择题 A.", HasOptionMark) == Answering
    ensures RouteOf("选择题 A.", HasOptionMarkAsWritten) == ExamGeneration
  {
    var m := "选择题 A.";
    assert m[4] in OptionLetters && m[5] in OptionMarks;
    NoGraphKeyword();
    NoAnswerKeyword();
    assert OccursAt(m, ExamKeywords[2], 0);
  }

  /**
   * Through the whole handler: "选择题 A." reaches the answering agent in
   * the first app and the exam agent in the second.
   */
  lemma ChatOptionMarkByApp(responseMode: Option<string>, agents: Agents,
                            save: string -> Option<string>, run: AgentCall -> Result<string, string>)
    ensures var params := ModeParams(ModeName(responseMode));
      Chat(XiJinpingThoughtApp, Some("选择题 A."), None, responseMode, agents, save, run)
      == ChatOutcome(ResponseReply(ResponseText(QaDispatch("选择题 A.", None, agents, params), run)), None)
    ensures var params := ModeParams(ModeName(responseMode));
      Chat(IdeologyAndLawApp, Some("选择题 A."), None, responseMode, agents, save, run)
      == ChatOutcome(ResponseReply(ResponseText(QuestionDispatch(IdeologyAndLawApp, "选择题 A.", None, agents, params), run)), None)
  {
    var m := "选择题 A.";
    StripCharsSpec(m, PyWhitespace);
    assert Strip(m) == m;
    OptionMarkDiscrepancy();
  }

  lemma NoGraphKeyword()
    ensures !ContainsAny("选择题 A.", GraphKeywords)
  {
    var m := "选择题 A.";
    forall i | 0 <= i < |GraphKeywords| ensures !Contains(m, GraphKeywords[i]) {
      var t := GraphKeywords[i];
      if |t| <= |m| {
        forall k | 0 <= k <= |m| - |t| ensures !OccursAt(m, t, k) {
          assert m[k] != t[0];
        }
      }
    }
  }

  lemma NoAnswerKeyword()
    ensures !ContainsAny("选择题 A.", AnswerKeywords)
  {
    var m := "选择题 A.";
    forall i | 0 <= i < |AnswerKeywords| ensures !Contains(m, AnswerKeywords[i]) {
      var t := AnswerKeywords[i];
      forall k | 0 <= k <= |m| - |t| ensures !OccursAt(m, t, k) {
        assert m[k] != t[0];
      }
    }
  }
}
