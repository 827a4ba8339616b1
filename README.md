# Sizheng agents: a verified model of the routing, parsing and message code

The repository is a set of Flask teaching assistants built around a hosted
language model, a FAISS index and a vision model. This project models in
Dafny the deterministic code around those services. Every service call
becomes a function-typed parameter, and a call that raises becomes a
`Failure`.

- **The question agents** (modern-history and Xi Jinping Thought apps,
  `jindaishi_agent.py` and `xigai_agent.py`, which are identical):
  - the answer cache, modelled as a class with the two cached strings;
  - the line filter that strips answers and explanations from a generated
    exam (`QuestionAgent`, `ExplanationStripper`, `StripperPatterns`);
  - the clean-up of the filter's output (`NewlineCollapse`);
  - Python's `splitlines` (`PythonLines`).
- **The two web apps** (`app.py` of apps E and C):
  - the `/chat` routing and the response-mode table (`ChatRouting`);
  - topic extraction for the graph agent (`TopicExtraction`);
  - the upload checks and extension guessing (`ImageUpload`);
  - the dialogue-session store (`DialogueSessions`).
- **The Socratic role agent**: how one multimodal dialogue turn updates
  the state (`RoleAgent`).
- **The knowledge-graph agent**: retrieval degradation, context assembly and
  normalising the Mermaid reply (`KnowledgeGraph`).
- **The chat page's script**: the quiz parser `tryParseQuiz` (`QuizParser`)
  and `escapeHTML` (`HtmlEscape`).
- **The model wrapper**: message conversion for the text and vision models,
  multimodal content, reply flattening and the text fallback
  (`LlmWrapper`).
- **The retrieval base agent** (`启真问智项目汇总/shared_utils/base_retrieval_agent.py`,
  lines 59-65 and 79-90): the search size and the snippet loop of
  `_retrieve_docs` (`RetrievalAgent`). Its rows below cite the answer
  agent's call of `_retrieve_docs`, and `apply_mode` for `retrieval_k`.
- **The ideology-and-law answer agent**: the OCR and vision decision tree,
  the retrieval context, the prompt and the answer clean-up (`QaAgent`).

`Strings`, `Subsequences` and `Wrappers` hold the shared text functions
(Python's `strip`, `replace`, `join`, `split`, …), the subsequence relation
and `Option`/`Result`.

Two behaviours of the code deserve a note:

- The explanation stripper is not idempotent: `"解析\n1.解析"` strips to
  `"1.解析"` and that strips to `""`. `StripperExamples.NotIdempotent`
  proves both steps.
- The second app's option-mark search does not do what the first app's
  does, and the model routes each app with its own search. See "Findings".

## Model

| member | source | states |
|---|---|---|
| QuestionAgent.CachedAnswer | B-assistant-to-the-outline-of-modern-chinese-history-main/jindaishi_agent.py:60-63 | the reply to an answer request is never empty: the cached full output, or the fixed "no question yet" message when nothing is cached |
| QuestionAgent.AnswerRequestReadsCache | B-assistant-to-the-outline-of-modern-chinese-history-main/jindaishi_agent.py:60-63 | a request with an answer keyword leaves both cache fields unchanged and returns the cached output or the fixed message |
| QuestionAgent.OtherRequestRegenerates | E-assistant-to-the-introduction-of-xi-jinping-thought-main/xigai_agent.py:56-59 | any other request caches the generated text and its stripped form and returns the stripped form, whose lines are lines of the generated text in order |
| QuestionAgent.AnswersFollowLastExam | B-assistant-to-the-outline-of-modern-chinese-history-main/jindaishi_agent.py:59-67 | after a generating request, an answer request returns exactly the full text that request generated |
| QuestionAgent.NoImageIsPlainRequest | B-assistant-to-the-outline-of-modern-chinese-history-main/jindaishi_agent.py:70-71 | with no image path or no multimodal agent, the multimodal request is the text request, cache included |
| QuestionAgent.MultimodalAnswerFirst | B-assistant-to-the-outline-of-modern-chinese-history-main/jindaishi_agent.py:72-73 | an answer request with an image reads the cache before any vision call and changes nothing |
| QuestionAgent.MultimodalSuccess | E-assistant-to-the-introduction-of-xi-jinping-thought-main/xigai_agent.py:66-72 | a successful vision reply always becomes the cached full output; the stripped form is cached and returned only for an exam request, and the full reply is returned otherwise |
| QuestionAgent.MultimodalFailureFallsBack | B-assistant-to-the-outline-of-modern-chinese-history-main/jindaishi_agent.py:81-82 | a vision call that raises gives the text request's result and cache |
| QuestionAgent.QuestionAgent.constructor | B-assistant-to-the-outline-of-modern-chinese-history-main/jindaishi_agent.py:56-57 | a new agent starts with both cache fields empty |
| QuestionAgent.QuestionAgent.ProcessRequest | B-assistant-to-the-outline-of-modern-chinese-history-main/jindaishi_agent.py:59-67 | the new cache and the reply are those of the request function on the old cache |
| QuestionAgent.QuestionAgent.ProcessMultimodalRequest | E-assistant-to-the-introduction-of-xi-jinping-thought-main/xigai_agent.py:61-74 | the new cache and the reply are those of the multimodal request function on the old cache |
| ExplanationStripper.StripExplanations | B-assistant-to-the-outline-of-modern-chinese-history-main/jindaishi_agent.py:84-126 | the filtering loop computes the filter; its result joins lines kept from the input in their order, has no run of three newlines and neither starts nor ends with a newline |
| ExplanationStripper.UnmarkedLinesKept | B-assistant-to-the-outline-of-modern-chinese-history-main/jindaishi_agent.py:118-122 | outside a block, lines that are not start lines are kept verbatim |
| ExplanationStripper.BlockEndsAtFirstBoundary | B-assistant-to-the-outline-of-modern-chinese-history-main/jindaishi_agent.py:112-117 | inside a block, lines up to the first boundary line are dropped; that line is kept and closes the block even when it is also a start line |
| ExplanationStripper.BlockRunsToEnd | B-assistant-to-the-outline-of-modern-chinese-history-main/jindaishi_agent.py:112-117 | a block with no boundary line after it swallows the rest of the text |
| ExplanationStripper.FilterIsSubsequence | E-assistant-to-the-introduction-of-xi-jinping-thought-main/xigai_agent.py:103-114 | the kept lines are a subsequence of the input lines, for either starting state |
| ExplanationStripper.StripOnlyDropsLines | B-assistant-to-the-outline-of-modern-chinese-history-main/jindaishi_agent.py:86-126 | the result is the "\n"-join of the kept non-blank-run lines, which are a subsequence of `splitlines()`, and splitting a non-empty result on "\n" gives them back |
| ExplanationStripper.StripShape | E-assistant-to-the-introduction-of-xi-jinping-thought-main/xigai_agent.py:116-118 | the result contains no "\n\n\n" and has no newline at either end |
| ExplanationStripper.NothingToStrip | B-assistant-to-the-outline-of-modern-chinese-history-main/jindaishi_agent.py:118-125 | a text with no start line only has its newline runs collapsed and its outer newlines trimmed |
| ExplanationStripper.KeptLinesFacts | B-assistant-to-the-outline-of-modern-chinese-history-main/jindaishi_agent.py:111-122 | the filtered lines are input lines in order and contain no newline |
| StripperExamples.BareAnswerIsNotStart | B-assistant-to-the-outline-of-modern-chinese-history-main/jindaishi_agent.py:89-94 | a bare `答案：A` line is not a start line under the three anchored patterns and the inline pattern |
| StripperExamples.OptionMentioningExplanationIsStart | B-assistant-to-the-outline-of-modern-chinese-history-main/jindaishi_agent.py:94 | an option line that mentions 解析 is a start line |
| StripperExamples.NumberedExplanationLine | B-assistant-to-the-outline-of-modern-chinese-history-main/jindaishi_agent.py:90-98 | `1.解析` is both a boundary line and a start line |
| StripperExamples.NotIdempotent | B-assistant-to-the-outline-of-modern-chinese-history-main/jindaishi_agent.py:111-126 | stripping `"解析\n1.解析"` gives `"1.解析"`, and stripping that again gives `""` |
| NewlineCollapse.CollapseIsSqueeze | B-assistant-to-the-outline-of-modern-chinese-history-main/jindaishi_agent.py:125 | replacing every run of three or more newlines by two equals a streaming pass that drops a newline after two in a row |
| NewlineCollapse.NormalizeShape | B-assistant-to-the-outline-of-modern-chinese-history-main/jindaishi_agent.py:125 | after the collapse and `strip("\n")` the text has no "\n\n\n" and no newline at either end |
| NewlineCollapse.NormalizeJoin | B-assistant-to-the-outline-of-modern-chinese-history-main/jindaishi_agent.py:124-125 | collapsing the "\n"-join of lines is the join of those lines with leading and trailing blank lines dropped and runs of blank lines cut to one |
| NewlineCollapse.NormalizeLinesIsSubsequence | B-assistant-to-the-outline-of-modern-chinese-history-main/jindaishi_agent.py:124-125 | the lines left after the collapse are a subsequence of the lines before it |
| NewlineCollapse.SquashEmptySpec | B-assistant-to-the-outline-of-modern-chinese-history-main/jindaishi_agent.py:125 | no two consecutive lines are blank after the squash |
| PythonLines.SplitLinesAreLines | B-assistant-to-the-outline-of-modern-chinese-history-main/jindaishi_agent.py:86 | no piece of `splitlines()` holds a line boundary |
| PythonLines.BreakIndexSpec | B-assistant-to-the-outline-of-modern-chinese-history-main/jindaishi_agent.py:86 | the piece before the boundary found holds no boundary, and a boundary is at that index unless the text ends there |
| ChatRouting.ModeTableSpec | E-assistant-to-the-introduction-of-xi-jinping-thought-main/app.py:318-343 | fast asks for less than the default in every parameter and detailed for more; the mode is read case-insensitively, a missing mode is the default (1000, 30, 5), and only the three triples occur |
| ChatRouting.RoutePriority | E-assistant-to-the-introduction-of-xi-jinping-thought-main/app.py:347-397 | a graph keyword always routes to the graph agent; otherwise an answer keyword or option mark routes to answering; otherwise an exam keyword routes to exam generation, and the rest is answered (each as an if-and-only-if) |
| ChatRouting.ChatStatus | E-assistant-to-the-introduction-of-xi-jinping-thought-main/app.py:320-407 | 400 exactly when there is neither text nor image or the image cannot be saved; otherwise always a response, and a saved image is removed afterwards |
| ChatRouting.GraphRequestWithImage | C-assistant-to-ideology-and-rule-of-law-main/app.py:164-173 | a graph request with an image never reaches the graph agent: the fixed notice, or the not-loaded message |
| ChatRouting.RaisedErrorsAreReplies | C-assistant-to-ideology-and-rule-of-law-main/app.py:219-221 | an agent that raises gives a response carrying the prefixed error message |
| ChatRouting.ExamWithoutImage | C-assistant-to-ideology-and-rule-of-law-main/app.py:200-201 | without an image the second app still calls the multimodal entry of the exam agent, while the first app makes the text request |
| ChatRouting.OptionMarkDetected | E-assistant-to-the-introduction-of-xi-jinping-thought-main/app.py:361 | an option letter A–D or Ａ–Ｄ followed by `.`, `．` or `、` anywhere in the message is detected |
| ChatRouting.OptionMarkAsWrittenIsNarrower | C-assistant-to-ideology-and-rule-of-law-main/app.py:179 | every message the second app's search matches is matched by the first app's search |
| ChatRouting.ChatOptionMarkByApp | C-assistant-to-ideology-and-rule-of-law-main/app.py:176-201 | through the whole handler, `"选择题 A."` reaches the answering agent in the first app and the exam agent in the second, each with the mode's parameters |
| ChatRouting.OptionMarkDiscrepancy | C-assistant-to-ideology-and-rule-of-law-main/app.py:179-196 | `"选择题 A."` is an answering request with the intended search and an exam request with the search as written |
| TopicExtraction.ExtractTopic | E-assistant-to-the-introduction-of-xi-jinping-thought-main/app.py:76-84 | the keyword-deleting loop computes the topic function |
| TopicExtraction.RemoveKeywordsSpec | C-assistant-to-ideology-and-rule-of-law-main/app.py:21-23 | deleting the keywords in list order leaves a subsequence of the input with none of the single-character keywords left |
| TopicExtraction.CleanedTopicSpec | C-assistant-to-ideology-and-rule-of-law-main/app.py:21-24 | after the trims the topic is still a subsequence of the input and holds none of 画, 请, ：, : |
| TopicExtraction.TopicOfSpec | E-assistant-to-the-introduction-of-xi-jinping-thought-main/app.py:80-84 | the topic is never longer than the input, empty only for an empty input, and either the input itself or a cleaned piece with no leading punctuation and no trailing white space |
| TopicExtraction.DeleteIsSubsequence | E-assistant-to-the-introduction-of-xi-jinping-thought-main/app.py:82 | `replace(kw, "")` only deletes characters |
| ImageUpload.AllowedFileByExtension | C-assistant-to-ideology-and-rule-of-law-main/app.py:36-40 | a name is allowed exactly when the text after its last dot, lower-cased, is one of the six extensions; a name without a dot never is |
| ImageUpload.GuessExtSpec | E-assistant-to-the-introduction-of-xi-jinping-thought-main/app.py:126-133 | a format the table knows (in any ASCII case) gives exactly its table entry; otherwise a MIME type with a `/` gives its subtype after the last `/`, lower-cased, with `jpeg` written `jpg`; with neither it is "jpg"; the extension is never "jpeg" and has no slash and no ASCII capital |
| ImageUpload.Payload | E-assistant-to-the-introduction-of-xi-jinping-thought-main/app.py:104-114 | a data URI is split at its first comma into the header's MIME type and the payload, and is an error without a comma; any other text is the payload itself, with no MIME type |
| ImageUpload.SavedImagesAreWithinLimits | E-assistant-to-the-introduction-of-xi-jinping-thought-main/app.py:104-140 | an image is saved only when its payload decodes, the image library accepts the bytes, they are at most 16 MiB and both sides at most 4096; the file written holds those bytes with the extension guessed from the MIME type and the format |
| ImageUpload.ImagesWithinLimitsAreWritten | E-assistant-to-the-introduction-of-xi-jinping-thought-main/app.py:115-140 | conversely, a payload that decodes to an accepted image within the limits is written, and the handler returns what the write returns |
| ImageUpload.OversizeRefused | C-assistant-to-ideology-and-rule-of-law-main/app.py:56-66 | a payload, of a data URI or of plain base64, that decodes to more than 16 MiB or to an image with a side over 4096 is refused |
| ImageUpload.DataUriMime | E-assistant-to-the-introduction-of-xi-jinping-thought-main/app.py:107-112 | the MIME type of a data URI header is the text between `data:` and the first `;` |
| ImageUpload.SplitFirst | E-assistant-to-the-introduction-of-xi-jinping-thought-main/app.py:108 | `split(',', 1)` fails exactly when there is no comma, and otherwise splits at the first one |
| DialogueSessions.SessionStore.StartDialogue | E-assistant-to-the-introduction-of-xi-jinping-thought-main/app.py:187-241 | a session is stored under the new id only for a turn without error status; every refusal (no agent, no input, unsaved image, error turn) leaves the store as it was |
| DialogueSessions.SessionStore.ContinueDialogue | E-assistant-to-the-introduction-of-xi-jinping-thought-main/app.py:244-300 | a missing or unknown id is refused with 400 before the message is checked; only that session's entry can change, and only to the state of a successful turn |
| DialogueSessions.SessionStore.EndDialogue | E-assistant-to-the-introduction-of-xi-jinping-thought-main/app.py:303-310 | a present session is removed and acknowledged; otherwise the not-found notice, and the store is unchanged |
| RoleAgent.SocratesAgent.ProcessMultimodalDialogue | D-assistant-to-the-introduction-of-mao-zedong-thought-main/role_agent.py:42-70 | without an image or vision agent, the text turn; a first turn gets a fresh state 毛泽东 / 毛泽东思想 / turn 1 with exactly this exchange; a later turn keeps character and topic, advances the counter and appends user then assistant to the caller's own history list; a failure gives the text turn on the caller's unchanged state |
| RoleAgent.History.Extend | D-assistant-to-the-introduction-of-mao-zedong-thought-main/role_agent.py:64-67 | `extend` appends the entries at the end of the list |
| RoleAgent.NextTurnCount | D-assistant-to-the-introduction-of-mao-zedong-thought-main/role_agent.py:63 | the new turn count is the old one plus one, with a missing one taken as 0 |
| RoleAgent.TurnMessages | D-assistant-to-the-introduction-of-mao-zedong-thought-main/role_agent.py:57-58 | one turn adds a user entry with the input, then an assistant entry with the reply |
| KnowledgeGraph.NewKgAgent | shared_utils/base_kg_agent.py:30-45 | construction fails exactly when the API key is missing; a vector store that does not load is recorded as absent instead of failing |
| KnowledgeGraph.RetrievalQuery | shared_utils/base_kg_agent.py:70 | the query starts with the topic (in the answer agent, the question) and ends with the subject, with one character between them |
| KnowledgeGraph.RetrieveDocs | shared_utils/base_kg_agent.py:69-78 | no store or a failed search gives no snippets; otherwise the search's snippets |
| KnowledgeGraph.FindBlock | shared_utils/base_kg_agent.py:93 | a block found starts at the first "```mermaid" and ends at the first "```" after it; no block means no "```" follows any "```mermaid" |
| KnowledgeGraph.FormatShape | shared_utils/base_kg_agent.py:91-103 | the output starts with "```mermaid\n", has "\n```" right after the code, and ends with that fence or with "\n\n" and the summary exactly when there is a summary |
| KnowledgeGraph.BlockCase | shared_utils/base_kg_agent.py:93-96 | with a fenced block, the code is its stripped body and the summary the stripped text after it; the text before it is discarded |
| KnowledgeGraph.NoBlockCase | shared_utils/base_kg_agent.py:97-99 | without a block, every "```mermaid" and then every "```" is removed and the summary is empty |
| KnowledgeGraph.SummaryIsStripped | shared_utils/base_kg_agent.py:96-103 | the summary has no trailing white space, so the final `strip` changes nothing |
| KnowledgeGraph.BuildKnowledgeGraph | shared_utils/base_kg_agent.py:105-109 | the model is asked about the topic with the retrieved snippets joined by blank lines; a model that raises makes the graph fail with its error, and otherwise the reply is the normalised one, which starts with the mermaid fence |
| KnowledgeGraph.NoStoreMeansNoContext | shared_utils/base_kg_agent.py:69-78 | without a vector store, or when the search raises, the model is asked with an empty context |
| RetrievalAgent.SetRetrievalK | C-assistant-to-ideology-and-rule-of-law-main/app.py:151-160 | only a positive `retrieval_k` replaces the old one, nothing else changes, and a positive `retrieval_k` stays positive |
| RetrievalAgent.SearchSize | C-assistant-to-ideology-and-rule-of-law-main/sixiangdaodefazhi_qa_agent.py:97 | the search asks for `retrieval_k` documents, and for the caller's `k` only when `retrieval_k` is zero |
| RetrievalAgent.Snippets | C-assistant-to-ideology-and-rule-of-law-main/sixiangdaodefazhi_qa_agent.py:97 | the snippets are stripped and non-empty, each comes from a document, none repeats, every document with content is represented, and there are no more snippets than documents |
| RetrievalAgent.CollectSnippets | C-assistant-to-ideology-and-rule-of-law-main/sixiangdaodefazhi_qa_agent.py:97 | the loop with its `seen` set keeps exactly the snippets `Snippets` describes |
| RetrievalAgent.RetrieveDocs | C-assistant-to-ideology-and-rule-of-law-main/sixiangdaodefazhi_qa_agent.py:97 | no vector store gives no snippets; a search that raises makes retrieval fail with its error; otherwise the snippets of the documents found |
| RetrievalAgent.RepeatsCollapse | C-assistant-to-ideology-and-rule-of-law-main/sixiangdaodefazhi_qa_agent.py:97 | a document repeated, or repeated with other surrounding white space, gives a single snippet |
| RetrievalAgent.SnippetsAreFirstOccurrences | C-assistant-to-ideology-and-rule-of-law-main/sixiangdaodefazhi_qa_agent.py:97 | the snippets are, in order, the stripped contents of exactly those documents that are the first, in search rank, with a non-empty text of their own |
| RetrievalAgent.FirstOccurrenceOrder | C-assistant-to-ideology-and-rule-of-law-main/sixiangdaodefazhi_qa_agent.py:97 | a repeat keeps its first place: `["a", "b", "a"]` gives `["a", "b"]` |
| QuizParser.TryParseQuiz | B-assistant-to-the-outline-of-modern-chinese-history-main/static/script.js:152-205 | the parsing loops compute the quiz function |
| QuizParser.QuizSpec | B-assistant-to-the-outline-of-modern-chinese-history-main/static/script.js:153-202 | null exactly when no indicator occurs or no non-blank line remains; otherwise one question per chunk, the chunks cut the trimmed lines at the title lines in order, and there is one chunk when there is no title line |
| QuizParser.ChunkTitle | B-assistant-to-the-outline-of-modern-chinese-history-main/static/script.js:168 | a question's title is its chunk's first line with all white space removed |
| QuizParser.ChunkFields | B-assistant-to-the-outline-of-modern-chinese-history-main/static/script.js:177-201 | the options are the chunk's option lines in order, the answer is the last answer line's text, the stem is the last stem label or else the first plain line after the first, and the explanation is the last one a walk over the lines leaves, each explanation line with its continuation lines up to the next break line |
| QuizParser.SwallowedExplanationLabel | B-assistant-to-the-outline-of-modern-chinese-history-main/static/script.js:190-198 | an explanation line right after another is no break line and is taken into the first explanation with its label: the chunk "题目1", "解析：甲", "解析：乙" has the explanation "甲\n解析：乙" |
| QuizParser.FormatOption | B-assistant-to-the-outline-of-modern-chinese-history-main/static/script.js:183-186 | an option becomes "X. text" with a full-width letter mapped to its ASCII letter |
| QuizParser.TakeExplanation | B-assistant-to-the-outline-of-modern-chinese-history-main/static/script.js:190-198 | an explanation absorbs the following lines up to the next stem, option, answer or title line |
| QuizParser.ParseLine | B-assistant-to-the-outline-of-modern-chinese-history-main/static/script.js:178-199 | one step of the line loop is one step of the parse function |
| QuizParser.ParseChunk | B-assistant-to-the-outline-of-modern-chinese-history-main/static/script.js:166-202 | the chunk loop computes the question function of the chunk |
| QuizParser.TitleIndices | B-assistant-to-the-outline-of-modern-chinese-history-main/static/script.js:158-159 | the loop collects the indices of the title lines, which are in range and strictly increasing |
| QuizParser.ParseChunks | B-assistant-to-the-outline-of-modern-chinese-history-main/static/script.js:162-203 | the outer loop gives one question per chunk, in order |
| QuizParser.HasIndicatorSpec | B-assistant-to-the-outline-of-modern-chinese-history-main/static/script.js:153-154 | the indicator test succeeds exactly when one of the indicator patterns matches at some position |
| QuizParser.ContinuationEndSpec | B-assistant-to-the-outline-of-modern-chinese-history-main/static/script.js:192-196 | the continuation stops at the first break line, or at the chunk's end |
| HtmlEscape.EscapeHtmlSpec | B-assistant-to-the-outline-of-modern-chinese-history-main/static/script.js:241-248 | the output holds no `<`, `>`, `"` or `'`; because `&` goes first, reading the entities back gives the input, so nothing is escaped twice; a text without the five characters is unchanged |
| HtmlEscape.EscapeIsPerCharacter | B-assistant-to-the-outline-of-modern-chinese-history-main/static/script.js:242-247 | the chain of five replacements equals replacing each character by its entity independently |
| LlmWrapper.ConvertTextMessages | shared_utils/llm_wrapper.py:46-53 | the conversion loop computes the text conversion |
| LlmWrapper.TextMessages | shared_utils/llm_wrapper.py:46-53 | every converted message has one of the three roles and plain content, and there are no more of them than messages |
| LlmWrapper.TextMessagesOne | shared_utils/llm_wrapper.py:48-53 | system becomes "system", human "user" and AI "assistant"; any other kind is dropped |
| LlmWrapper.TextMessagesConcat | shared_utils/llm_wrapper.py:46-53 | the conversion works message by message, so order is kept |
| LlmWrapper.TextMessagesKeepAll | shared_utils/llm_wrapper.py:46-53 | a list with only the three kinds keeps every message at its index with its role and content |
| LlmWrapper.WithOptions | shared_utils/llm_wrapper.py:55-64 | `max_tokens` is present exactly when it is truthy or the caller passes it; caller arguments override the defaults; nothing else is added |
| LlmWrapper.ApiErrorText | shared_utils/llm_wrapper.py:72-76 | the error text starts with the fixed prefix, carries the code (or "unknown") right after it and ends with the message (or "unknown") |
| LlmWrapper.TextCall | shared_utils/llm_wrapper.py:55-76 | a 200 response gives its content; any other response, or none, is a failure carrying the error text |
| LlmWrapper.PrepareContent | shared_utils/llm_wrapper.py:107-150 | a text item comes first exactly when the text is non-empty; no image gives only that; an image item is last and is a data URI; a data URI passes through verbatim; a load failure adds a failure text item instead |
| LlmWrapper.VisionIsTextWithImage | shared_utils/llm_wrapper.py:159-173 | the vision conversion is the text conversion with the image attached to the first user message, or the text conversion without an image |
| LlmWrapper.AttachSpec | shared_utils/llm_wrapper.py:164-171 | only the first user message gets multimodal content; every other message is unchanged |
| LlmWrapper.AttachNoUser | shared_utils/llm_wrapper.py:164-171 | with no user message nothing is attached |
| LlmWrapper.ConvertVisionMessages | shared_utils/llm_wrapper.py:159-173 | the loop with the `image_added` flag computes the vision conversion |
| LlmWrapper.NonEmpty | shared_utils/llm_wrapper.py:201 | exactly the non-empty texts are kept |
| LlmWrapper.NonEmptyConcat | shared_utils/llm_wrapper.py:201 | dropping empty texts works piece by piece, so order is kept |
| LlmWrapper.FlattenReply | shared_utils/llm_wrapper.py:190-201 | the flattening loop computes the " "-join of the non-empty part texts |
| LlmWrapper.EmptyPartsIgnored | shared_utils/llm_wrapper.py:201 | parts with empty text do not change the flattened reply |
| LlmWrapper.FlatTextOfTexts | shared_utils/llm_wrapper.py:192-201 | a reply of non-empty text parts flattens to their " "-join |
| LlmWrapper.TextOnly | shared_utils/llm_wrapper.py:215-222 | the fallback keeps every message and its role and makes its content plain; plain messages are unchanged |
| LlmWrapper.FallbackMessages | shared_utils/llm_wrapper.py:215-222 | the fallback loop computes the text-only messages |
| LlmWrapper.LoadedContentText | shared_utils/llm_wrapper.py:218-219 | the texts of multimodal content whose image loaded join back to the original text |
| LlmWrapper.FallbackIsTextConversion | shared_utils/llm_wrapper.py:159-222 | the fallback messages all have plain content, and equal the text model's conversion when the image loaded or there was none |
| LlmWrapper.VisionCall | shared_utils/llm_wrapper.py:175-242 | a vision reply with status 200 gives its flattened text; otherwise the text model is called with the text-only messages, and its reply comes after the notice or the call fails |
| LlmWrapper.CallWithImageMessages | shared_utils/llm_wrapper.py:260-263 | a system message comes first only when the system prompt is non-empty, followed by exactly one human message with the text |
| LlmWrapper.CallWithImageSends | shared_utils/llm_wrapper.py:254-265 | what `call_with_image` sends: the optional system message, then one user message carrying the text and the image |
| QaAgent.FirstSnippets | C-assistant-to-ideology-and-rule-of-law-main/sixiangdaodefazhi_qa_agent.py:98 | at most five snippets are used, the first ones, and all of them when there are at most five |
| QaAgent.BuildPrompt | C-assistant-to-ideology-and-rule-of-law-main/sixiangdaodefazhi_qa_agent.py:78-94 | the prompt starts with the instructions and the material, and ends with "学生问题：", the question and "\n回答：" |
| QaAgent.ProcessRequestSpec | C-assistant-to-ideology-and-rule-of-law-main/sixiangdaodefazhi_qa_agent.py:96-115 | the search for "question subject" asks for `retrieval_k` documents and, when it raises, the request fails with its error; otherwise the model gets the system prompt and the prompt built on at most five snippets, and a model that raises gives the apology, otherwise the cleaned reply |
| QaAgent.CleanAnswerIsSlice | C-assistant-to-ideology-and-rule-of-law-main/sixiangdaodefazhi_qa_agent.py:110-111 | the cleaned answer is one contiguous piece of the model's reply |
| QaAgent.CleanAnswerTrimmed | C-assistant-to-ideology-and-rule-of-law-main/sixiangdaodefazhi_qa_agent.py:110-111 | the cleaned answer has no white space at either end, and is the stripped reply when that neither starts nor ends with a backtick |
| QaAgent.FencedAnswer | C-assistant-to-ideology-and-rule-of-law-main/sixiangdaodefazhi_qa_agent.py:111 | a reply between two three-backtick fences gives its body, stripped |
| QaAgent.OnlyBackticks | C-assistant-to-ideology-and-rule-of-law-main/sixiangdaodefazhi_qa_agent.py:111 | a reply made only of backticks cleans to nothing |
| QaAgent.ExtractText | C-assistant-to-ideology-and-rule-of-law-main/sixiangdaodefazhi_qa_agent.py:117-137 | the OCR text stripped, or nothing when OCR raises |
| QaAgent.WithOcr | C-assistant-to-ideology-and-rule-of-law-main/sixiangdaodefazhi_qa_agent.py:64-69 | the question and the header come first, followed by a prefix of the OCR text of at most 1500 characters, which is the whole text when it is short enough |
| QaAgent.MultimodalWithoutImage | C-assistant-to-ideology-and-rule-of-law-main/sixiangdaodefazhi_qa_agent.py:58-59 | without an image path the result is exactly the text answer to the input |
| QaAgent.MultimodalWithoutVision | C-assistant-to-ideology-and-rule-of-law-main/sixiangdaodefazhi_qa_agent.py:60-66 | without a vision agent: the text answer to the input with the OCR text (the default question when the input is empty), or to the bare input when OCR found nothing |
| QaAgent.MultimodalWithVision | C-assistant-to-ideology-and-rule-of-law-main/sixiangdaodefazhi_qa_agent.py:67-76 | the vision agent gets the input with the OCR text and its reply is stripped; when it raises, the OCR text is answered as text, or the input when OCR found nothing, and a failing search in that answer fails the request |
| QaAgent.OcrIsTruncated | C-assistant-to-ideology-and-rule-of-law-main/sixiangdaodefazhi_qa_agent.py:67-69 | the question the vision agent gets starts with the input and is at most 1500 characters of OCR text longer than the input and the header |

## Left out

- Remote services (the text and vision models, embeddings, FAISS loading and
  search, OCR, the multimodal agents) are function-typed parameters. Their
  behaviour is not modelled. An exception they raise is a `Failure` value,
  which the model handles where the code catches it and passes on where the
  code lets it propagate (a failed search in the answer agent, a failed
  model call in the graph agent).
- Base64 decoding, PIL decoding and verification, and the image resize in
  `shared_utils/llm_wrapper.py:125-143` are left out. The upload checks take
  the decoding and the image library's report as parameters. Image loading in the vision
  wrapper is a parameter that yields the MIME type and the encoded data, or
  an error text.
- Temporary files are not modelled beyond which saved path is deleted after
  a `/chat` reply. UUID generation is a parameter of `StartDialogue`.
- Inherited logic that is not shown is a parameter: `BaseAgent.process_request`
  (including its topic, count and difficulty parser) and
  `BaseDialogueAgent.process_dialogue`.
- RetrievalAgent: the construction of `BaseRetrievalAgent` (API key check,
  model set-up, vector store loading) is reduced to the `Retriever` fields.
- The wording of the prompts is a constant. Only the end of the answer
  agent's prompt and the order of its parts are reasoned about. The graph
  agent's prompt template is not part of this model.
- Flask request parsing and JSON are reduced to `Option` inputs and reply
  datatypes. The portal that mounts the apps, the database generation
  scripts and the page scripts other than `tryParseQuiz` and `escapeHTML`
  (including `renderQuizCards`) are not part of this model.
- Concurrency: the session map and the answer cache are process globals that
  the apps share between requests without locks. The model runs requests one
  at a time.
- The generation parameters (`set_generation_params`) are modelled as the
  triple each mode selects. The effect of the parameters on the agents is not
  modelled.
- LlmWrapper.TextCall: the response's content is taken to be a string. The
  text model's `choices[0]["message"]["content"]` is not inspected further.
- LlmWrapper.FlattenReply: the `try`/`except` that falls back to `str()` of
  the whole list is not modelled, and a non-text part's `str()` is given as
  a text of its own.
- Python's `\s`, `strip()` and `\d` are modelled by explicit character sets:
  the Unicode white space Python uses, and ASCII plus full-width digits for
  `\d`. Python's `\d` on text matches every Unicode decimal digit, so a
  question-agent pattern with `\d` (`jindaishi_agent.py:96-98`,
  `xigai_agent.py:88-90`) matches lines with digits such as `٣` or `३` that
  the model's `DecimalDigits` does not. `lower()` and `upper()` are modelled on ASCII letters only; Python
  also maps other letters (full-width `Ｔ` to `ｔ`, dotless `ı` to `I`).
  For `allowed_file` this changes nothing, since no other letter lowers to a
  single ASCII letter of an allowed extension. Case-insensitive matching of
  "answer" and "explanation" folds ASCII and the few non-ASCII characters
  that Python folds onto them.
- ImageUpload.GuessExt: the case mapping covers ASCII letters only. A MIME
  subtype with other letters keeps them as they are (`image/ＴＩＦＦ` gives
  `.ＴＩＦＦ` where Python gives `.ｔｉｆｆ`), and a format name such as `gıf`
  is not found in the table although Python's `upper()` makes it `GIF`. So
  `GuessExtSpec`'s "no capital letter" covers ASCII capitals only.
- The vision agents' `process_multimodal_request` catches every exception
  and returns an apology text instead. So the branches where the vision
  call fails are unreachable in the code:
  - `QaAgent.ProcessMultimodalRequest`'s text fallback;
  - `RoleAgent.SocratesAgent.ProcessMultimodalDialogue`'s text-turn fallback;
  - the question agents' fallback.

  The model keeps these branches as the callers' `except` clauses write them.
- QaAgent: the generation arguments of the language model call are not
  modelled.

## Findings

| source | as written | input that shows it | evidently intended | confidence | as-written member | corrected member |
|---|---|---|---|---|---|---|
| C-assistant-to-ideology-and-rule-of-law-main/app.py:179 | `r"[A-DＡ-Ｄ][\.．、]\\s?"`: in a raw string `\\` is a literal backslash, so an option mark is detected only when a backslash follows it | `"选择题 A."` routes to exam generation instead of answering | the first app's `r"[A-DＡ-Ｄ][\.．、]\s?"`: an option letter and a mark, with optional white space | not executed | ChatRouting.OptionMarkDiscrepancy | ChatRouting.OptionMarkDetected |

The second app is routed with its search as written (`ChatRouting.ChatOptionMarkByApp`); the corrected search is the one the first app uses.
