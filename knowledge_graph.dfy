/**
 * The shared knowledge-graph agent (`BaseKnowledgeGraphAgent`): retrieval
 * that degrades to no context, the context join, and the normaliser that
 * turns the model's reply into one Mermaid code block and a summary.
 *
 * The vector store search and the language model are parameters that may
 * fail: the agent catches a failed search, not a failed model call.
 */
module KnowledgeGraph {
  import opened Wrappers
  import opened Strings

  const OpenFence := "```mermaid"
  const Fence := "```"
  const MissingKeyError := "Please set the DASHSCOPE_API_KEY environment variable."

  /** The agent's configuration after `__init__`: the subject and whether the vector store loaded. */
  datatype KgAgent = KgAgent(subjectName: string, hasVectorStore: bool)

  /**
   * `__init__`: an `EnvironmentError` without the API key; a vector store
   * that fails to load leaves the agent without one instead of failing.
   */
  function NewKgAgent(subjectName: string, hasApiKey: bool, vectorStoreLoads: bool): (r: Result<KgAgent, string>)
    ensures r.Failure? <==> !hasApiKey
    ensures r.Failure? ==> r.error == MissingKeyError
    ensures r.Success? ==> r.value == KgAgent(subjectName, vectorStoreLoads)
  {
    if !hasApiKey then Failure(MissingKeyError) else Success(KgAgent(subjectName, vectorStoreLoads))
  }

  /**
   * The search query both retrieval steps build: the text (a topic here, a
   * question in the answer agent), a space, the subject.
   */
  function RetrievalQuery(subjectName: string, text: string): (q: string)
    ensures IsPrefix(text, q) && IsSuffix(subjectName, q) && |q| == |text| + 1 + |subjectName|
  {
    text + " " + subjectName
  }

  /**
   * `_retrieve_docs`: the page contents the search returns for the query,
   * and no documents at all without a vector store or when the search raises.
   */
  function RetrieveDocs(agent: KgAgent, topic: string, k: nat, search: (string, nat) -> Result<seq<string>, string>): (docs: seq<string>)
    ensures !agent.hasVectorStore ==> docs == []
    ensures agent.hasVectorStore && search(RetrievalQuery(agent.subjectName, topic), k).Failure? ==> docs == []
    ensures agent.hasVectorStore && search(RetrievalQuery(agent.subjectName, topic), k).Success? ==>
      docs == search(RetrievalQuery(agent.subjectName, topic), k).value
  {
    if !agent.hasVectorStore then []
    else match search(RetrievalQuery(agent.subjectName, topic), k)
      case Failure(_) => []
      case Success(contents) => contents
  }

  // ---------------------------------------------------------------------
  // The Mermaid normaliser
  // ---------------------------------------------------------------------

  /**
   * `re.search(r"```mermaid(.*?)```", s, re.DOTALL)`: the first opening
   * fence, and the first closing fence after it; `None` when there is no
   * such pair.
   */
  function FindBlock(s: string): (r: Option<(nat, nat)>)
    ensures r.Some? ==> var (i, j) := r.value;
      OccursAt(s, OpenFence, i) && i + |OpenFence| <= j && OccursAt(s, Fence, j)
      && (forall k :: 0 <= k < i ==> !OccursAt(s, OpenFence, k))
      && (forall k :: i + |OpenFence| <= k < j ==> !OccursAt(s, Fence, k))
    ensures r.None? ==> forall i, j :: OccursAt(s, OpenFence, i) && i + |OpenFence| <= j ==> !OccursAt(s, Fence, j)
  {
    match FindFrom(s, OpenFence, 0)
    case None => None
    case Some(i) =>
      match FindFrom(s, Fence, i + |OpenFence|)
      case None => None
      case Some(j) => Some((i, j))
  }

  /** The code block's body and the summary, from the stripped reply. */
  function CodeAndSummary(s: string): (string, string)
  {
    match FindBlock(s)
    case Some((i, j)) => (Strip(s[i + |OpenFence|..j]), Strip(s[j + |Fence|..]))
    case None => (ReplaceAll(ReplaceAll(s, OpenFence, ""), Fence, ""), "")
  }

  /** One Mermaid block around `code`, then the summary after a blank line if there is one. */
  function Assemble(code: string, summary: string): string
  {
    OpenFence + "\n" + code + "\n" + Fence + (if summary != "" then "\n\n" + summary else "")
  }

  /** `_format_mermaid_response`. */
  function FormatMermaidResponse(rawOutput: string): string
  {
    var (code, summary) := CodeAndSummary(Strip(rawOutput));
    Strip(Assemble(code, summary))
  }

  /** A summary that comes out of `strip` has no white space at its ends. */
  lemma SummaryIsStripped(s: string)
    ensures var summary := CodeAndSummary(s).1;
      summary == "" || summary[|summary| - 1] !in PyWhitespace
  {
    match FindBlock(s)
    case Some((i, j)) => StripCharsSpec(s[j + |Fence|..], PyWhitespace);
    case None =>
  }

  /** The final `strip` changes nothing: the assembled text starts with a fence and ends with one or with a stripped summary. */
  lemma FinalStripIsIdentity(code: string, summary: string)
    requires summary == "" || summary[|summary| - 1] !in PyWhitespace
    ensures Strip(Assemble(code, summary)) == Assemble(code, summary)
  {
    var a := Assemble(code, summary);
    assert a[0] == '`';
    if summary == "" {
      assert a[|a| - 1] == '`';
    } else {
      assert a[|a| - 1] == summary[|summary| - 1];
    }
    StripCharsSpec(a, PyWhitespace);
  }

  /**
   * The result always opens with a Mermaid fence and closes the block with
   * a fence: it is the block around the code, followed by the summary
   * after a blank line exactly when there is a summary.
   */
  lemma FormatShape(rawOutput: string)
    ensures var (code, summary) := CodeAndSummary(Strip(rawOutput));
      var r := FormatMermaidResponse(rawOutput);
      IsPrefix(OpenFence + "\n", r)
      && OccursAt(r, "\n" + Fence, |OpenFence| + 1 + |code|)
      && (summary == "" ==> IsSuffix("\n" + Fence, r))
      && (summary != "" ==> IsSuffix("\n\n" + summary, r))
  {
    var (code, summary) := CodeAndSummary(Strip(rawOutput));
    SummaryIsStripped(Strip(rawOutput));
    FinalStripIsIdentity(code, summary);
    AssembleShape(code, summary);
  }

  /** The assembled text: the opening fence line, the code, the closing fence, and the summary if any. */
  lemma AssembleShape(code: string, summary: string)
    ensures var r := Assemble(code, summary);
      IsPrefix(OpenFence + "\n", r)
      && OccursAt(r, "\n" + Fence, |OpenFence| + 1 + |code|)
      && (summary == "" ==> IsSuffix("\n" + Fence, r))
      && (summary != "" ==> IsSuffix("\n\n" + summary, r))
  {
    var open := OpenFence + "\n";
    var close := "\n" + Fence;
    var tail := if summary != "" then "\n\n" + summary else "";
    var r := Assemble(code, summary);
    assert r == open + (code + (close + tail));
    assert r[..|open|] == open;
    assert r[|open| + |code|..] == close + tail;
    assert r[|open| + |code|..][..|close|] == close;
  }

  /**
   * With a fenced block in the reply, the block's trimmed body is the code
   * and the trimmed text after it the summary; whatever comes before the
   * block is dropped.
   */
  lemma BlockCase(pre: string, body: string, post: string)
    requires '`' !in pre && '`' !in body
    ensures CodeAndSummary(pre + OpenFence + body + Fence + post) == (Strip(body), Strip(post))
  {
    var s := pre + OpenFence + body + Fence + post;
    var i := |pre|;
    var j := |pre| + |OpenFence| + |body|;
    BlockFound(pre, body, post);
    assert s[i + |OpenFence|..j] == body;
    assert s[j + |Fence|..] == post;
  }

  lemma BlockFound(pre: string, body: string, post: string)
    requires '`' !in pre && '`' !in body
    ensures FindBlock(pre + OpenFence + body + Fence + post) == Some((|pre|, |pre| + |OpenFence| + |body|))
  {
    var front := pre + OpenFence;
    var rest := body + Fence + post;
    ConcatAssoc(front, body + Fence, post);
    ConcatAssoc(front, body, Fence);
    ConcatAssoc(pre, OpenFence, rest);
    ConcatAssoc(body, Fence, post);
    FindBlockAt(pre + OpenFence + body + Fence + post, pre, rest, front, body, post);
  }

  lemma FindBlockAt(s: string, pre: string, rest: string, front: string, body: string, post: string)
    requires '`' !in pre && '`' !in body
    requires s == pre + OpenFence + rest && front == pre + OpenFence && s == front + body + Fence + post
    ensures FindBlock(s) == Some((|pre|, |front| + |body|))
  {
    OpenFenceFirst(pre, rest);
    ClosingFenceFirst(front, body, post);
  }

  lemma OpenFenceFirst(pre: string, rest: string)
    requires '`' !in pre
    ensures FindFrom(pre + OpenFence + rest, OpenFence, 0) == Some(|pre|)
  {
    var s := pre + OpenFence + rest;
    assert s[|pre|..|pre| + |OpenFence|] == OpenFence;
    forall k | 0 <= k < |pre| ensures !OccursAt(s, OpenFence, k) {
      assert s[k] == pre[k];
    }
    NoEarlierMatch(s, OpenFence, 0, |pre|);
  }

  lemma ClosingFenceFirst(front: string, body: string, post: string)
    requires '`' !in body
    ensures FindFrom(front + body + Fence + post, Fence, |front|) == Some(|front| + |body|)
  {
    var s := front + body + Fence + post;
    var j := |front| + |body|;
    assert s[j..j + |Fence|] == Fence;
    forall k | |front| <= k < j ensures !OccursAt(s, Fence, k) {
      assert s[k] == body[k - |front|];
    }
    NoEarlierMatch(s, Fence, |front|, j);
  }

  /** `FindFrom` finds the first match: one at `j` with none in `[from, j)`. */
  lemma NoEarlierMatch(s: string, pat: string, from: nat, j: nat)
    requires from <= j && OccursAt(s, pat, j)
    requires forall k :: from <= k < j ==> !OccursAt(s, pat, k)
    ensures FindFrom(s, pat, from) == Some(j)
  {
  }

  /** Without an opening fence the whole reply, with fences removed, is the code, and there is no summary. */
  lemma NoBlockCase(s: string)
    requires !Contains(s, OpenFence)
    ensures CodeAndSummary(s) == (ReplaceAll(ReplaceAll(s, OpenFence, ""), Fence, ""), "")
  {
    if FindFrom(s, OpenFence, 0).Some? {
      ContainsWitness(s, OpenFence, FindFrom(s, OpenFence, 0).value);
    }
  }

  /**
   * `build_knowledge_graph`: five snippets, joined with blank lines, are
   * the context of the graph prompt, and the reply is normalised.
   * `generate(topic, context)` is the language model's reply; when the
   * model raises, the exception is not caught and the graph fails with it.
   */
  function BuildKnowledgeGraph(agent: KgAgent, topic: string, search: (string, nat) -> Result<seq<string>, string>,
                               generate: (string, string) -> Result<string, string>): (r: Result<string, string>)
    ensures var context := Join("\n\n", RetrieveDocs(agent, topic, 5, search));
      (r.Failure? <==> generate(topic, context).Failure?)
      && (r.Failure? ==> r.error == generate(topic, context).error)
      && (r.Success? ==> r.value == FormatMermaidResponse(generate(topic, context).value))
    ensures r.Success? ==> IsPrefix(OpenFence + "\n", r.value)
  {
    var docs := RetrieveDocs(agent, topic, 5, search);
    var context := Join("\n\n", docs);
    match generate(topic, context)
    case Failure(e) => Failure(e)
    case Success(raw) =>
      FormatShape(raw);
      Success(FormatMermaidResponse(raw))
  }

  /** Without a vector store, or when the search raises, the graph is generated from an empty context. */
  lemma NoStoreMeansNoContext(agent: KgAgent, topic: string, search: (string, nat) -> Result<seq<string>, string>,
                              generate: (string, string) -> Result<string, string>)
    requires !agent.hasVectorStore || search(RetrievalQuery(agent.subjectName, topic), 5).Failure?
    ensures generate(topic, "").Success? ==>
      BuildKnowledgeGraph(agent, topic, search, generate) == Success(FormatMermaidResponse(generate(topic, "").value))
    ensures generate(topic, "").Failure? ==> BuildKnowledgeGraph(agent, topic, search, generate).Failure?
  {
  }
}
