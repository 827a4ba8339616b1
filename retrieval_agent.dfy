/**
 * The shared retrieval base agent (`BaseRetrievalAgent`): the number of
 * documents a search asks for, and how the documents found become
 * snippets, stripped, without empty ones and without repeats.
 *
 * The vector store search is a parameter; when it raises, the exception
 * leaves `_retrieve_docs` unhandled, which is a `Failure` here.
 */
module RetrievalAgent {
  import opened Wrappers
  import opened Strings

  /** The `k` a caller passes by default, and `retrieval_k` after `__init__`. */
  const DefaultK: nat := 5

  /**
   * What `_retrieve_docs` depends on: whether the vector store loaded, and
   * `retrieval_k`, which `set_generation_params` sets to any positive value.
   */
  datatype Retriever = Retriever(hasVectorStore: bool, retrievalK: nat)

  /** `set_generation_params(retrieval_k=...)`: only a positive value replaces `retrieval_k`. */
  function SetRetrievalK(r: Retriever, retrievalK: Option<int>): (r': Retriever)
    ensures r'.hasVectorStore == r.hasVectorStore
    ensures retrievalK.Some? && retrievalK.value > 0 ==> r'.retrievalK == retrievalK.value
    ensures !(retrievalK.Some? && retrievalK.value > 0) ==> r' == r
    ensures r.retrievalK > 0 ==> r'.retrievalK > 0
  {
    if retrievalK.Some? && retrievalK.value > 0 then r.(retrievalK := retrievalK.value) else r
  }

  /** `self.retrieval_k or k`: the number the search is asked for. */
  function SearchSize(r: Retriever, k: nat): (n: nat)
    ensures r.retrievalK > 0 ==> n == r.retrievalK
    ensures r.retrievalK == 0 ==> n == k
  {
    if r.retrievalK != 0 then r.retrievalK else k
  }

  /**
   * The snippets the loop of `_retrieve_docs` keeps from the documents, in
   * order: each page content stripped, unless it is empty or already kept.
   */
  function Snippets(docs: seq<string>): (r: seq<string>)
    ensures |r| <= |docs|
    ensures forall i :: 0 <= i < |r| ==> r[i] != "" && Strip(r[i]) == r[i]
    ensures forall i :: 0 <= i < |r| ==> exists j :: 0 <= j < |docs| && r[i] == Strip(docs[j])
    ensures forall i, j :: 0 <= i < j < |r| ==> r[i] != r[j]
    ensures forall j :: 0 <= j < |docs| && Strip(docs[j]) != "" ==> Strip(docs[j]) in r
  {
    if docs == [] then []
    else
      var front := docs[..|docs| - 1];
      var kept := Snippets(front);
      var content := Strip(docs[|docs| - 1]);
      StripIsStripped(docs[|docs| - 1]);
      assert forall j :: 0 <= j < |front| ==> front[j] == docs[j];
      if content != "" && content !in kept then kept + [content] else kept
  }

  /** Document `j` is the first whose stripped content is that non-empty text. */
  predicate IsFirstOccurrence(docs: seq<string>, j: nat)
    requires j < |docs|
  {
    Strip(docs[j]) != "" && forall k :: 0 <= k < j ==> Strip(docs[k]) != Strip(docs[j])
  }

  /** The stripped contents of the first `n` documents, filtered to first occurrences, in rank order. */
  function FirstOccurrences(docs: seq<string>, n: nat): seq<string>
    requires n <= |docs|
  {
    if n == 0 then []
    else FirstOccurrences(docs, n - 1) + (if IsFirstOccurrence(docs, n - 1) then [Strip(docs[n - 1])] else [])
  }

  /** Whether a document is a first occurrence depends only on the documents up to it. */
  lemma {:induction false} FirstOccurrencesOfPrefix(docs: seq<string>, m: nat, n: nat)
    requires n <= m <= |docs|
    ensures FirstOccurrences(docs[..m], n) == FirstOccurrences(docs, n)
  {
    if n > 0 {
      FirstOccurrencesOfPrefix(docs, m, n - 1);
      assert forall k :: 0 <= k < n ==> docs[..m][k] == docs[k];
      assert IsFirstOccurrence(docs[..m], n - 1) == IsFirstOccurrence(docs, n - 1);
    }
  }

  /**
   * The snippets, in order, are the stripped documents that are first
   * occurrences of their text: each snippet comes from the best-ranked
   * document with that content, and snippets keep the documents' order.
   */
  lemma {:induction false} SnippetsAreFirstOccurrences(docs: seq<string>)
    ensures Snippets(docs) == FirstOccurrences(docs, |docs|)
    decreases |docs|
  {
    if docs != [] {
      var last := |docs| - 1;
      var front := docs[..last];
      SnippetsAreFirstOccurrences(front);
      FirstOccurrencesOfPrefix(docs, last, last);
      KeptExactlyWhenFirst(docs);
      var add := if IsFirstOccurrence(docs, last) then [Strip(docs[last])] else [];
      assert Snippets(docs) == Snippets(front) + add;
      assert FirstOccurrences(docs, |docs|) == FirstOccurrences(docs, last) + add;
    }
  }

  /** The loop keeps the last document exactly when it is a first occurrence. */
  lemma KeptExactlyWhenFirst(docs: seq<string>)
    requires docs != []
    ensures var last := |docs| - 1; var content := Strip(docs[last]);
      (content != "" && content !in Snippets(docs[..last])) <==> IsFirstOccurrence(docs, last)
  {
    var last := |docs| - 1;
    var front := docs[..last];
    var kept := Snippets(front);
    var content := Strip(docs[last]);
    if content in kept {
      var i :| 0 <= i < |kept| && kept[i] == content;
      var j :| 0 <= j < |front| && kept[i] == Strip(front[j]);
      assert front[j] == docs[j];
    }
  }

  /** A repeat keeps the place of its first occurrence: `["a", "b", "a"]` gives `["a", "b"]`, never `["b", "a"]`. */
  lemma FirstOccurrenceOrder()
    ensures Snippets(["a", "b", "a"]) == ["a", "b"]
  {
    var docs := ["a", "b", "a"];
    StripCharsSpec("a", PyWhitespace);
    StripCharsSpec("b", PyWhitespace);
    assert Strip("a") == "a" && Strip("b") == "b";
    assert IsFirstOccurrence(docs, 0);
    assert FirstOccurrences(docs, 1) == ["a"];
    assert IsFirstOccurrence(docs, 1);
    assert FirstOccurrences(docs, 2) == ["a", "b"];
    assert !IsFirstOccurrence(docs, 2);
    assert FirstOccurrences(docs, 3) == ["a", "b"];
    SnippetsAreFirstOccurrences(docs);
  }

  /** A stripped text is its own strip. */
  lemma StripIsStripped(s: string)
    ensures Strip(Strip(s)) == Strip(s)
  {
    StripCharsSpec(s, PyWhitespace);
    StripCharsSpec(Strip(s), PyWhitespace);
  }

  /** The loop of `_retrieve_docs`, with its `seen` set, keeps exactly `Snippets(docs)`. */
  method CollectSnippets(docs: seq<string>) returns (snippets: seq<string>)
    ensures snippets == Snippets(docs)
  {
    var seen: set<string> := {};
    snippets := [];
    for i := 0 to |docs|
      invariant snippets == Snippets(docs[..i])
      invariant seen == set s | s in snippets
    {
      assert docs[..i + 1][..i] == docs[..i];
      var content := Strip(docs[i]);
      if content != "" && content !in seen {
        snippets := snippets + [content];
        seen := seen + {content};
      }
    }
    assert docs[..|docs|] == docs;
  }

  /**
   * `_retrieve_docs(query, k)`: no snippets without a vector store; the
   * search's exception when it raises; otherwise the snippets of what it
   * found for `retrieval_k` (or `k` when that is zero) documents.
   */
  function RetrieveDocs(r: Retriever, query: string, k: nat, search: (string, nat) -> Result<seq<string>, string>)
    : (docs: Result<seq<string>, string>)
    ensures !r.hasVectorStore ==> docs == Success([])
    ensures r.hasVectorStore ==> (docs.Failure? <==> search(query, SearchSize(r, k)).Failure?)
    ensures r.hasVectorStore && docs.Failure? ==> docs.error == search(query, SearchSize(r, k)).error
    ensures r.hasVectorStore && docs.Success? ==> docs.value == Snippets(search(query, SearchSize(r, k)).value)
  {
    if !r.hasVectorStore then Success([])
    else
      match search(query, SearchSize(r, k))
      case Failure(e) => Failure(e)
      case Success(found) => Success(Snippets(found))
  }

  /** Repeated documents and documents that differ only in surrounding white space give one snippet. */
  lemma RepeatsCollapse(doc: string, padded: string)
    requires Strip(doc) != "" && Strip(padded) == Strip(doc)
    ensures Snippets([doc, padded, doc]) == [Strip(doc)]
  {
    var docs := [doc, padded, doc];
    assert [doc][..0] == [];
    assert Snippets([doc]) == [Strip(doc)];
    assert [doc, padded][..1] == [doc];
    assert Snippets([doc, padded]) == [Strip(doc)];
    assert docs[..2] == [doc, padded];
  }
}
