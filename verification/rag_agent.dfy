/** The knowledge-retrieval handler of `agents/rag_agent.py`. The vector
    store's answers (the start-up probe, the scored neighbours of a query)
    and the outcome of loading and splitting the corpus are inputs; the
    language model is a function of its prompt. */
module RagAgent {
  import opened Text
  import opened Wrappers
  import opened Llm

  /** A retrieved snippet with its similarity score. */
  datatype Scored = Scored(content: string, score: real)

  /** The outcome of `db.similarity_search_with_score(query, k=5)`. */
  datatype Retrieval = Hits(docs: seq<Scored>) | RetrievalRaised

  /** The vector collection, as the texts stored in it. */
  datatype Store = Store(texts: seq<string>)

  /** The outcome of the start-up probe `db.similarity_search("test_query", k=1)`,
      including a failure to connect. */
  datatype Probe = ProbeHits(hits: seq<string>) | ProbeRaised

  /** The outcome of loading the corpus, splitting it into chunks and
      storing them. */
  datatype Ingest = Chunks(texts: seq<string>) | IngestRaised

  /** The handler's answer, with the prompt sent to the language model when
      it was consulted. */
  datatype RagTrace = RagTrace(response: string, prompt: Option<string>)

  /** Minimum similarity score for a snippet to be used. */
  const Threshold: real := 0.15

  const NotInitialized: string := "I'm sorry, but the vector database is not initialized."
  const Clarify: string := "I couldn't find relevant information. Can you clarify your question?"
  const RagError: string := "I'm sorry, but something went wrong while retrieving the information."

  // ---------------------------------------------------------------------
  // Filtering and formatting the retrieved snippets
  // ---------------------------------------------------------------------

  /** The list comprehension keeping snippets scored at or above the
      threshold: exactly those snippets, and no more of them than retrieved. */
  function Relevant(docs: seq<Scored>): (kept: seq<Scored>)
    ensures |kept| <= |docs|
    ensures forall x :: x in kept <==> x in docs && x.score >= Threshold
    decreases |docs|
  {
    if |docs| == 0 then []
    else if docs[0].score >= Threshold then [docs[0]] + Relevant(docs[1..])
    else Relevant(docs[1..])
  }

  /** Filtering keeps the original order: it distributes over
      concatenation. */
  lemma {:induction false} RelevantAppend(a: seq<Scored>, b: seq<Scored>)
    ensures Relevant(a + b) == Relevant(a) + Relevant(b)
    decreases |a|
  {
    if |a| == 0 {
      assert a + b == b;
    } else {
      assert (a + b)[0] == a[0];
      assert (a + b)[1..] == a[1..] + b;
      RelevantAppend(a[1..], b);
    }
  }

  /** One `- <content>` line per kept snippet. */
  function Bullets(kept: seq<Scored>): (lines: seq<string>)
    ensures |lines| == |kept|
    ensures forall k :: 0 <= k < |kept| ==> lines[k] == "- " + kept[k].content
  {
    seq(|kept|, k requires 0 <= k < |kept| => "- " + kept[k].content)
  }

  /** `doc_texts`: the bullet lines joined by newlines. */
  function DocTexts(kept: seq<Scored>): string {
    Join("\n", Bullets(kept))
  }

  /** Read back line by line, `doc_texts` of newline-free snippets is one
      bullet line per snippet, in order. */
  lemma DocTextsLines(kept: seq<Scored>)
    requires |kept| > 0
    requires forall k :: 0 <= k < |kept| ==> '\n' !in kept[k].content
    ensures Split(DocTexts(kept), '\n') == Bullets(kept)
  {
    var lines := Bullets(kept);
    forall k | 0 <= k < |lines|
      ensures '\n' !in lines[k]
    {
      assert lines[k] == "- " + kept[k].content;
    }
    SplitJoin(lines, '\n');
  }

  /** Indentation of the prompt's template lines. */
  const Indent: string := "        "

  /** The fixed text of the prompt before the query. */
  const PromptHead: string :=
    "\n" + Indent + "You are an AI assistant that retrieves relevant information from a knowledge base.\n"
    + Indent + "Given the following retrieved documents, generate a clear and informative response to the user's query.\n"
    + "\n" + Indent + "User Query: "

  /** The fixed text between the query and the retrieved snippets. */
  const PromptMiddle: string := "\n\n" + Indent + "Retrieved Information:\n" + Indent

  /** The fixed text after the retrieved snippets. */
  const PromptTail: string :=
    "\n\n" + Indent + "- Keep your response concise yet informative.\n"
    + Indent + "- Use a friendly and engaging tone.\n"
    + Indent + "- If needed, provide additional insights based on the retrieved information.\n"
    + Indent

  /** The prompt sent to the language model; it quotes both the query and
      the retrieved snippets. */
  function RagPrompt(query: string, docTexts: string): (p: string)
    ensures Contains(p, query)
    ensures Contains(p, docTexts)
  {
    ContainsBoth(PromptHead, query, PromptMiddle, docTexts, PromptTail);
    PromptHead + query + PromptMiddle + docTexts + PromptTail
  }

  // ---------------------------------------------------------------------
  // Answering a query
  // ---------------------------------------------------------------------

  /** Consults the language model with `prompt`: its answer, or the apology
      if it raises. */
  function Ask(prompt: string, llm: string -> Completion): (r: RagTrace)
    ensures r.prompt == Some(prompt)
    ensures llm(prompt).Completed? ==> r.response == llm(prompt).text
    ensures llm(prompt).Raised? ==> r.response == RagError
  {
    match llm(prompt)
    case Completed(text) => RagTrace(text, Some(prompt))
    case Raised => RagTrace(RagError, Some(prompt))
  }

  /** `retrieve_rag_response`. Without a store, the answer is the
      not-initialised message; a retrieval failure gives the apology; when no
      snippet passes the threshold the answer is the clarification request;
      only otherwise is the language model asked, with the prompt built from
      the query and the kept snippets (which quotes both), and its answer (or, if it raises, the
      apology) returned. */
  function RetrieveRagResponse(db: Option<Store>, query: string, retrieved: Retrieval, llm: string -> Completion): (r: RagTrace)
    ensures db.None? ==> r == RagTrace(NotInitialized, None)
    ensures db.Some? && retrieved.RetrievalRaised? ==> r == RagTrace(RagError, None)
    ensures db.Some? && retrieved.Hits? && Relevant(retrieved.docs) == [] ==> r == RagTrace(Clarify, None)
    ensures r.prompt.Some? <==> db.Some? && retrieved.Hits? && Relevant(retrieved.docs) != []
    ensures r.prompt.Some? ==> r.prompt.value == RagPrompt(query, DocTexts(Relevant(retrieved.docs)))
    ensures r.prompt.Some? && llm(r.prompt.value).Completed? ==> r.response == llm(r.prompt.value).text
    ensures r.prompt.Some? && llm(r.prompt.value).Raised? ==> r.response == RagError
  {
    if db.None? then RagTrace(NotInitialized, None)
    else if retrieved.RetrievalRaised? then RagTrace(RagError, None)
    else
      var kept := Relevant(retrieved.docs);
      if kept == [] then RagTrace(Clarify, None)
      else Ask(RagPrompt(query, DocTexts(kept)), llm)
  }

  // ---------------------------------------------------------------------
  // Start-up ingestion
  // ---------------------------------------------------------------------

  /** `initialize_vector_store`: the corpus is stored only when the probe
      finds nothing; a store the probe finds populated is returned
      unchanged; any failure gives no store. */
  function InitializeVectorStore(existing: Store, probe: Probe, corpus: Ingest): (r: Option<Store>)
    ensures probe.ProbeRaised? ==> r.None?
    ensures probe.ProbeHits? && probe.hits != [] ==> r == Some(existing)
    ensures probe == ProbeHits([]) && corpus.IngestRaised? ==> r.None?
    ensures probe == ProbeHits([]) && corpus.Chunks? ==> r == Some(Store(existing.texts + corpus.texts))
    ensures r.Some? && r.value != existing ==> probe == ProbeHits([])
  {
    match probe
    case ProbeRaised => None
    case ProbeHits(hits) =>
      if hits != [] then Some(existing)
      else match corpus
        case Chunks(texts) => Some(Store(existing.texts + texts))
        case IngestRaised => None
  }

  /** With a probe that finds something exactly when the store holds
      something, initialising a second time changes nothing: insert-if-empty
      is idempotent. */
  lemma InitializeTwice(s: Store, probe: Store -> Probe, corpus: Ingest)
    requires forall t :: probe(t).ProbeHits? && (probe(t).hits == [] <==> t.texts == [])
    ensures var once := InitializeVectorStore(s, probe(s), corpus);
      once.Some? ==> InitializeVectorStore(once.value, probe(once.value), corpus) == once
  {
    var once := InitializeVectorStore(s, probe(s), corpus);
    if once.Some? && s.texts == [] && corpus.Chunks? {
      assert once.value.texts == corpus.texts;
      if corpus.texts == [] {
        assert once.value == s;
        assert once.value.texts + corpus.texts == s.texts;
      }
    }
  }
}
