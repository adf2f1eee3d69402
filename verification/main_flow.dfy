/** The graph nodes of `main.py`: the keyword supervisor, the three handler
    nodes and the test that ends the interactive loop. The node for
    structured data only fills in a template; it does not call the SQL
    handler. */
module MainFlow {
  import opened Text
  import opened Router
  import SearchAgent
  import RagAgent
  import Wrappers
  import Llm

  // ---------------------------------------------------------------------
  // Supervisor
  // ---------------------------------------------------------------------

  const SearchWords: seq<string> := ["latest", "current", "top", "news", "trending"]
  const RagWords: seq<string> := ["define", "explain", "history", "background"]
  const SqlWords: seq<string> := ["count", "total", "number", "list", "fetch"]

  /** Search words are checked first, then knowledge words, then data
      words; a query matching none goes to the knowledge handler. */
  const Rules: seq<Rule> := [Rule(Search, SearchWords), Rule(Rag, RagWords), Rule(Sql, SqlWords)]

  /** How the three rules decide on an already lower-cased query. */
  lemma RulesDecide(q: string)
    ensures AnyIn(SearchWords, q) ==> Route(Rules, Rag, q) == Search
    ensures !AnyIn(SearchWords, q) && AnyIn(RagWords, q) ==> Route(Rules, Rag, q) == Rag
    ensures !AnyIn(SearchWords, q) && !AnyIn(RagWords, q) && AnyIn(SqlWords, q) ==> Route(Rules, Rag, q) == Sql
    ensures !AnyIn(SearchWords, q) && !AnyIn(RagWords, q) && !AnyIn(SqlWords, q) ==> Route(Rules, Rag, q) == Rag
  {
    RouteIsFirstMatch(Rules, Rag, q);
    if AnyIn(SearchWords, q) {
      assert FirstFiring(Rules, q, 0);
    } else if AnyIn(RagWords, q) {
      assert FirstFiring(Rules, q, 1);
    } else if AnyIn(SqlWords, q) {
      assert FirstFiring(Rules, q, 2);
    } else {
      assert forall k :: 0 <= k < |Rules| ==> !Fires(Rules[k], q);
    }
  }

  /** `supervisorAgent`: the next step for each intent, as an
      if-and-only-if over which trigger words the lower-cased query holds,
      and the lower-cased query passed on whatever the branch. */
  function SupervisorAgent(raw: string): (d: Decision)
    ensures d.query == Lower(raw)
    ensures d.next == Search <==> AnyIn(SearchWords, d.query)
    ensures d.next == Rag <==>
              !AnyIn(SearchWords, d.query) && (AnyIn(RagWords, d.query) || !AnyIn(SqlWords, d.query))
    ensures d.next == Sql <==>
              !AnyIn(SearchWords, d.query) && !AnyIn(RagWords, d.query) && AnyIn(SqlWords, d.query)
  {
    RulesDecide(Lower(raw));
    Supervise(Rules, Rag, raw)
  }

  /** Case-insensitive precedence: a query holding a search word in any mix
      of cases goes to search, whatever other words it holds. */
  lemma SearchWordWins(raw: string, w: string)
    requires Lower(w) in SearchWords
    requires Contains(raw, w)
    ensures SupervisorAgent(raw).next == Search
  {
    ContainsLower(raw, w);
    var k :| 0 <= k < |SearchWords| && SearchWords[k] == Lower(w);
    assert Contains(Lower(raw), SearchWords[k]);
  }

  /** A knowledge word in any mix of cases sends a query without search
      words to the knowledge handler, even if it also holds data words. */
  lemma RagWordBeatsSqlWord(raw: string, w: string)
    requires Lower(w) in RagWords
    requires Contains(raw, w)
    requires !AnyIn(SearchWords, Lower(raw))
    ensures SupervisorAgent(raw).next == Rag
  {
    ContainsLower(raw, w);
    var k :| 0 <= k < |RagWords| && RagWords[k] == Lower(w);
    assert Contains(Lower(raw), RagWords[k]);
  }

  /** The mixed query "Latest total sales" goes to search, although "total"
      is a data word. */
  lemma LatestTotalSalesIsSearch()
    ensures SupervisorAgent("Latest total sales").next == Search
  {
    var raw := "Latest total sales";
    assert raw[..6] == "Latest";
    assert Contains(raw, "Latest");
    assert Lower("Latest") == SearchWords[0];
    SearchWordWins(raw, "Latest");
  }

  // ---------------------------------------------------------------------
  // Handler nodes
  // ---------------------------------------------------------------------

  const SqlReplyOpen: string := "SQL Agent: Retrieved structured data for '"
  const SqlReplyClose: string := "'."

  /** `sql_agent`: a fixed sentence quoting the query; no statement is
      generated or run. The query can be read back from the reply. */
  function SqlAgentNode(query: string): (response: string)
    ensures |response| == |SqlReplyOpen| + |query| + |SqlReplyClose|
    ensures IsPrefix(SqlReplyOpen, response)
    ensures response[|SqlReplyOpen|..|response| - |SqlReplyClose|] == query
    ensures response[|response| - |SqlReplyClose|..] == SqlReplyClose
  {
    SqlReplyOpen + query + SqlReplyClose
  }

  /** Different queries give different replies. */
  lemma SqlAgentNodeInjective(q1: string, q2: string)
    requires SqlAgentNode(q1) == SqlAgentNode(q2)
    ensures q1 == q2
  {
    var r := SqlAgentNode(q1);
    assert q1 == r[|SqlReplyOpen|..|r| - |SqlReplyClose|];
  }

  const NoSearchResults: string := "No search results found."

  /** `search_agent`: the handler's `response` entry, or a default when
      the entry is missing. */
  function SearchAgentNode(reply: map<string, string>): (response: string)
    ensures SearchAgent.ResponseKey in reply ==> response == reply[SearchAgent.ResponseKey]
    ensures SearchAgent.ResponseKey !in reply ==> response == NoSearchResults
  {
    if SearchAgent.ResponseKey in reply then reply[SearchAgent.ResponseKey] else NoSearchResults
  }

  /** Wired to the search handler, the node's default is never used: the
      handler always supplies `response`. */
  lemma SearchDefaultUnused(call: SearchAgent.SearchCall)
    ensures SearchAgentNode(SearchAgent.Respond(call)) == SearchAgent.Respond(call)[SearchAgent.ResponseKey]
    ensures call.Raised? ==> SearchAgentNode(SearchAgent.Respond(call)) == SearchAgent.SearchError
    ensures call.Returned? ==> SearchAgentNode(SearchAgent.Respond(call)) == SearchAgent.FormatResults(call.value)
  {
  }

  /** A retrieved document as the node reads it. */
  datatype Document = Document(pageContent: string)

  /** What the node may get back from the retriever: a list of documents,
      another value (used as the response as it is), or an exception. */
  datatype Retrieved = DocList(docs: seq<Document>) | Value(text: string) | Failed

  const RagNodeError: string := "RAG Agent encountered an error."

  /** The page contents of the first three documents. */
  function TopContents(docs: seq<Document>): (texts: seq<string>)
    ensures |texts| == if |docs| < 3 then |docs| else 3
    ensures forall k :: 0 <= k < |texts| ==> texts[k] == docs[k].pageContent
  {
    var top := Take(docs, 3);
    seq(|top|, k requires 0 <= k < |top| => top[k].pageContent)
  }

  /** `rag_agent`: a list becomes the first three page contents joined by
      newlines; any other value is passed through; an exception gives the
      node's error message. */
  function RagAgentNode(retrieved: Retrieved): (response: string)
    ensures retrieved.DocList? ==> response == Join("\n", TopContents(retrieved.docs))
    ensures retrieved.Value? ==> response == retrieved.text
    ensures retrieved.Failed? ==> response == RagNodeError
  {
    match retrieved
    case DocList(docs) => Join("\n", TopContents(docs))
    case Value(text) => text
    case Failed => RagNodeError
  }

  /** Read back line by line, the list branch gives one line per document
      among the first three, in order, when page contents hold no newline. */
  lemma RagListLines(docs: seq<Document>)
    requires |docs| > 0
    requires forall k :: 0 <= k < |docs| ==> '\n' !in docs[k].pageContent
    ensures var lines := Split(RagAgentNode(DocList(docs)), '\n');
      && |lines| == (if |docs| < 3 then |docs| else 3)
      && forall k :: 0 <= k < |lines| ==> lines[k] == docs[k].pageContent
  {
    SplitJoin(TopContents(docs), '\n');
  }

  /** Wired to `retrieve_rag_response`, which always answers with text, the
      node passes the handler's answer through unchanged. */
  function RagAgentWired(query: string, db: Wrappers.Option<RagAgent.Store>, retrieved: RagAgent.Retrieval,
                         llm: string -> Llm.Completion): (response: string)
    ensures response == RagAgent.RetrieveRagResponse(db, query, retrieved, llm).response
  {
    RagAgentNode(Value(RagAgent.RetrieveRagResponse(db, query, retrieved, llm).response))
  }

  // ---------------------------------------------------------------------
  // Leaving the loop
  // ---------------------------------------------------------------------

  /** The loop ends when the input, lower-cased, is `exit`: exactly four
      characters that spell the word in any mix of cases. */
  function IsExit(input: string): (stop: bool)
    ensures stop <==> |input| == 4 && forall i :: 0 <= i < 4 ==> LowerChar(input[i]) == "exit"[i]
  {
    Lower(input) == "exit"
  }

  lemma ExitSpellings()
    ensures IsExit("exit") && IsExit("EXIT") && IsExit("Exit")
    ensures !IsExit(" exit") && !IsExit("exit ") && !IsExit("quit")
  {
    assert !IsExit(" exit") by { assert LowerChar(" exit"[0]) != 'e'; }
    assert !IsExit("quit") by { assert LowerChar("quit"[0]) != 'e'; }
  }
}
