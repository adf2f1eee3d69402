/** The second variant of the router, `check.py`: its own supervisor with
    data words checked before search words, and three placeholder tools
    whose agents wrap the tool's text in a one-entry reply. */
module CheckFlow {
  import opened Text
  import opened Router

  const SqlWords: seq<string> := ["database", "sql"]
  const SearchWords: seq<string> := ["search", "find"]

  /** Data words are checked first, then search words; anything else goes
      to the knowledge handler. */
  const Rules: seq<Rule> := [Rule(Sql, SqlWords), Rule(Search, SearchWords)]

  /** How the two rules decide on an already lower-cased query. */
  lemma RulesDecide(q: string)
    ensures AnyIn(SqlWords, q) ==> Route(Rules, Rag, q) == Sql
    ensures !AnyIn(SqlWords, q) && AnyIn(SearchWords, q) ==> Route(Rules, Rag, q) == Search
    ensures !AnyIn(SqlWords, q) && !AnyIn(SearchWords, q) ==> Route(Rules, Rag, q) == Rag
  {
    RouteIsFirstMatch(Rules, Rag, q);
    if AnyIn(SqlWords, q) {
      assert FirstFiring(Rules, q, 0);
    } else if AnyIn(SearchWords, q) {
      assert FirstFiring(Rules, q, 1);
    } else {
      assert forall k :: 0 <= k < |Rules| ==> !Fires(Rules[k], q);
    }
  }

  /** `supervisor_agent`: data words win over search words, and anything
      else goes to the knowledge handler; the lower-cased query is passed
      on. */
  function SupervisorAgent(raw: string): (d: Decision)
    ensures d.query == Lower(raw)
    ensures d.next == Sql <==> AnyIn(SqlWords, d.query)
    ensures d.next == Search <==> !AnyIn(SqlWords, d.query) && AnyIn(SearchWords, d.query)
    ensures d.next == Rag <==> !AnyIn(SqlWords, d.query) && !AnyIn(SearchWords, d.query)
  {
    RulesDecide(Lower(raw));
    Supervise(Rules, Rag, raw)
  }

  /** "Find the SQL tables" goes to the data handler although "find" is a
      search word. */
  lemma FindSqlIsSql()
    ensures SupervisorAgent("Find the SQL tables").next == Sql
  {
    var raw := "Find the SQL tables";
    var q := Lower(raw);
    assert q[9..12] == "sql";
    ContainsInMiddle(q[..9], "sql", q[12..]);
    assert q[..9] + "sql" + q[12..] == q;
    assert Contains(q, SqlWords[1]);
  }

  // ---------------------------------------------------------------------
  // Placeholder tools and their agents
  // ---------------------------------------------------------------------

  /** The text each placeholder tool puts before the query. */
  function ToolPrefix(intent: Intent): string {
    match intent
    case Sql => "Executed SQL Query: "
    case Search => "Search Results for: "
    case Rag => "RAG Knowledge for: "
  }

  /** `sql_tool`, `search_tool` and `rag_tool`: the tool's fixed prefix
      followed by the query. */
  function Tool(intent: Intent, query: string): (text: string)
    ensures IsPrefix(ToolPrefix(intent), text)
    ensures text[|ToolPrefix(intent)|..] == query
  {
    ToolPrefix(intent) + query
  }

  /** A tool's text tells which tool produced it and for which query. */
  lemma ToolInjective(i: Intent, q: string, j: Intent, p: string)
    requires Tool(i, q) == Tool(j, p)
    ensures i == j && q == p
  {
    assert Tool(i, q)[0] == ToolPrefix(i)[0];
    assert Tool(j, p)[0] == ToolPrefix(j)[0];
  }

  const ResponseKey: string := "response"

  /** `sql_agent`, `search_agent` and `rag_agent`: a reply whose only entry
      is `response`, holding the tool's text. */
  function Agent(intent: Intent, query: string): (reply: map<string, string>)
    ensures reply.Keys == {ResponseKey}
    ensures reply[ResponseKey] == Tool(intent, query)
  {
    map[ResponseKey := Tool(intent, query)]
  }
}
