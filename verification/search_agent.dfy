/** The web-search handler of `agents/search_agent.py`. The search engine's
    answer is an input: either a value of one of the shapes the handler
    distinguishes, or an exception. */
module SearchAgent {
  import opened Text

  /** A Python value as returned by the search tool, reduced to the shapes
      the handler tells apart. Dictionary values are given as the text the
      f-string renders for them. */
  datatype PyValue =
    | PyStr(text: string)
    | PyDict(entries: map<string, string>)
    | PyList(items: seq<PyValue>)
    | PyOther

  /** The outcome of `search.invoke(query)`. A failure to construct the
      search tool, before the `try`, is not an outcome: it escapes the handler. */
  datatype SearchCall = Returned(value: PyValue) | Raised

  /** Character budget for a plain-text result. */
  const MaxChars: nat := 500
  /** Number of structured results reported. */
  const TopResults: nat := 3

  const NoResults: string := "No relevant search results found."
  const SearchError: string := "Search Agent encountered an error."
  /** The single key of the handler's reply. */
  const ResponseKey: string := "response"

  /** Python's `d.get(key, default)`. */
  function Get(d: map<string, string>, key: string, default: string): string {
    if key in d then d[key] else default
  }

  /** One result line: `- <title>: <link>`, with placeholders for missing
      keys. */
  function FormatEntry(d: map<string, string>): (line: string)
    ensures |line| == 4 + |Get(d, "title", "No Title")| + |Get(d, "link", "No Link")|
    ensures IsPrefix("- " + Get(d, "title", "No Title") + ": ", line)
    ensures line[|line| - |Get(d, "link", "No Link")|..] == Get(d, "link", "No Link")
    ensures "title" !in d ==> IsPrefix("- No Title: ", line)
    ensures "link" !in d ==> line[|line| - 7..] == "No Link"
  {
    var head := "- " + Get(d, "title", "No Title") + ": ";
    var line := head + Get(d, "link", "No Link");
    assert line[..|head|] == head;
    line
  }

  /** Every element of the list is a dictionary (true of the empty list). */
  predicate AllDicts(items: seq<PyValue>) {
    forall k :: 0 <= k < |items| ==> items[k].PyDict?
  }

  /** The lines reported for a list of dictionaries: one per entry among the
      first three, in order. */
  function TopLines(items: seq<PyValue>): (lines: seq<string>)
    requires AllDicts(items)
    ensures |lines| == if |items| < TopResults then |items| else TopResults
    ensures forall k :: 0 <= k < |lines| ==> lines[k] == FormatEntry(items[k].entries)
  {
    var top := Take(items, TopResults);
    seq(|top|, k requires 0 <= k < |top| => FormatEntry(top[k].entries))
  }

  /** The formatting step of `searchAgent` for a returned value. A list of
      dictionaries becomes its top lines joined by newlines (the empty list
      gives the empty string); a string is cut to its first 500 characters;
      any other shape, a list holding a non-dictionary included, gives the
      no-results message. */
  function FormatResults(v: PyValue): (r: string)
    ensures v.PyList? && AllDicts(v.items) ==> r == Join("\n", TopLines(v.items))
    ensures v.PyList? && AllDicts(v.items) && |v.items| == 0 ==> r == ""
    ensures v.PyStr? ==> |r| <= MaxChars && IsPrefix(r, v.text)
    ensures v.PyStr? && |v.text| <= MaxChars ==> r == v.text
    ensures v.PyStr? && |v.text| > MaxChars ==> |r| == MaxChars
    ensures !(v.PyList? && AllDicts(v.items)) && !v.PyStr? ==> r == NoResults
  {
    match v
    case PyList(items) =>
      if AllDicts(items) then Join("\n", TopLines(items)) else NoResults
    case PyStr(s) => Take(s, MaxChars)
    case _ => NoResults
  }

  /** Read back line by line, a non-empty list of dictionaries whose entries
      render without newlines yields exactly its top lines, in order. */
  lemma ListResultLines(items: seq<PyValue>)
    requires |items| > 0 && AllDicts(items)
    requires forall k :: 0 <= k < |items| ==> '\n' !in FormatEntry(items[k].entries)
    ensures var lines := Split(FormatResults(PyList(items)), '\n');
      && |lines| == (if |items| < TopResults then |items| else TopResults)
      && forall k :: 0 <= k < |lines| ==> lines[k] == FormatEntry(items[k].entries)
  {
    var lines := TopLines(items);
    assert forall k :: 0 <= k < |lines| ==> '\n' !in lines[k];
    SplitJoin(lines, '\n');
  }

  /** `searchAgent`: the reply always has the single key `response`; an
      exception gives the error message, any returned value its formatting. */
  function Respond(call: SearchCall): (reply: map<string, string>)
    ensures reply.Keys == {ResponseKey}
    ensures call.Raised? ==> reply[ResponseKey] == SearchError
    ensures call.Returned? ==> reply[ResponseKey] == FormatResults(call.value)
  {
    var response := match call
      case Returned(v) => FormatResults(v)
      case Raised => SearchError;
    map[ResponseKey := response]
  }
}
