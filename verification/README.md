# Agent query router — Dafny model

This project models the pure decision and string logic of a small "agentic"
query router. A supervisor lower-cases a user's question and picks one of
three handlers by keyword: structured data (SQL), live web search, or
knowledge retrieval from a vector store (RAG). Each handler wraps a hosted
service and post-processes its answer into a text response.

The model covers:

- both supervisors, `main.py` and `check.py`, as two rule lists for one
  generic "first firing rule wins, else fallback" router;
- the `main.py` graph nodes (the SQL template, the search default, the RAG
  list/pass-through branch) and its `exit` test;
- the `check.py` placeholder tools and agents;
- the SQL handler of `agents/sql_agent.py`: code-fence cleaning, the
  few-shot prompt, the empty-statement guard and the generate-then-execute
  composition;
- the search handler of `agents/search_agent.py`: result-shape dispatch,
  top-three formatting and the 500-character cut;
- the RAG handler of `agents/rag_agent.py`: the 0.15 score threshold, the
  short-circuits, the `doc_texts` bullet list, the prompt, and the
  insert-if-empty start-up ingestion.

Every hosted service is outside the model:

- The language model is a parameter `string -> Completion` (a completion or
  an exception), so the prompt it receives is part of the contract.
- The database is a parameter `string -> DbOutcome`: rows, a connection
  failure, or another error with its message.
- The search engine's answer, the vector store's scored neighbours, the
  start-up probe and the corpus loading are input values.

Handlers return a trace that records what was sent out. `SqlTrace.executed`
is the statement given to the database, if any. `RagTrace.prompt` is the
prompt given to the language model, if any. This makes "never touches the
database" and "never calls the language model" statable.

Files: `text.dfy` (Python string operations), `router.dfy`, `main_flow.dfy`,
`check_flow.dfy`, `sql_agent.dfy`, `search_agent.dfy`, `rag_agent.dfy`,
`llm.dfy`, `wrappers.dfy`.

Totality of the router holds by construction. `Router.Intent` has exactly
the three handlers as constructors. `Router.Route` always returns either the
fallback or the intent of one of its rules.

## Notes on the code

- "Show me all orders placed in the last week." holds no trigger word of
  main.py:15-25 or check.py:42-45 ("last" is not "latest", and "list" does
  not occur). So both supervisors send it to the default, the knowledge
  handler. This is a reading of the word lists, not a proved lemma.
- main.py's `sql_agent` node (main.py:32-34) only fills in a template and
  never calls `agents/sql_agent.py`. `MainFlow.SqlAgentNode` models the
  template. `SqlAgent.PostgresqlAgent` models the handler on its own.
- The vector store is initialised once, at import (agents/rag_agent.py:67).
  `RagAgent.InitializeVectorStore` models that one decision.

## Model

| member | source | states |
|---|---|---|
| Text.ContainsIffOccurs | main.py:15 | Python's `word in query` holds exactly when the word sits at some index of the query |
| Text.Lower | main.py:12 | `lower()` keeps the length, maps every upper-case ASCII letter to its lower-case letter and every other character to itself |
| Text.Take | agents/search_agent.py:25 | `s[:n]` is the prefix of length `n`, or the whole sequence when it is shorter |
| Text.ContainsLower | main.py:12-15 | a word occurring in any mix of cases still occurs after both are lower-cased, so matching is case-insensitive |
| Text.LeadingSpaces | agents/sql_agent.py:60 | `lstrip()` drops exactly the leading whitespace: everything before the cut is whitespace and the first kept character is not |
| Text.TrailingStart | agents/sql_agent.py:60 | `rstrip()` drops exactly the trailing whitespace: everything after the cut is whitespace and the last kept character is not |
| Text.Strip | agents/sql_agent.py:60 | `strip()` leaves no whitespace at either end and never lengthens the text |
| Text.StripRemovesPadding | agents/sql_agent.py:60 | the input is whitespace, then the stripped text, then whitespace |
| Text.StripPadded | agents/sql_agent.py:60 | stripping a trimmed text padded with whitespace on both sides recovers exactly that text |
| Text.StripKeepsAbsence | agents/sql_agent.py:60 | stripping cannot create an occurrence of a pattern |
| Text.ReplaceAll | agents/sql_agent.py:60 | `replace` leaves a text without the pattern unchanged and, replacing by something no longer, never lengthens it |
| Text.ReplaceAllSkipsPrefix | agents/sql_agent.py:60 | a prefix holding no character that could start the pattern is copied through by `replace` |
| Text.SplitJoin | agents/search_agent.py:18-20 | splitting a newline-joined list of newline-free lines at newlines gives the list back |
| Router.Route | main.py:15-29 | the if/elif chain always answers either the fallback or the intent of one of its rules |
| Router.RouteIsFirstMatch | main.py:15-29 | the first rule with a trigger in the query decides, and the fallback applies exactly when no rule fires |
| Router.Supervise | main.py:12 | the query passed on is the input lower-cased, same length, with no upper-case ASCII letter |
| MainFlow.RulesDecide | main.py:15-29 | search words beat knowledge words, which beat data words; a query with none of them goes to the knowledge handler |
| MainFlow.SupervisorAgent | main.py:11-29 | next step is search iff a search word occurs; data iff no search or knowledge word but a data word occurs; knowledge otherwise (no trigger at all included); the lower-cased query is passed on |
| MainFlow.SearchWordWins | main.py:12-17 | a search word in any case sends the query to search whatever else it contains |
| MainFlow.RagWordBeatsSqlWord | main.py:19-25 | without a search word, a knowledge word in any case sends the query to the knowledge handler even when a data word also occurs |
| MainFlow.LatestTotalSalesIsSearch | main.py:15-17 | "Latest total sales" goes to search although "total" is a data word |
| MainFlow.SqlAgentNode | main.py:32-34 | the reply is `SQL Agent: Retrieved structured data for '<query>'.` with the query readable between the fixed parts; nothing is executed |
| MainFlow.SqlAgentNodeInjective | main.py:34 | different queries give different template replies |
| MainFlow.SearchAgentNode | main.py:37-40 | the node answers the handler's `response` entry, or "No search results found." when it is missing |
| MainFlow.SearchDefaultUnused | main.py:39-40 | wired to the search handler, whenever the handler returns, the node's default never applies: the answer is the handler's error message for a failed `invoke` or its formatting |
| MainFlow.TopContents | main.py:50 | the page contents of the first three documents, in order |
| MainFlow.RagAgentNode | main.py:43-58 | a document list gives its first three page contents joined by newlines, any other value passes through, an exception gives "RAG Agent encountered an error." |
| MainFlow.RagListLines | main.py:49-50 | read line by line, the list branch yields one line per document among the first three, in order |
| MainFlow.RagAgentWired | main.py:47-52 | wired to the RAG handler, which always answers text, the node returns the handler's answer unchanged |
| MainFlow.IsExit | main.py:82 | the loop stops exactly on a four-character input spelling `exit` in any case |
| MainFlow.ExitSpellings | main.py:82 | `exit`, `EXIT` and `Exit` stop the loop; ` exit`, `exit ` and `quit` do not |
| CheckFlow.RulesDecide | check.py:42-47 | data words beat search words; a query with neither goes to the knowledge handler |
| CheckFlow.SupervisorAgent | check.py:39-47 | next step is data iff `database` or `sql` occurs; search iff neither but `search` or `find` does; knowledge otherwise; the lower-cased query is passed on |
| CheckFlow.FindSqlIsSql | check.py:42-45 | "Find the SQL tables" goes to the data handler although `find` is a search word |
| CheckFlow.Tool | check.py:8-18 | each placeholder tool answers its fixed prefix followed by exactly the query |
| CheckFlow.ToolInjective | check.py:8-18 | a tool's text determines both the tool and the query |
| CheckFlow.Agent | check.py:21-36 | each agent's reply has `response` as its only key, holding the tool's text for the query |
| SqlAgent.RemoveFencesLeavesNone | agents/sql_agent.py:60 | deleting every "```" left to right leaves no "```" behind |
| SqlAgent.CleanSql | agents/sql_agent.py:58-60 | the cleaned statement contains no "```" and has no whitespace at either end |
| SqlAgent.CleanSqlUnfenced | agents/sql_agent.py:60 | text without "```" (so any backtick-free text) is only stripped |
| SqlAgent.CleanSqlIdempotent | agents/sql_agent.py:58-60 | cleaning twice gives the same as cleaning once |
| SqlAgent.CleanSqlFenced | agents/sql_agent.py:36-38 | "```sql\n<stmt>\n```" with a backtick-free, trimmed statement cleans to exactly the statement |
| SqlAgent.SqlPrompt | agents/sql_agent.py:64 | the prompt is the few-shot examples, then `\nUser Input: "`, the input, and `"\nSQL:`; the input is readable between the fixed parts |
| SqlAgent.GenerateSqlQuery | agents/sql_agent.py:62-80 | no statement exactly when the model raises; otherwise the cleaned reply, unfenced and trimmed |
| SqlAgent.ExecuteSqlQuery | agents/sql_agent.py:82-101 | a missing or empty statement gives "❌ No valid SQL query to execute." without touching the database; otherwise the statement is run and rows, connection failure and other errors map to their results |
| SqlAgent.PostgresqlAgent | agents/sql_agent.py:103-107 | the database is reached exactly when the model answers and its reply cleans to a non-empty statement; that statement is the cleaned reply, and its rows, connection failure or other error come back as `execute_sql_query` maps them; otherwise the refusal is returned |
| SearchAgent.FormatEntry | agents/search_agent.py:19 | a line is `- <title>: <link>`, with "No Title" and "No Link" for missing keys |
| SearchAgent.TopLines | agents/search_agent.py:18-20 | one formatted line per entry among the first three, in order |
| SearchAgent.FormatResults | agents/search_agent.py:16-29 | a list of dicts gives its top lines joined by newlines (the empty list gives ""); a string gives its first 500 characters, unchanged if no longer; any other shape gives "No relevant search results found." |
| SearchAgent.ListResultLines | agents/search_agent.py:17-20 | read line by line, a non-empty list of dicts yields at most three lines, one per leading entry, in order |
| SearchAgent.Respond | agents/search_agent.py:12-35 | the reply's only key is `response`; an exception raised by `invoke` gives "Search Agent encountered an error.", a returned value its formatting |
| RagAgent.Relevant | agents/rag_agent.py:81 | kept snippets are exactly the retrieved ones scored at least 0.15 |
| RagAgent.RelevantAppend | agents/rag_agent.py:81 | filtering preserves the retrieved order |
| RagAgent.Bullets | agents/rag_agent.py:87 | one `- <content>` line per kept snippet |
| RagAgent.DocTextsLines | agents/rag_agent.py:87 | read line by line, `doc_texts` is one bullet per kept snippet, in order |
| RagAgent.RagPrompt | agents/rag_agent.py:90-102 | the prompt quotes both the query and `doc_texts` |
| RagAgent.Ask | agents/rag_agent.py:104-109 | the model's answer is returned, or the apology when it raises, and the prompt is recorded |
| RagAgent.RetrieveRagResponse | agents/rag_agent.py:70-109 | no store gives the not-initialised message; a retrieval failure gives the apology; nothing over the threshold gives the clarification request; the model is consulted exactly in the remaining case, with the prompt built from the query and the kept snippets |
| RagAgent.InitializeVectorStore | agents/rag_agent.py:29-64 | the corpus is stored only when the probe finds nothing; a populated store is returned unchanged; any failure gives no store |
| RagAgent.InitializeTwice | agents/rag_agent.py:37-58 | with a probe that finds something exactly when the store is non-empty, a second initialisation changes nothing |

## Left out

- `agents/postgresql_agent.py`: both of its functions are direct language-model and database calls with no cleaning and no empty-statement guard.
- `try.py`: a demonstration script whose arithmetic tools are floating point over model-driven agents.
- Graph wiring and execution (main.py:61-75, check.py:50-67), the interactive input and print loop (main.py:78-87) and `run_workflow`. Only the `exit` test is modelled.
- Logging, `.env` loading, environment configuration and the start-up `ValueError` on a missing API key (agents/sql_agent.py:19-21).
- The hosted services themselves: Groq completions, HuggingFace embeddings, PGVector search and `from_texts`, `PyPDFLoader`, `RecursiveCharacterTextSplitter` chunking, DuckDuckGo and `psycopg2`. Their answers are inputs.
- Text.Lower: lower-cases ASCII letters only, not all of Unicode as Python's `lower()` does. The trigger words are ASCII, but a non-ASCII letter whose lower case is ASCII (the Kelvin sign) is not folded.
- SearchAgent.Respond: the search tool is constructed before the `try` (agents/search_agent.py:11). A failure there escapes `searchAgent` and main.py's `search_agent` node, so neither the error message nor the node's default applies to it. The model covers only failures of `invoke`.
- Router.Supervise: the query is lower-cased by `Text.Lower`, so the same ASCII-only restriction applies.
- Text.Strip: strips ASCII whitespace, including U+001C..U+001F, but not the non-ASCII characters Python's `isspace` also accepts.
- RagAgent.Relevant: scores are exact reals compared with 0.15, not IEEE doubles.
- RagAgent.RetrieveRagResponse: the retrieved neighbours are an input that does not depend on the query. The store's limit of five neighbours (`k=5`) is not enforced. Exceptions raised while formatting the prompt are not modelled.
- SearchAgent.FormatEntry: dictionary values are given as the text the f-string prints for them. Rendering of non-string values is not modelled.
- SqlAgent.GenerateSqlQuery: a completion whose content is `None`, which makes `clean_sql` raise and the function return `None`, is folded into the "raised" outcome.
- SqlAgent.ExecuteSqlQuery: whether psycopg2 classifies a failure as `OperationalError` is part of the database's answer. Rows are sequences of rendered strings.
- MainFlow.RagAgentNode: documents lacking `page_content` raise in the source. That case is not modelled separately; the exception branch is the `Failed` input.
