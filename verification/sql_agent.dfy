/** The structured-data handler of `agents/sql_agent.py`: a few-shot prompt
    asks the language model for a statement, the reply is cleaned of Markdown
    code fences, and the statement is run against the database unless it is
    empty or missing. The language model and the database are parameters. */
module SqlAgent {
  import opened Text
  import opened Wrappers
  import opened Llm

  /** The Markdown code fence the model wraps its statements in. */
  const Fence: string := "```"
  /** The opening fence with its language tag. */
  const SqlFence: string := "```sql"

  const NoQuery: string := "\U{274C} No valid SQL query to execute."
  const ConnectFailed: string := "\U{274C} Failed to connect to the database. Check DB settings."
  const ExecutePrefix: string := "\U{274C} Error executing query: "

  /** The keycap digit the prompt numbers its examples with. */
  function Keycap(d: char): string {
    [d] + "\U{FE0F}\U{20E3}"
  }

  /** The fixed schema description and examples that precede every request. */
  const FewShotExamples: string :=
    "\nYour task is to generate SQL queries for a PostgreSQL database using the schema provided. DO NOT include explanations, just return the SQL query.\n"
    + "\nDatabase Schema:\n"
    + "- `products` table: (`id`, `name`, `price`, `category`)\n"
    + "- `users` table: (`id`, `name`, `email`, `created_at`)\n"
    + "- `orders` table: (`id`, `order_date`, `total_amount`, `userId`)\n"
    + "\nExamples:\n"
    + Keycap('1') + " User Input: \"Get the price of a T-Shirt\"\n"
    + "   SQL: ```sql\n"
    + "   SELECT price FROM products WHERE name = 'T-Shirt';\n"
    + "   ```\n"
    + "\n" + Keycap('2') + " User Input: \"Find users who signed up in the last 30 days\"\n"
    + "   SQL: ```sql\n"
    + "   SELECT * FROM users WHERE created_at >= CURRENT_DATE - INTERVAL '30 days';\n"
    + "   ```\n"
    + "\n" + Keycap('3') + " User Input: \"Show all orders placed by user with ID 5\"\n"
    + "   SQL: ```sql\n"
    + "   SELECT * FROM orders WHERE userId = 5;\n"
    + "   ```\n"
    + "\n" + Keycap('4') + " User Input: \"Get total sales amount for the last 7 days\"\n"
    + "   SQL: ```sql\n"
    + "   SELECT SUM(total_amount) FROM orders WHERE order_date >= CURRENT_DATE - INTERVAL '7 days';\n"
    + "   ```\n"
    + "\nNow, generate a SQL query for the following input:\n"

  /** What the request adds before and after the user's text. */
  const InputOpen: string := "\nUser Input: \""
  const InputClose: string := "\"\nSQL:"

  // ---------------------------------------------------------------------
  // Cleaning the model's reply
  // ---------------------------------------------------------------------

  /** Deletes every fence, scanning left to right. */
  function RemoveFences(s: string): string {
    ReplaceAll(s, Fence, "")
  }

  /** After deleting fences, a string that started with a non-backtick
      still starts with that character. */
  lemma RemoveFencesKeepsHead(t: string)
    requires |t| > 0 && t[0] != '`'
    ensures |RemoveFences(t)| > 0 && RemoveFences(t)[0] == t[0]
  {
    if |t| >= 3 {
      assert t[..3][0] == t[0];
    }
  }

  /** Deleting fences leaves no fence behind: a run of backticks loses
      triples until fewer than three remain. */
  lemma {:induction false} RemoveFencesLeavesNone(s: string)
    ensures !Contains(RemoveFences(s), Fence)
    decreases |s|
  {
    var r := RemoveFences(s);
    if |s| < 3 {
      TooShortNotContained(s, Fence);
    } else if s[..3] == Fence {
      assert |Fence| == 3;
      assert s[..|Fence|] == Fence;
      assert ReplaceAll(s, Fence, "") == "" + ReplaceAll(s[|Fence|..], Fence, "");
      assert r == RemoveFences(s[3..]);
      RemoveFencesLeavesNone(s[3..]);
    } else {
      var t := RemoveFences(s[1..]);
      RemoveFencesLeavesNone(s[1..]);
      assert r == [s[0]] + t;
      assert r[1..] == t;
      if s[0] != '`' {
        assert r[0] != Fence[0];
      } else if |t| >= 2 {
        // The tail cannot begin with two backticks.
        if s[1] != '`' {
          RemoveFencesKeepsHead(s[1..]);
          assert t[0] != '`';
        } else {
          assert s[..3] == [s[0], s[1], s[2]];
          var u := s[1..];
          if |u| >= 3 {
            assert u[..3][1] == s[2];
            RemoveFencesKeepsHead(u[1..]);
          }
          assert t[1] != '`';
        }
        assert r[1] != Fence[1] || r[2] != Fence[2];
      }
      assert !IsPrefix(Fence, r);
    }
  }

  /** `clean_sql`: delete every tagged opening fence, then every remaining
      fence, then strip surrounding whitespace. The result has no fence and
      no whitespace at either end. */
  function CleanSql(raw: string): (r: string)
    ensures !Contains(r, Fence)
    ensures Trimmed(r)
  {
    var unfenced := RemoveFences(ReplaceAll(raw, SqlFence, ""));
    RemoveFencesLeavesNone(ReplaceAll(raw, SqlFence, ""));
    StripKeepsAbsence(unfenced, Fence);
    Strip(unfenced)
  }

  /** A tagged fence contains a plain fence. */
  lemma SqlFenceHasFence(s: string)
    requires Contains(s, SqlFence)
    ensures Contains(s, Fence)
  {
    ContainsInMiddle([], Fence, "sql");
    assert [] + Fence + "sql" == SqlFence;
    ContainsTransitive(s, SqlFence, Fence);
  }

  /** Text without a fence is only stripped: the replacements change
      nothing. In particular this holds for text without a backtick. */
  lemma CleanSqlUnfenced(raw: string)
    requires !Contains(raw, Fence)
    ensures CleanSql(raw) == Strip(raw)
  {
    if Contains(raw, SqlFence) {
      SqlFenceHasFence(raw);
    }
  }

  /** Cleaning is idempotent. */
  lemma CleanSqlIdempotent(raw: string)
    ensures CleanSql(CleanSql(raw)) == CleanSql(raw)
  {
    var c := CleanSql(raw);
    CleanSqlUnfenced(c);
    StripTrimmed(c);
  }

  /** The shape the model is shown in the examples: a statement between a
      tagged opening fence and a closing fence on their own lines. */
  function Fenced(stmt: string): string {
    SqlFence + "\n" + stmt + "\n" + Fence
  }

  /** A fenced statement that is free of backticks and already trimmed is
      cleaned to exactly the statement. */
  lemma CleanSqlFenced(stmt: string)
    requires '`' !in stmt
    requires Trimmed(stmt)
    ensures CleanSql(Fenced(stmt)) == stmt
  {
    var mid := "\n" + stmt + "\n";
    assert forall k :: 0 <= k < |mid| ==> mid[k] != '`';
    var s := Fenced(stmt);
    assert s == SqlFence + (mid + Fence);
    assert s[..|SqlFence|] == SqlFence;
    assert s[|SqlFence|..] == mid + Fence;
    ReplaceAllSkipsPrefix(mid, Fence, SqlFence, "");
    assert ReplaceAll(Fence, SqlFence, "") == Fence;
    assert ReplaceAll(s, SqlFence, "") == mid + Fence;
    ReplaceAllSkipsPrefix(mid, Fence, Fence, "");
    assert Fence[..3] == Fence;
    assert Fence[3..] == [];
    assert RemoveFences(Fence) == "";
    assert RemoveFences(mid + Fence) == mid;
    StripPadded("\n", stmt, "\n");
  }

  // ---------------------------------------------------------------------
  // Generation, execution and their composition
  // ---------------------------------------------------------------------

  /** The request sent to the model: the examples, then the user's text in
      quotes, then an open `SQL:` line. The user's text can be read back
      from between the fixed parts. */
  function SqlPrompt(userInput: string): (p: string)
    ensures IsPrefix(FewShotExamples + InputOpen, p)
    ensures |p| == |FewShotExamples| + |InputOpen| + |userInput| + |InputClose|
    ensures p[|FewShotExamples| + |InputOpen|..|p| - |InputClose|] == userInput
    ensures p[|p| - |InputClose|..] == InputClose
  {
    FewShotExamples + InputOpen + userInput + InputClose
  }

  /** `generate_sql_query`: ask the model and clean its reply; `None` when the
      call raises. A statement it returns is never fenced and never padded. */
  function GenerateSqlQuery(userInput: string, llm: string -> Completion): (r: Option<string>)
    ensures r.None? <==> llm(SqlPrompt(userInput)).Raised?
    ensures r.Some? ==> r.value == CleanSql(llm(SqlPrompt(userInput)).text)
    ensures r.Some? ==> !Contains(r.value, Fence) && Trimmed(r.value)
  {
    match llm(SqlPrompt(userInput))
    case Completed(raw) => Some(CleanSql(raw))
    case Raised => None
  }

  /** What the database does with a statement: rows, a connection failure
      (`psycopg2.OperationalError`), or another error with its message. */
  datatype DbOutcome = Rows(rows: seq<seq<string>>) | OperationalError | QueryError(message: string)

  /** What `execute_sql_query` returns: the fetched rows or a message. */
  datatype SqlResult = Fetched(rows: seq<seq<string>>) | Message(text: string)

  /** The result, together with the statement sent to the database, if any. */
  datatype SqlTrace = SqlTrace(result: SqlResult, executed: Option<string>)

  /** `execute_sql_query`: a missing or empty statement is refused without
      touching the database; otherwise the statement is run and a failure is
      reported as a message. */
  function ExecuteSqlQuery(sql: Option<string>, db: string -> DbOutcome): (r: SqlTrace)
    ensures r.executed.None? <==> (sql.None? || sql.value == "")
    ensures r.executed.None? ==> r.result == Message(NoQuery)
    ensures r.executed.Some? ==> r.executed.value == sql.value
    ensures r.executed.Some? && db(sql.value).Rows? ==> r.result == Fetched(db(sql.value).rows)
    ensures r.executed.Some? && db(sql.value).OperationalError? ==> r.result == Message(ConnectFailed)
    ensures r.executed.Some? && db(sql.value).QueryError? ==>
              r.result == Message(ExecutePrefix + db(sql.value).message)
  {
    if sql.None? || sql.value == "" then SqlTrace(Message(NoQuery), None)
    else
      var outcome := match db(sql.value)
        case Rows(rows) => Fetched(rows)
        case OperationalError => Message(ConnectFailed)
        case QueryError(m) => Message(ExecutePrefix + m);
      SqlTrace(outcome, Some(sql.value))
  }

  /** `postgresql_agent`: generate, then execute. A failed generation, or a
      reply that is nothing but fences and whitespace, ends in the refusal
      message and never reaches the database. Every other reply reaches it
      as a non-empty, unfenced, trimmed statement, and the database's answer
      is returned: its rows, or the message for its failure. */
  function PostgresqlAgent(userInput: string, llm: string -> Completion, db: string -> DbOutcome): (r: SqlTrace)
    ensures llm(SqlPrompt(userInput)).Raised? ==> r == SqlTrace(Message(NoQuery), None)
    ensures llm(SqlPrompt(userInput)).Completed? && CleanSql(llm(SqlPrompt(userInput)).text) == "" ==>
              r == SqlTrace(Message(NoQuery), None)
    ensures r.executed.Some? ==>
              var stmt := r.executed.value;
              stmt != "" && !Contains(stmt, Fence) && Trimmed(stmt)
              && stmt == CleanSql(llm(SqlPrompt(userInput)).text)
    ensures r.executed.Some? <==>
              llm(SqlPrompt(userInput)).Completed? && CleanSql(llm(SqlPrompt(userInput)).text) != ""
    ensures r.executed.Some? && db(r.executed.value).Rows? ==> r.result == Fetched(db(r.executed.value).rows)
    ensures r.executed.Some? && db(r.executed.value).OperationalError? ==> r.result == Message(ConnectFailed)
    ensures r.executed.Some? && db(r.executed.value).QueryError? ==>
              r.result == Message(ExecutePrefix + db(r.executed.value).message)
  {
    ExecuteSqlQuery(GenerateSqlQuery(userInput, llm), db)
  }
}
