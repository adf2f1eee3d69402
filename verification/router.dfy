/** The keyword router both supervisors are built on: the query is
    lower-cased, then an ordered list of rules is tried, each rule firing when
    any of its trigger words occurs in the query as a substring; the first
    rule that fires decides the handler, and a fixed fallback applies when
    none does. */
module Router {
  import opened Text

  /** The three handlers a query can be sent to. */
  datatype Intent = Search | Rag | Sql

  /** One routing rule: the handler it selects and the words that trigger it. */
  datatype Rule = Rule(intent: Intent, triggers: seq<string>)

  /** The supervisor's output: the chosen handler and the normalised query
      passed on to it. */
  datatype Decision = Decision(next: Intent, query: string)

  /** Python's `any(word in q for word in words)`. */
  predicate AnyIn(words: seq<string>, q: string) {
    exists k :: 0 <= k < |words| && Contains(q, words[k])
  }

  predicate Fires(rule: Rule, q: string) {
    AnyIn(rule.triggers, q)
  }

  /** The if/elif chain: the first rule that fires on `q` wins, otherwise
      `fallback`. The answer is always the fallback or some rule's intent. */
  function Route(rules: seq<Rule>, fallback: Intent, q: string): (r: Intent)
    ensures r == fallback || exists k :: 0 <= k < |rules| && rules[k].intent == r
    decreases |rules|
  {
    if |rules| == 0 then fallback
    else if Fires(rules[0], q) then rules[0].intent
    else Route(rules[1..], fallback, q)
  }

  /** Rule `k` is the first rule that fires on `q`. */
  ghost predicate FirstFiring(rules: seq<Rule>, q: string, k: int) {
    && 0 <= k < |rules|
    && Fires(rules[k], q)
    && forall j :: 0 <= j < k ==> !Fires(rules[j], q)
  }

  /** Reference semantics of `Route`: the first firing rule decides, and the
      fallback is used exactly when no rule fires. */
  lemma {:induction false} RouteIsFirstMatch(rules: seq<Rule>, fallback: Intent, q: string)
    ensures forall k :: FirstFiring(rules, q, k) ==> Route(rules, fallback, q) == rules[k].intent
    ensures (forall k :: 0 <= k < |rules| ==> !Fires(rules[k], q)) ==> Route(rules, fallback, q) == fallback
    decreases |rules|
  {
    if |rules| > 0 && !Fires(rules[0], q) {
      RouteIsFirstMatch(rules[1..], fallback, q);
      forall k | FirstFiring(rules, q, k)
        ensures Route(rules, fallback, q) == rules[k].intent
      {
        assert FirstFiring(rules[1..], q, k - 1);
      }
      if forall k :: 0 <= k < |rules| ==> !Fires(rules[k], q) {
        assert forall k :: 0 <= k < |rules[1..]| ==> !Fires(rules[1..][k], q) by {
          forall k | 0 <= k < |rules[1..]|
            ensures !Fires(rules[1..][k], q)
          {
            assert rules[1..][k] == rules[k + 1];
          }
        }
      }
    }
  }

  /** A supervisor: lower-case the query, then route it. The decision only
      depends on the lower-cased query, which is also what is passed on. */
  function Supervise(rules: seq<Rule>, fallback: Intent, raw: string): (d: Decision)
    ensures d.query == Lower(raw)
    ensures |d.query| == |raw|
    ensures forall i :: 0 <= i < |raw| ==> !IsUpper(d.query[i])
  {
    LowerIsLower(raw);
    var q := Lower(raw);
    Decision(Route(rules, fallback, q), q)
  }
}
