/** The budget controller of the autonomous agent: loop detection and limits on steps, searches and web searches. */
module Planner {
  import opened Common

  type Args = map<string, string>

  datatype Entry = Entry(tool: string, args: Args)

  datatype Limits = Limits(steps: int, searches: int, webSearches: int)

  datatype Check = Allowed | LoopDetected | SearchBudgetExceeded | WebBudgetExceeded

  const LEGAL_SEARCH := "search_legal_provisions"
  const WEB_SEARCH := "search_web_official"

  predicate IsSearch(tool: string) { tool == LEGAL_SEARCH || tool == WEB_SEARCH }

  function Max(a: int, b: int): int { if a < b then b else a }

  function Min(a: int, b: int): int { if a < b then a else b }

  function Controller(maxSteps: int, maxSearchCalls: int, maxWebCalls: int): Limits {
    Limits(Max(1, maxSteps), Max(1, maxSearchCalls), Max(0, maxWebCalls))
  }

  function Searches(history: seq<Entry>): nat {
    if history == [] then 0
    else Searches(history[..|history| - 1]) + if IsSearch(history[|history| - 1].tool) then 1 else 0
  }

  function WebSearches(history: seq<Entry>): nat {
    if history == [] then 0
    else WebSearches(history[..|history| - 1]) + if history[|history| - 1].tool == WEB_SEARCH then 1 else 0
  }

  function CheckToolCall(l: Limits, call: Entry, history: seq<Entry>): Check {
    if call in history then LoopDetected
    else if IsSearch(call.tool) && Searches(history) >= l.searches then SearchBudgetExceeded
    else if call.tool == WEB_SEARCH && WebSearches(history) >= l.webSearches then WebBudgetExceeded
    else Allowed
  }

  lemma OneMore(history: seq<Entry>, e: Entry)
    ensures Searches(history + [e]) == Searches(history) + if IsSearch(e.tool) then 1 else 0
    ensures WebSearches(history + [e]) == WebSearches(history) + if e.tool == WEB_SEARCH then 1 else 0
  {
    assert (history + [e])[..|history|] == history;
  }

  // ---- whole runs ----

  /** Each call of the history was decided from the calls before it, denied ones included. */
  ghost predicate Governed(l: Limits, history: seq<Entry>, allowed: seq<bool>) {
    && |history| == |allowed|
    && forall i :: 0 <= i < |history| ==> (allowed[i] <==> CheckToolCall(l, history[i], history[..i]) == Allowed)
  }

  /** The calls that were executed, in order. */
  function Executed(history: seq<Entry>, allowed: seq<bool>): seq<Entry>
    requires |history| == |allowed|
  {
    if history == [] then []
    else
      var n := |history| - 1;
      Executed(history[..n], allowed[..n]) + if allowed[n] then [history[n]] else []
  }

  ghost predicate WithinBudgets(l: Limits, executed: seq<Entry>) {
    Distinct(executed) && Searches(executed) <= l.searches && WebSearches(executed) <= l.webSearches
  }

  lemma {:induction false} ExecutedIsCounted(l: Limits, history: seq<Entry>, allowed: seq<bool>)
    requires |history| == |allowed|
    ensures Searches(Executed(history, allowed)) <= Searches(history)
    ensures WebSearches(Executed(history, allowed)) <= WebSearches(history)
    ensures forall e :: e in Executed(history, allowed) ==> e in history
  {
    if history != [] {
      var n := |history| - 1;
      var front, before, last := history[..n], Executed(history[..n], allowed[..n]), history[n];
      assert Executed(history, allowed) == if allowed[n] then before + [last] else before;
      assert history == front + [last];
      hide Executed, Searches, WebSearches, IsSearch;
      ExecutedIsCounted(l, front, allowed[..n]);
      OneMore(before, last);
      OneMore(front, last);
    }
  }

  lemma {:induction false} GovernedPrefix(l: Limits, history: seq<Entry>, allowed: seq<bool>, n: nat)
    requires Governed(l, history, allowed) && n <= |history|
    ensures Governed(l, history[..n], allowed[..n])
  {
    forall i | 0 <= i < n
      ensures allowed[..n][i] <==> CheckToolCall(l, history[..n][i], history[..n][..i]) == Allowed
    {
      assert history[..n][..i] == history[..i];
    }
  }

  lemma GovernedMore(l: Limits, history: seq<Entry>, allowed: seq<bool>, e: Entry, verdict: bool)
    requires Governed(l, history, allowed) && (verdict <==> CheckToolCall(l, e, history) == Allowed)
    ensures Governed(l, history + [e], allowed + [verdict])
    ensures Executed(history + [e], allowed + [verdict]) ==
            Executed(history, allowed) + if verdict then [e] else []
  {
    hide CheckToolCall;
    var n := |history|;
    assert (history + [e])[..n] == history && (allowed + [verdict])[..n] == allowed;
    forall i | 0 <= i < n
      ensures (history + [e])[..i] == history[..i]
      ensures allowed[i] <==> CheckToolCall(l, history[i], history[..i]) == Allowed
    {
    }
  }

  lemma OneMoreExecuted(l: Limits, executed: seq<Entry>, history: seq<Entry>, call: Entry)
    requires WithinBudgets(l, executed) && CheckToolCall(l, call, history) == Allowed
    requires Searches(executed) <= Searches(history) && WebSearches(executed) <= WebSearches(history)
    requires forall e :: e in executed ==> e in history
    ensures WithinBudgets(l, executed + [call])
  {
    OneMore(executed, call);
    hide Searches, WebSearches, IsSearch;
  }

  /** Executed calls never repeat and stay within both budgets, over every run. */
  lemma {:induction false} ExecutionsStayWithinBudgets(l: Limits, history: seq<Entry>, allowed: seq<bool>)
    requires Governed(l, history, allowed) && 0 <= l.searches && 0 <= l.webSearches
    ensures WithinBudgets(l, Executed(history, allowed))
  {
    if history != [] {
      var n := |history| - 1;
      GovernedPrefix(l, history, allowed, n);
      ExecutionsStayWithinBudgets(l, history[..n], allowed[..n]);
      ExecutedIsCounted(l, history[..n], allowed[..n]);
      var before := Executed(history[..n], allowed[..n]);
      assert Executed(history, allowed) == before + if allowed[n] then [history[n]] else [];
      hide Executed, Searches, WebSearches, WithinBudgets, CheckToolCall;
      if allowed[n] {
        OneMoreExecuted(l, before, history[..n], history[n]);
      } else {
        assert before + [] == before;
      }
    }
  }

  lemma {:induction false} SearchesGrow(history: seq<Entry>, i: nat, j: nat)
    requires i <= j <= |history|
    ensures Searches(history[..i]) <= Searches(history[..j])
    ensures WebSearches(history[..i]) <= WebSearches(history[..j])
    decreases j
  {
    if i < j {
      SearchesGrow(history, i, j - 1);
      assert history[..j][..j - 1] == history[..j - 1];
    }
  }

  /** A denial is permanent: the same call is never executed later, and once a budget is spent no call it covers is. */
  lemma {:induction false} DenialsArePermanent(l: Limits, history: seq<Entry>, allowed: seq<bool>, i: nat, j: nat)
    requires Governed(l, history, allowed) && i < j < |history|
    ensures history[j] == history[i] ==> !allowed[j]
    ensures Searches(history[..i]) >= l.searches && IsSearch(history[j].tool) ==> !allowed[j]
    ensures WebSearches(history[..i]) >= l.webSearches && history[j].tool == WEB_SEARCH ==> !allowed[j]
  {
    assert history[..j][i] == history[i];
    SearchesGrow(history, i, j);
  }

  /** Denied calls count: under a limit of two, one executed search and its repetition leave no room for another. */
  lemma RepetitionsSpendTheBudget()
    ensures var a, b := Entry(LEGAL_SEARCH, map[]), Entry(LEGAL_SEARCH, map["query" := "b"]);
            Governed(Limits(5, 2, 0), [a, a, b], [true, false, false])
            && Searches(Executed([a, a, b], [true, false, false])) == 1
  {
    var a, b := Entry(LEGAL_SEARCH, map[]), Entry(LEGAL_SEARCH, map["query" := "b"]);
    var history, allowed := [a, a, b], [true, false, false];
    assert "query" in b.args && "query" !in a.args;
    assert history[..0] == [] && history[..1] == [a] && history[..2] == [a, a] && [a, a][..1] == [a] && [a][..0] == [];
    assert allowed[..2] == [true, false] && [true, false][..1] == [true] && [true][..0] == [];
    assert Executed([a], [true]) == [a];
    assert Executed([a, a], [true, false]) == [a];
    assert Executed(history, allowed) == [a];
    assert Searches([a]) == 1 && Searches([a, a]) == 2;
  }

  /** The positions of the searches of a history, or of its web searches only. */
  function Positions(history: seq<Entry>, webOnly: bool): set<nat> {
    set i: nat | i < |history| && Covers(webOnly, history[i].tool)
  }

  predicate Covers(webOnly: bool, tool: string) { if webOnly then tool == WEB_SEARCH else IsSearch(tool) }

  lemma PositionsOfPrefix(history: seq<Entry>, webOnly: bool)
    requires history != []
    ensures var n := |history| - 1;
            |Positions(history, webOnly)| ==
            |Positions(history[..n], webOnly)| + if Covers(webOnly, history[n].tool) then 1 else 0
  {
    hide Covers;
    var n: nat := |history| - 1;
    var now, before := Positions(history, webOnly), Positions(history[..n], webOnly);
    forall i: nat
      ensures i in now <==> i in before || (i == n && Covers(webOnly, history[n].tool))
    {
      if i < n {
        assert history[..n][i] == history[i];
      }
    }
    hide Positions;
    assert now == before + if Covers(webOnly, history[n].tool) then {n} else {};
    assert n !in before;
  }

  lemma {:induction false} CountsAreSizes(history: seq<Entry>)
    ensures Searches(history) == |Positions(history, false)|
    ensures WebSearches(history) == |Positions(history, true)|
  {
    if history == [] {
      assert Positions(history, false) == {} && Positions(history, true) == {};
    } else {
      CountsAreSizes(history[..|history| - 1]);
      PositionsOfPrefix(history, false);
      PositionsOfPrefix(history, true);
    }
  }

  /** A search that reaches the check passes exactly when it repeats nothing and both budgets still have room. */
  lemma PassesExactly(l: Limits, call: Entry, history: seq<Entry>)
    requires IsSearch(call.tool)
    ensures CheckToolCall(l, call, history) == Allowed <==>
            && (forall i :: 0 <= i < |history| ==> history[i] != call)
            && |Positions(history, false)| < l.searches
            && (call.tool == WEB_SEARCH ==> |Positions(history, true)| < l.webSearches)
  {
    CountsAreSizes(history);
  }

  // ---- steps ----

  function StepLimit(configured: int, requested: Option<int>): int {
    if requested.None? then configured else Max(1, Min(configured, requested.value))
  }

  predicate WithinStepBudget(l: Limits, step: int) { step < l.steps }

}
