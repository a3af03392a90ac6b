/** What the executor plugs into the graph, and what it persists when a run is over. */
module Executor {
  import opened Wrappers
  import opened Sequences
  import opened Chunking
  import opened AgentGraph

  // ---------------------------------------------------------------------------------------------
  // Evidence
  // ---------------------------------------------------------------------------------------------

  function RowsFound(s: State): seq<string> { First(s.results, DataAnalysis).rows }
  function CitationsFound(s: State): seq<string> { First(s.results, KnowledgeResearch).citations }

  /** There is something to base an answer on. */
  predicate Evidence(s: State) { RowsFound(s) != [] || CitationsFound(s) != [] }

  /** The payload `synthesize` returns: the evidence it looked up by name, and a direct answer that is
      never empty; the answer plan has no field that asks for approval. */
  predicate FromEvidence(s: State, a: Answer) {
    a.direct != "" && a.rows == RowsFound(s) && a.citations == CitationsFound(s) && !a.requiresApproval
  }

  /** The executor's `verify`. */
  function Judge(s: State): Verdict {
    if s.answer.None? || s.answer.value.direct == "" then
      Verdict(false, Some("the answer has no direct answer"), Some(Synthesize))
    else if s.answer.value.rows == [] && s.answer.value.citations == [] then
      Verdict(false, Some("no verifiable evidence"), Some(Synthesize))
    else Verdict(true, None, None)
  }

  /** The executor's services gave this answer, or these answers. */
  predicate Serves(c: Config, i: Input) {
    match i
    case Answered(a) => FromEvidence(c.s, a)
    case Judged(v) => v == Judge(c.s)
    case _ => true
  }

  predicate ByExecutor(c: Config, run: seq<Input>)
    decreases |run|
  {
    run == [] ||
    (var next := Step(c, run[0]);
     next.Some? && Serves(c, run[0]) && ByExecutor(next.value, run[1..]))
  }

  predicate AnswerOk(s: State) { s.answer.Some? && FromEvidence(s, s.answer.value) && !s.requiresApproval }

  predicate Concluded(s: State) {
    AnswerOk(s) && (s.verified <==> Evidence(s)) && Retries(s) == if s.verified then 0 else 2
  }

  /** What holds from the synthesis on. */
  predicate EvidenceFit(c: Config) {
    match c.at
    case Synthesize => Retries(c.s) > 0 ==> !Evidence(c.s)
    case Verify => AnswerOk(c.s) && (Retries(c.s) > 0 ==> !Evidence(c.s))
    case ApprovalGate => false
    case Complete => Concluded(c.s)
    case End => Concluded(c.s)
    case _ => true
  }

  lemma EvidenceStep(c: Config, i: Input, n: Counts)
    requires EvidenceFit(c) && CountsFit(c, n) && Step(c, i).Some? && Serves(c, i)
    ensures EvidenceFit(Step(c, i).value)
  {
    hide First;
    StepAddsResults(c, i);
    var d := Step(c, i).value;
    if Later(c.at) {
      LaterStays(c, i);
      assert d.s.results == c.s.results;
    }
  }

  lemma {:induction false} PlayEvidence(thread: State, c: Config, run: seq<Input>)
    requires EvidenceFit(c) && Inv(thread, c) && ByExecutor(c, run)
    ensures Play(c, run).Some? && EvidenceFit(Play(c, run).value) && Inv(thread, Play(c, run).value)
    decreases |run|
  {
    hide EvidenceFit, CountsFit, CountsOf, Step, Serves;
    if run != [] {
      EvidenceStep(c, run[0], CountsOf(Own(thread, c.s)));
      StepKeeps(thread, c, run[0]);
      PlayEvidence(thread, Step(c, run[0]).value, run[1..]);
    }
  }

  /** A run of the executor never waits for approval; it is completed exactly when there is evidence;
      and a second answer never helps, because it is written from the same evidence: the answer is
      written once if there is evidence, and twice in vain if there is none. */
  lemma CompletedExactlyWithEvidence(thread: State, run: seq<Input>)
    requires ByExecutor(Start(thread), run)
    ensures Play(Start(thread), run).Some? && Play(Start(thread), run).value.at != ApprovalGate
    ensures var c := Play(Start(thread), run).value;
      c.at == End ==>
        && (c.s.completed <==> Evidence(c.s)) && AnswerOk(c.s)
        && CountsOf(Own(thread, c.s)).written == (if Evidence(c.s) then 1 else 2)
  {
    hide Step, Play, CountsOf, ByExecutor, First;
    StartFits(thread);
    PlayEvidence(thread, Start(thread), run);
  }

  datatype Status = Completed | WaitingApproval | Failed | Cancelled

  /** What `execute` stores; a run cancelled meanwhile stays so only if it would have completed. */
  function Persisted(c: Config, cancelled: bool): Status {
    if c.at == ApprovalGate then WaitingApproval
    else if !c.s.verified || !c.s.completed then Failed
    else if cancelled then Cancelled
    else Completed
  }

  /** A run waits for approval exactly where the graph stops for it, which no run of the executor does. */
  lemma WaitsAtTheGate(thread: State, run: seq<Input>, cancelled: bool)
    requires Play(Start(thread), run).Some?
    ensures var c := Play(Start(thread), run).value;
      && (Persisted(c, cancelled) == WaitingApproval <==> c.at == ApprovalGate)
      && (ByExecutor(Start(thread), run) ==> Persisted(c, cancelled) != WaitingApproval)
  {
    hide Step, Play, ByExecutor, First, CountsOf;
    if ByExecutor(Start(thread), run) { CompletedExactlyWithEvidence(thread, run); }
  }

  /** A stored completion has a direct answer and at least one row or citation behind it. */
  lemma CompletionIsGrounded(thread: State, run: seq<Input>, cancelled: bool)
    requires ByExecutor(Start(thread), run) && Play(Start(thread), run).Some?
    requires Play(Start(thread), run).value.at == End
    ensures var c := Play(Start(thread), run).value;
      && (Persisted(c, cancelled) == Completed <==> Evidence(c.s) && !cancelled)
      && (Persisted(c, cancelled) == Cancelled <==> Evidence(c.s) && cancelled)
      && (Persisted(c, cancelled) == Failed <==> !Evidence(c.s))
      && (Persisted(c, cancelled) == Completed ==>
            c.s.answer.Some? && c.s.answer.value.direct != ""
            && (c.s.answer.value.rows != [] || c.s.answer.value.citations != []))
  {
    hide Step, Play, ByExecutor, First, CountsOf;
    CompletedExactlyWithEvidence(thread, run);
    EndOfRun(thread, run);
  }

  lemma {:induction false} FirstOfOther(own: seq<Entry>, agent: Agent)
    requires agent !in Agents(own)
    ensures First(own, agent) == NO_FINDINGS
  {
    if own != [] {
      assert Agents(own) == [own[0].agent] + Agents(own[1..]);
      FirstOfOther(own[1..], agent);
    }
  }

  /** The evidence looked up is the first of the whole thread: an earlier question's result of the
      same agent hides this question's. */
  lemma EvidenceIsTheFirst(thread: State, run: seq<Input>, agent: Agent)
    requires Play(Start(thread), run).Some? && Later(Play(Start(thread), run).value.at)
    ensures var s := Play(Start(thread), run).value.s;
      First(s.results, agent) == if agent in Agents(thread.results) then First(thread.results, agent)
                                 else First(OwnResults(thread, s), agent)
  {
    hide Step, Play, First, Agents;
    var s := Play(Start(thread), run).value.s;
    EverySubagentOnce(thread, run);
    assert s.results == thread.results + OwnResults(thread, s);
    FirstOfAppend(thread.results, OwnResults(thread, s), agent);
  }

  /** A question outside both routes runs no subagent, so it completes exactly when the thread already
      held evidence from an earlier question; on a fresh thread it never does. */
  lemma UnsupportedCompletesOnlyOnOldEvidence(thread: State, run: seq<Input>)
    requires ByExecutor(Start(thread), run) && Play(Start(thread), run).Some?
    requires Play(Start(thread), run).value.at == End && Play(Start(thread), run).value.s.route == Some(Unsupported)
    ensures Play(Start(thread), run).value.s.completed <==> Evidence(thread)
    ensures thread.results == [] ==> !Play(Start(thread), run).value.s.completed
  {
    hide Step, Play, ByExecutor, CountsOf, Agents;
    var s := Play(Start(thread), run).value.s;
    CompletedExactlyWithEvidence(thread, run);
    EverySubagentOnce(thread, run);
    NoAgents(OwnResults(thread, s));
    forall agent: Agent ensures First(s.results, agent) == First(thread.results, agent) {
      EvidenceIsTheFirst(thread, run, agent);
      FirstOfOther(OwnResults(thread, s), agent);
      if agent !in Agents(thread.results) { FirstOfOther(thread.results, agent); }
    }
  }

  /** Something in this entry can carry an answer. */
  predicate Carries(e: Entry) {
    (e.agent == DataAnalysis && e.findings.rows != []) || (e.agent == KnowledgeResearch && e.findings.citations != [])
  }

  lemma {:induction false} FirstIsOnly(results: seq<Entry>, agent: Agent)
    requires forall i, j | 0 <= i < j < |results| :: results[i].agent != results[j].agent
    ensures forall i | 0 <= i < |results| && results[i].agent == agent :: First(results, agent) == results[i].findings
    ensures (forall i | 0 <= i < |results| :: results[i].agent != agent) ==> First(results, agent) == NO_FINDINGS
  {
    if results != [] {
      assert forall i | 0 <= i < |results| - 1 :: results[1..][i] == results[i + 1];
      FirstIsOnly(results[1..], agent);
    }
  }

  lemma EvidenceOfDistinct(s: State)
    requires forall i, j | 0 <= i < j < |s.results| :: s.results[i].agent != s.results[j].agent
    ensures Evidence(s) <==> exists i :: 0 <= i < |s.results| && Carries(s.results[i])
  {
    hide First;
    FirstIsOnly(s.results, DataAnalysis);
    FirstIsOnly(s.results, KnowledgeResearch);
    if Evidence(s) {
      if RowsFound(s) != [] {
        var i :| 0 <= i < |s.results| && s.results[i].agent == DataAnalysis;
        assert Carries(s.results[i]);
      } else {
        var i :| 0 <= i < |s.results| && s.results[i].agent == KnowledgeResearch;
        assert Carries(s.results[i]);
      }
    }
  }

  lemma DistinctAgents(entries: seq<Entry>)
    requires multiset(Agents(entries)) <= multiset{DataAnalysis, KnowledgeResearch}
    ensures forall i, j | 0 <= i < j < |entries| :: entries[i].agent != entries[j].agent
  {
    forall i, j | 0 <= i < j < |entries| ensures entries[i].agent != entries[j].agent {
      CountsOfPlaces(Agents(entries), i, j);
    }
  }

  lemma CountsOfPlaces(agents: seq<Agent>, i: nat, j: nat)
    requires i < j < |agents|
    ensures agents[i] == agents[j] ==> multiset(agents)[agents[j]] >= 2
  {
    assert agents == agents[..j] + [agents[j]] + agents[j + 1..];
    assert agents[..j][i] in multiset(agents[..j]);
  }

  /** On a thread without results, by what the subagents of this question brought back: it completes
      exactly if the data subagent found a row or the knowledge subagent a citation. */
  lemma CompletesByItsFindings(thread: State, run: seq<Input>)
    requires ByExecutor(Start(thread), run) && Play(Start(thread), run).Some?
    requires Play(Start(thread), run).value.at == End && thread.results == [] && AsksApproval(thread)
    ensures Play(Start(thread), run).value.s.completed <==> exists i :: 0 <= i < |Found(run)| && Carries(Found(run)[i])
  {
    hide Step, Play, ByExecutor, First, CountsOf, Found, Carries, Agents;
    var s := Play(Start(thread), run).value.s;
    CompletedExactlyWithEvidence(thread, run);
    RunIsRecorded(Start(thread), run);
    EverySubagentOnce(thread, run);
    assert OwnResults(thread, s) == s.results == Found(run);
    DistinctAgents(s.results);
    EvidenceOfDistinct(s);
  }

  lemma AnsweredStep(c: Config, a: Answer)
    requires c.at == Synthesize
    ensures var next := Step(c, Answered(a));
      next.Some? && next.value.at == Verify && next.value.s.results == c.s.results && next.value.s.route == c.s.route
      && next.value.s.answer == Some(a) && next.value.s.requiresApproval == a.requiresApproval
  {
    hide MergeMaps;
  }

  lemma AcceptedStep(c: Config)
    requires c.at == Verify && !c.s.requiresApproval
    ensures var next := Step(c, Judged(Verdict(true, None, None)));
      next.Some? && next.value.at == Complete && next.value.s.route == c.s.route && next.value.s.verified
  {
    hide MergeMaps;
  }

  lemma CompleteStep(c: Config)
    requires c.at == Complete
    ensures var next := Step(c, Go);
      next.Some? && next.value.at == End && next.value.s.route == c.s.route && next.value.s.completed == c.s.verified
  {
    hide MergeMaps;
  }

  lemma PlaysOn(c: Config, i: Input, rest: seq<Input>, end: Config)
    requires Step(c, i).Some? && Serves(c, i)
    requires ByExecutor(Step(c, i).value, rest) && Play(Step(c, i).value, rest) == Some(end)
    ensures ByExecutor(c, [i] + rest) && Play(c, [i] + rest) == Some(end)
  {
    hide Step, Serves;
    assert ([i] + rest)[1..] == rest;
  }

  lemma PlaysNothing(c: Config)
    ensures ByExecutor(c, []) && Play(c, []) == Some(c)
  {
  }

  /** With evidence the synthesis leads to a completion at the first attempt. */
  lemma SynthesisCanComplete(c: Config) returns (run: seq<Input>)
    requires c.at == Synthesize && Evidence(c.s)
    ensures ByExecutor(c, run) && Play(c, run).Some?
    ensures var end := Play(c, run).value;
      end.at == End && end.s.route == c.s.route && end.s.completed
  {
    hide Step, Play, ByExecutor, First;
    var answer := Answer("answer", RowsFound(c.s), CitationsFound(c.s), false);
    var accept := Judged(Verdict(true, None, None));
    AnsweredStep(c, answer);
    var c1 := Step(c, Answered(answer)).value;
    AcceptedStep(c1);
    var c2 := Step(c1, accept).value;
    CompleteStep(c2);
    var c3 := Step(c2, Go).value;
    PlaysNothing(c3);
    PlaysOn(c2, Go, [], c3);
    PlaysOn(c1, accept, [Go] + [], c3);
    run := [Answered(answer)] + ([accept] + ([Go] + []));
    PlaysOn(c, Answered(answer), run[1..], c3);
  }

  /** On every thread that holds evidence from before, an unsupported question has a run that completes. */
  lemma UnsupportedCanComplete(thread: State) returns (run: seq<Input>)
    requires Evidence(thread)
    ensures ByExecutor(Start(thread), run) && Play(Start(thread), run).Some?
    ensures var c := Play(Start(thread), run).value;
      c.at == End && c.s.route == Some(Unsupported) && c.s.completed
  {
    hide Step, Play, ByExecutor, First;
    ContextStep(thread);
    var c1 := Step(Start(thread), Go).value;
    RoutedStep(c1, Unsupported);
    var c2 := Step(c1, Routed(Unsupported)).value;
    var rest := SynthesisCanComplete(c2);
    PlaysOn(c1, Routed(Unsupported), rest, Play(c2, rest).value);
    run := [Go] + ([Routed(Unsupported)] + rest);
    PlaysOn(Start(thread), Go, run[1..], Play(c2, rest).value);
  }

  /** So it has one after every question that completed. */
  lemma UnsupportedCanFollow(thread: State, first: seq<Input>) returns (second: seq<Input>)
    requires ByExecutor(Start(thread), first) && Play(Start(thread), first).Some?
    requires Play(Start(thread), first).value.at == End && Play(Start(thread), first).value.s.completed
    ensures var left := Play(Start(thread), first).value.s;
      && ByExecutor(Start(left), second) && Play(Start(left), second).Some?
      && var c := Play(Start(left), second).value;
         c.at == End && c.s.route == Some(Unsupported) && c.s.completed
  {
    hide Step, Play, ByExecutor, First;
    CompletedExactlyWithEvidence(thread, first);
    second := UnsupportedCanComplete(Play(Start(thread), first).value.s);
  }

  /** On a thread without results a data question that finds a row can complete. */
  lemma DataCanComplete(thread: State, findings: Findings) returns (run: seq<Input>)
    requires thread.results == [] && findings.rows != []
    ensures ByExecutor(Start(thread), run) && Play(Start(thread), run).Some?
    ensures var c := Play(Start(thread), run).value;
      c.at == End && c.s.route == Some(Data) && c.s.completed
  {
    hide Step, Play, ByExecutor;
    ContextStep(thread);
    var c1 := Step(Start(thread), Go).value;
    RoutedStep(c1, Data);
    var c2 := Step(c1, Routed(Data)).value;
    DoneStep(c2, DataAnalysis, findings);
    var c3 := Step(c2, Done(DataAnalysis, findings)).value;
    assert Without([DataAnalysis], DataAnalysis) == [];
    assert c3.s.results == [Entry(DataAnalysis, findings)];
    var rest := SynthesisCanComplete(c3);
    var end := Play(c3, rest).value;
    PlaysOn(c2, Done(DataAnalysis, findings), rest, end);
    PlaysOn(c1, Routed(Data), [Done(DataAnalysis, findings)] + rest, end);
    run := [Go] + ([Routed(Data)] + ([Done(DataAnalysis, findings)] + rest));
    PlaysOn(Start(thread), Go, run[1..], end);
  }

  const NEW_THREAD := State(None, [], [], [], [], map[], None, false, None, None, false, false)

  /** And it happens: on a new thread a data question completes, and then one that is outside both
      routes completes on what the first one left. */
  lemma UnsupportedCompletionHappens() returns (first: seq<Input>, second: seq<Input>)
    ensures ByExecutor(Start(NEW_THREAD), first) && Play(Start(NEW_THREAD), first).Some?
    ensures var c := Play(Start(NEW_THREAD), first).value;
      && c.at == End && c.s.route == Some(Data) && c.s.completed
      && ByExecutor(Start(c.s), second) && Play(Start(c.s), second).Some?
    ensures var c := Play(Start(Play(Start(NEW_THREAD), first).value.s), second).value;
      c.at == End && c.s.route == Some(Unsupported) && c.s.completed
  {
    hide Step, Play, ByExecutor;
    first := DataCanComplete(NEW_THREAD, Findings(["42"], [], ""));
    second := UnsupportedCanFollow(NEW_THREAD, first);
  }

  lemma NoAgents(own: seq<Entry>)
    requires multiset(Agents(own)) == multiset(SelectedFor(Unsupported))
    ensures forall agent: Agent :: agent !in Agents(own)
  {
    assert multiset(SelectedFor(Unsupported)) == multiset{};
    forall agent: Agent ensures agent !in Agents(own) {
      assert agent in Agents(own) <==> agent in multiset(Agents(own));
    }
  }

  // ---------------------------------------------------------------------------------------------
  // The token stream
  // ---------------------------------------------------------------------------------------------

  const FLUSH_AT := 40

  /** The pieces are the text so far, cut as soon as a piece has 40 characters. */
  ghost predicate Flushed(pieces: seq<string>, buffer: string, tokens: seq<string>) {
    && Concat(pieces) + buffer == Concat(tokens)
    && (forall i | 0 <= i < |pieces| :: |pieces[i]| >= FLUSH_AT)
    && |buffer| < FLUSH_AT
  }

  lemma FlushedStep(pieces: seq<string>, buffer: string, tokens: seq<string>, token: string)
    requires Flushed(pieces, buffer, tokens)
    ensures var b := buffer + token;
      if |b| >= FLUSH_AT then Flushed(pieces + [b], "", tokens + [token]) else Flushed(pieces, b, tokens + [token])
  {
    assert (tokens + [token])[..|tokens|] == tokens;
    var b := buffer + token;
    assert (pieces + [b])[..|pieces|] == pieces;
    assert Concat(pieces) + b == Concat(tokens) + token;
    assert Concat(pieces + [b]) + "" == Concat(tokens) + token;
  }

  lemma NothingStreamed()
    ensures Concat([]) == "" && Flushed([], "", [])
  {
  }

  lemma FlushRest(pieces: seq<string>, buffer: string, tokens: seq<string>)
    requires Flushed(pieces, buffer, tokens)
    ensures Concat(if buffer != "" then pieces + [buffer] else pieces) == Concat(tokens)
    ensures |buffer| < FLUSH_AT && forall i | 0 <= i < |pieces| :: |pieces[i]| >= FLUSH_AT
  {
    assert (pieces + [buffer])[..|pieces|] == pieces;
  }

  /** The streaming part of `synthesize`.  `broken` says that the model's stream failed after these
      tokens.  Unless it does, the emitted pieces put together are the streamed text; if it does, a
      rest of less than 40 characters is held back and the planned answer takes over. */
  method StreamAnswer(tokens: seq<string>, broken: bool, planned: string)
    returns (direct: string, emitted: seq<string>, degraded: bool)
    requires planned != ""
    ensures !broken ==> Concat(emitted) == Concat(tokens)
    ensures broken ==> exists rest :: Flushed(emitted, rest, tokens) && |rest| < 40
    ensures forall i | 0 <= i < |emitted| ::
      emitted[i] != "" && (i < |emitted| - 1 || broken ==> |emitted[i]| >= 40)
    ensures degraded == broken
    ensures direct != ""
    ensures direct == (if Strip(if broken then planned else Concat(tokens)) != ""
                       then Strip(if broken then planned else Concat(tokens)) else planned)
  {
    hide Strip, Flushed, Concat;
    var streamed, buffer := "", "";
    emitted := [];
    NothingStreamed();
    var n := 0;
    while n < |tokens|
      invariant 0 <= n <= |tokens|
      invariant streamed == Concat(tokens[..n])
      invariant Flushed(emitted, buffer, tokens[..n])
    {
      FlushedStep(emitted, buffer, tokens[..n], tokens[n]);
      ConcatStep(tokens, n);
      assert tokens[..n + 1] == tokens[..n] + [tokens[n]];
      streamed := streamed + tokens[n];
      buffer := buffer + tokens[n];
      if |buffer| >= FLUSH_AT {
        emitted := emitted + [buffer];
        buffer := "";
      }
      n := n + 1;
    }
    assert tokens[..n] == tokens;
    FlushRest(emitted, buffer, tokens);
    if broken {
      streamed := planned;
    } else if buffer != "" {
      emitted := emitted + [buffer];
    }
    degraded := broken;
    direct := if Strip(streamed) != "" then Strip(streamed) else planned;
  }

  // ---------------------------------------------------------------------------------------------
  // The data subagent
  // ---------------------------------------------------------------------------------------------

  datatype Plan = Plan(sql: string, insight: string)

  /** The planner, the SQL guard (an error text, or none) and the query tool, by attempt. */
  datatype Tools = Tools(plan: (nat, Option<string>) -> Result<Plan, string>, guard: string -> Option<string>,
                         query: (nat, string) -> Result<seq<string>, string>)

  /** The reason handed to the next attempt: the first 600 characters. */
  function Reason(text: string): (r: string)
    ensures r <= text && (|text| <= 600 ==> r == text) && (|text| > 600 ==> |r| == 600)
  {
    if |text| <= 600 then text else text[..600]
  }

  /** Attempt `n` runs this plan's SQL and gets these rows. */
  ghost predicate Ran(t: Tools, n: nat, previous: Option<string>, plan: Plan, rows: seq<string>) {
    t.plan(n, previous) == Success(plan) && t.guard(plan.sql) == None && t.query(n, plan.sql) == Success(rows)
  }

  /** Attempt `n` is turned down: by the guard before anything runs, or by the tool. */
  ghost predicate TurnedDown(t: Tools, n: nat, previous: Option<string>, reason: string) {
    t.plan(n, previous).Success? &&
    var sql := t.plan(n, previous).value.sql;
    match t.guard(sql)
    case Some(error) => reason == Reason(error)
    case None => t.query(n, sql).Failure? && reason == Reason(t.query(n, sql).error)
  }

  /** The retry loop of `_run_data_subagent`: two attempts, the second told why the first was turned
      down.  Only guarded SQL runs, and the insight returned belongs to the plan that ran. */
  method RunDataSubagent(t: Tools) returns (r: Result<(Plan, seq<string>), string>, failures: seq<string>)
    ensures |failures| <= 2
    ensures |failures| > 0 ==> TurnedDown(t, 1, None, failures[0])
    ensures |failures| > 1 ==> TurnedDown(t, 2, Some(failures[0]), failures[1])
    ensures var previous := if failures == [] then None else Some(failures[|failures| - 1]);
      match r
      case Success((plan, rows)) => |failures| < 2 && Ran(t, |failures| + 1, previous, plan, rows)
      case Failure(_) => |failures| == 2 || t.plan(|failures| + 1, previous).Failure?
  {
    failures := [];
    var attempt := 1;
    while attempt < 3
      invariant 1 <= attempt <= 3 && |failures| == attempt - 1
      invariant |failures| > 0 ==> TurnedDown(t, 1, None, failures[0])
      invariant |failures| > 1 ==> TurnedDown(t, 2, Some(failures[0]), failures[1])
    {
      var planned := t.plan(attempt, if failures == [] then None else Some(failures[|failures| - 1]));
      if planned.Failure? { return Failure(planned.error), failures; }
      var plan := planned.value;
      var rejected := t.guard(plan.sql);
      if rejected.Some? {
        failures := failures + [Reason(rejected.value)];
      } else {
        var result := t.query(attempt, plan.sql);
        if result.Success? { return Success((plan, result.value)), failures; }
        failures := failures + [Reason(result.error)];
      }
      attempt := attempt + 1;
    }
    return Failure("SQL planning was rejected after 2 attempts: " + failures[1]), failures;
  }
}
